/**
 * The batch download loop `_get` and its helper `_save_content`. The network
 * is an oracle that says, per URL, what `session.get` did; the filesystem
 * is a map from path to contents; the log is a sequence of entries.
 */
module Downloader {
  import opened Common
  import Retry

  type Byte = bv8

  type Bytes = seq<Byte>

  /** Files on disk: path to contents. */
  type FileSystem = map<string, Bytes>

  datatype Level = Info | Warning

  datatype LogEntry = LogEntry(level: Level, message: string)

  /**
   * What `session.get(url, stream=True)` did: returned a response whose body
   * streams as the given chunks, or raised one of the exceptions `_get`
   * distinguishes (carrying the exception's text).
   */
  datatype Response =
    | Ok(chunks: seq<Bytes>)
    | MaxRetryError(err: string)
    | HttpError(err: string)
    | SslError(err: string)
    | OtherError(err: string)

  /** The exceptions `_get` catches, logs and skips. */
  predicate IsCaught(r: Response) {
    r.MaxRetryError? || r.HttpError? || r.SslError?
  }

  /** The bytes written by writing the chunks one after another. */
  function Concat(chunks: seq<Bytes>): Bytes
    decreases |chunks|
  {
    if chunks == [] then [] else Concat(chunks[..|chunks| - 1]) + chunks[|chunks| - 1]
  }

  /** `f'{dir}/{url}'`. */
  function JoinPath(dir: string, url: string): string {
    dir + "/" + url
  }

  /** Different URLs are saved under different paths of one directory. */
  lemma JoinPathInjective(dir: string, u: string, v: string)
    requires JoinPath(dir, u) == JoinPath(dir, v)
    ensures u == v
  {
    assert u == JoinPath(dir, u)[|dir| + 1..];
    assert v == JoinPath(dir, v)[|dir| + 1..];
  }

  function AccessMessage(baseUrl: string, url: string): string {
    "Successful access to url: " + baseUrl + "/" + url
  }

  function DownloadedMessage(url: string): string {
    "Downloaded " + url
  }

  function MissingMessage(url: string): string {
    url + " not found!"
  }

  /** `_TimeoutHTTPAdapter(max_retries=..., timeout=...)`, as far as `_get` configures it. */
  datatype Adapter = TimeoutAdapter(maxRetries: Retry.RetryPolicy, timeout: nat)

  /** The parts of a `BaseUrlSession` that the client sets. */
  class Session {
    const baseUrl: string
    var httpsAdapter: Option<Adapter>
    var verify: bool
    var raiseForStatus: bool

    constructor (baseUrl: string)
      ensures this.baseUrl == baseUrl
      ensures httpsAdapter == None && verify && !raiseForStatus
    {
      this.baseUrl := baseUrl;
      httpsAdapter := None;
      verify := true;
      raiseForStatus := false;
    }

    /** `session.mount('https://', adapter)`. */
    method Mount(a: Adapter)
      modifies this
      ensures httpsAdapter == Some(a)
      ensures verify == old(verify) && raiseForStatus == old(raiseForStatus)
    {
      httpsAdapter := Some(a);
    }
  }

  /** The observable state of a batch: files, log, and the exception that escaped, if any. */
  datatype Batch = Batch(files: FileSystem, log: seq<LogEntry>, raised: Option<string>)

  /**
   * One turn of `for url in urls`: a success logs the access, writes the
   * file and logs the download; a caught exception logs a warning; any other
   * exception escapes, after which nothing more happens.
   */
  function Step(baseUrl: string, dir: string, b: Batch, url: string, r: Response): Batch {
    if b.raised.Some? then b
    else
      match r
      case Ok(chunks) =>
        Batch(b.files[JoinPath(dir, url) := Concat(chunks)],
              b.log + [LogEntry(Info, AccessMessage(baseUrl, url)), LogEntry(Info, DownloadedMessage(url))],
              None)
      case OtherError(e) => Batch(b.files, b.log, Some(e))
      case _ => Batch(b.files, b.log + [LogEntry(Warning, r.err)], None)
  }

  /** The whole loop over `urls`, `responses[i]` being what fetching `urls[i]` did. */
  function Run(baseUrl: string, dir: string, urls: seq<string>, responses: seq<Response>, b: Batch): Batch
    requires |responses| == |urls|
    decreases |urls|
  {
    if urls == [] then b
    else
      var n := |urls| - 1;
      Step(baseUrl, dir, Run(baseUrl, dir, urls[..n], responses[..n], b), urls[n], responses[n])
  }

  /**
   * `_save_content`: opening the path for writing empties the file, each
   * chunk is appended in order, then the file's existence is checked and
   * logged.
   */
  method SaveContent(files: FileSystem, log: seq<LogEntry>, path: string, url: string, chunks: seq<Bytes>)
    returns (files': FileSystem, log': seq<LogEntry>)
    ensures files' == files[path := Concat(chunks)]
    ensures log' == log + [LogEntry(Info, DownloadedMessage(url))]
  {
    files' := files[path := []];
    for i := 0 to |chunks|
      invariant files' == files[path := Concat(chunks[..i])]
    {
      assert chunks[..i + 1][..i] == chunks[..i];
      files' := files'[path := files'[path] + chunks[i]];
    }
    assert chunks[..|chunks|] == chunks;
    if path in files' {
      log' := log + [LogEntry(Info, DownloadedMessage(url))];
    } else {
      log' := log + [LogEntry(Warning, MissingMessage(url))];
    }
  }

  /** The `for url in urls` loop of `_get`, on an already configured session. */
  method FetchAll(urls: seq<string>, dir: string, baseUrl: string, responses: seq<Response>,
                  files: FileSystem, log: seq<LogEntry>)
    returns (files': FileSystem, log': seq<LogEntry>, raised: Option<string>)
    requires |responses| == |urls|
    ensures Batch(files', log', raised) == Run(baseUrl, dir, urls, responses, Batch(files, log, None))
  {
    files', log', raised := files, log, None;
    ghost var start := Batch(files, log, None);
    var i := 0;
    while i < |urls|
      invariant 0 <= i <= |urls|
      invariant Batch(files', log', None) == Run(baseUrl, dir, urls[..i], responses[..i], start)
    {
      var url := urls[i];
      assert urls[..i + 1][..i] == urls[..i] && responses[..i + 1][..i] == responses[..i];
      match responses[i] {
        case Ok(chunks) =>
          log' := log' + [LogEntry(Info, AccessMessage(baseUrl, url))];
          files', log' := SaveContent(files', log', JoinPath(dir, url), url, chunks);
        case MaxRetryError(e) =>
          log' := log' + [LogEntry(Warning, e)];
        case HttpError(e) =>
          log' := log' + [LogEntry(Warning, e)];
        case SslError(e) =>
          log' := log' + [LogEntry(Warning, e)];
        case OtherError(e) =>
          raised := Some(e);
          RaisedStaysRaised(baseUrl, dir, urls, responses, start, i + 1);
          return;
      }
      i := i + 1;
    }
    assert urls[..|urls|] == urls && responses[..|urls|] == responses;
  }

  /**
   * `_get`: mounts the retrying adapter for https, turns certificate
   * verification off, then fetches every URL in order.
   */
  method Get(urls: seq<string>, dir: string, session: Session, chunkSize: nat, timeout: nat, retry: nat, delay: nat,
             responses: seq<Response>, files: FileSystem, log: seq<LogEntry>)
    returns (files': FileSystem, log': seq<LogEntry>, raised: Option<string>)
    requires |responses| == |urls|
    modifies session
    ensures session.httpsAdapter == Some(TimeoutAdapter(Retry.RetryStrategy(retry, delay), timeout))
    ensures !session.verify && session.raiseForStatus == old(session.raiseForStatus)
    ensures Batch(files', log', raised) == Run(session.baseUrl, dir, urls, responses, Batch(files, log, None))
  {
    session.Mount(TimeoutAdapter(Retry.RetryStrategy(retry, delay), timeout));
    session.verify := false;
    files', log', raised := FetchAll(urls, dir, session.baseUrl, responses, files, log);
  }

  /** Once an exception has escaped, the rest of the batch changes nothing. */
  lemma {:induction false} RaisedStaysRaised(baseUrl: string, dir: string, urls: seq<string>, responses: seq<Response>,
                                             b: Batch, k: nat)
    requires |responses| == |urls| && k <= |urls|
    requires Run(baseUrl, dir, urls[..k], responses[..k], b).raised.Some?
    ensures Run(baseUrl, dir, urls, responses, b) == Run(baseUrl, dir, urls[..k], responses[..k], b)
    decreases |urls|
  {
    if k < |urls| {
      var n := |urls| - 1;
      assert urls[..n][..k] == urls[..k] && responses[..n][..k] == responses[..k];
      RaisedStaysRaised(baseUrl, dir, urls[..n], responses[..n], b, k);
    } else {
      assert urls[..k] == urls && responses[..k] == responses;
    }
  }

  /** The loop reaches URL i: no exception escaped for an earlier one. */
  ghost predicate Reached(responses: seq<Response>, i: nat) {
    forall j :: 0 <= j < i && j < |responses| ==> !responses[j].OtherError?
  }

  /**
   * `_get` returns normally exactly when no fetch raised an uncaught
   * exception; otherwise the first such exception is the one that escapes.
   */
  lemma {:induction false} EscapesOnlyOnUncaught(baseUrl: string, dir: string, urls: seq<string>, responses: seq<Response>,
                                                 files: FileSystem, log: seq<LogEntry>)
    requires |responses| == |urls|
    ensures var r := Run(baseUrl, dir, urls, responses, Batch(files, log, None));
      && (r.raised.None? <==> Reached(responses, |responses|))
      && (r.raised.Some? ==> exists i :: 0 <= i < |responses| && Reached(responses, i) && responses[i] == OtherError(r.raised.value))
    decreases |urls|
  {
    if urls != [] {
      var n := |urls| - 1;
      EscapesOnlyOnUncaught(baseUrl, dir, urls[..n], responses[..n], files, log);
      var prev := Run(baseUrl, dir, urls[..n], responses[..n], Batch(files, log, None));
      var r := Run(baseUrl, dir, urls, responses, Batch(files, log, None));
      assert r == Step(baseUrl, dir, prev, urls[n], responses[n]);
      assert forall j :: 0 <= j < n ==> responses[..n][j] == responses[j];
      assert Reached(responses[..n], n) <==> Reached(responses, n);
      if prev.raised.Some? {
        var i :| 0 <= i < n && Reached(responses[..n], i) && responses[..n][i] == OtherError(prev.raised.value);
        assert r == prev;
        assert Reached(responses, i) && responses[i] == OtherError(r.raised.value);
      } else if responses[n].OtherError? {
        assert Reached(responses, n) && responses[n] == OtherError(r.raised.value);
      } else {
        assert r.raised.None?;
      }
    }
  }

  /** Some response at a reached position wrote to path p. */
  ghost predicate WritesTo(dir: string, urls: seq<string>, responses: seq<Response>, p: string)
    requires |responses| == |urls|
  {
    exists i :: 0 <= i < |urls| && Reached(responses, i) && responses[i].Ok? && JoinPath(dir, urls[i]) == p
  }

  /**
   * Only successful fetches create or overwrite files: a path no reached
   * success wrote to is exactly as before, and one that was written exists.
   */
  lemma {:induction false} OnlyFetchedPathsChange(baseUrl: string, dir: string, urls: seq<string>, responses: seq<Response>,
                                                  files: FileSystem, log: seq<LogEntry>, p: string)
    requires |responses| == |urls|
    ensures var r := Run(baseUrl, dir, urls, responses, Batch(files, log, None));
      && (!WritesTo(dir, urls, responses, p) ==> (p in r.files <==> p in files) && (p in files ==> r.files[p] == files[p]))
      && (WritesTo(dir, urls, responses, p) ==> p in r.files)
    decreases |urls|
  {
    if urls != [] {
      var n := |urls| - 1;
      OnlyFetchedPathsChange(baseUrl, dir, urls[..n], responses[..n], files, log, p);
      EscapesOnlyOnUncaught(baseUrl, dir, urls[..n], responses[..n], files, log);
      var prev := Run(baseUrl, dir, urls[..n], responses[..n], Batch(files, log, None));
      assert forall j :: 0 <= j < n ==> urls[..n][j] == urls[j] && responses[..n][j] == responses[j];
      if WritesTo(dir, urls[..n], responses[..n], p) {
        var i :| 0 <= i < n && Reached(responses[..n], i) && responses[..n][i].Ok? && JoinPath(dir, urls[..n][i]) == p;
        assert Reached(responses, i);
      }
      if WritesTo(dir, urls, responses, p) {
        var i :| 0 <= i < |urls| && Reached(responses, i) && responses[i].Ok? && JoinPath(dir, urls[i]) == p;
        if i < n {
          assert Reached(responses[..n], i);
        } else {
          assert Reached(responses[..n], n);
        }
      }
      if !WritesTo(dir, urls, responses, p) && prev.raised.None? && responses[n].Ok? {
        assert Reached(responses[..n], n);
        assert JoinPath(dir, urls[n]) != p;
      }
    }
  }

  /**
   * After a reached successful fetch of a URL that is not requested again,
   * the file saved for it holds exactly the response's chunks, in order.
   */
  lemma {:induction false} SavedFileHoldsChunks(baseUrl: string, dir: string, urls: seq<string>, responses: seq<Response>,
                                                files: FileSystem, log: seq<LogEntry>, i: nat)
    requires |responses| == |urls| && i < |urls|
    requires Reached(responses, i + 1) && responses[i].Ok?
    requires forall j :: i < j < |urls| ==> urls[j] != urls[i]
    ensures var r := Run(baseUrl, dir, urls, responses, Batch(files, log, None));
      && JoinPath(dir, urls[i]) in r.files
      && r.files[JoinPath(dir, urls[i])] == Concat(responses[i].chunks)
    decreases |urls|
  {
    var n := |urls| - 1;
    var p := JoinPath(dir, urls[i]);
    assert forall j :: 0 <= j < n ==> urls[..n][j] == urls[j] && responses[..n][j] == responses[j];
    EscapesOnlyOnUncaught(baseUrl, dir, urls[..n], responses[..n], files, log);
    if i < n {
      SavedFileHoldsChunks(baseUrl, dir, urls[..n], responses[..n], files, log, i);
      var prev := Run(baseUrl, dir, urls[..n], responses[..n], Batch(files, log, None));
      if responses[n].Ok? && prev.raised.None? {
        if JoinPath(dir, urls[n]) == p {
          JoinPathInjective(dir, urls[n], urls[i]);
        }
      }
    } else {
      assert Reached(responses[..n], n);
    }
  }

  /**
   * When every fetch succeeds nothing escapes, each URL's path exists
   * afterwards, and a path no URL maps to is untouched.
   */
  lemma AllSucceedWritesEveryPath(baseUrl: string, dir: string, urls: seq<string>, responses: seq<Response>,
                                  files: FileSystem, log: seq<LogEntry>, p: string)
    requires |responses| == |urls|
    requires forall i :: 0 <= i < |responses| ==> responses[i].Ok?
    ensures var r := Run(baseUrl, dir, urls, responses, Batch(files, log, None));
      && r.raised.None?
      && ((exists i :: 0 <= i < |urls| && JoinPath(dir, urls[i]) == p) ==> p in r.files)
      && ((forall i :: 0 <= i < |urls| ==> JoinPath(dir, urls[i]) != p) ==>
            (p in r.files <==> p in files) && (p in files ==> r.files[p] == files[p]))
  {
  }

  /**
   * Three URLs where the middle one fails with a certificate error: the call
   * returns normally and exactly the first and third files are written.
   */
  lemma MiddleFailureKeepsOthers(baseUrl: string, dir: string, urls: seq<string>, responses: seq<Response>,
                                 files: FileSystem, log: seq<LogEntry>, a: seq<Bytes>, e: string, c: seq<Bytes>)
    requires |urls| == 3 && responses == [Ok(a), SslError(e), Ok(c)]
    ensures var r := Run(baseUrl, dir, urls, responses, Batch(files, log, None));
      && r.raised.None?
      && r.files == files[JoinPath(dir, urls[0]) := Concat(a)][JoinPath(dir, urls[2]) := Concat(c)]
  {
    var b := Batch(files, log, None);
    assert urls[..3] == urls && responses[..3] == responses;
    assert urls[..3][..2] == urls[..2] && responses[..3][..2] == responses[..2];
    assert urls[..2][..1] == urls[..1] && responses[..2][..1] == responses[..1];
    assert urls[..1][..0] == [] && responses[..1][..0] == [];
    assert Run(baseUrl, dir, [], [], b) == b;
    assert urls[..1][0] == urls[0] && responses[..1][0] == Ok(a);
    assert urls[..2][1] == urls[1] && responses[..2][1] == SslError(e);
    var r1 := Run(baseUrl, dir, urls[..1], responses[..1], b);
    assert r1 == Step(baseUrl, dir, b, urls[0], Ok(a));
    var r2 := Run(baseUrl, dir, urls[..2], responses[..2], b);
    assert r2 == Step(baseUrl, dir, r1, urls[1], SslError(e));
    assert Run(baseUrl, dir, urls, responses, b) == Step(baseUrl, dir, r2, urls[2], Ok(c));
  }

  /** The log lines one URL adds, in order. */
  function LogFor(baseUrl: string, url: string, r: Response): seq<LogEntry> {
    match r
    case Ok(_) => [LogEntry(Info, AccessMessage(baseUrl, url)), LogEntry(Info, DownloadedMessage(url))]
    case OtherError(_) => []
    case _ => [LogEntry(Warning, r.err)]
  }

  /**
   * The log the batch should add, URL by URL from the front, stopping at the
   * first uncaught exception.
   */
  function ExpectedLog(baseUrl: string, urls: seq<string>, responses: seq<Response>): seq<LogEntry>
    requires |responses| == |urls|
    decreases |urls|
  {
    if urls == [] || responses[0].OtherError? then []
    else LogFor(baseUrl, urls[0], responses[0]) + ExpectedLog(baseUrl, urls[1..], responses[1..])
  }

  lemma {:induction false} ExpectedLogSnoc(baseUrl: string, urls: seq<string>, responses: seq<Response>, url: string, r: Response)
    requires |responses| == |urls|
    ensures ExpectedLog(baseUrl, urls + [url], responses + [r]) ==
      ExpectedLog(baseUrl, urls, responses) + (if Reached(responses, |responses|) then LogFor(baseUrl, url, r) else [])
    decreases |urls|
  {
    var us, rs := urls + [url], responses + [r];
    if urls == [] {
      assert us[1..] == [] && rs[1..] == [];
    } else {
      assert us[1..] == urls[1..] + [url] && rs[1..] == responses[1..] + [r];
      ExpectedLogSnoc(baseUrl, urls[1..], responses[1..], url, r);
      if !responses[0].OtherError? {
        assert Reached(responses, |responses|) <==> Reached(responses[1..], |responses[1..]|) by {
          if Reached(responses[1..], |responses[1..]|) {
            forall j | 0 <= j < |responses|
              ensures !responses[j].OtherError?
            {
              if j > 0 {
                assert responses[j] == responses[1..][j - 1];
              }
            }
          }
          if Reached(responses, |responses|) {
            forall j | 0 <= j < |responses[1..]|
              ensures !responses[1..][j].OtherError?
            {
              assert responses[1..][j] == responses[j + 1];
            }
          }
        }
      }
    }
  }

  /**
   * The log grows by the per-URL lines in URL order: access and download
   * lines for a success, one warning with the exception's text for a caught
   * failure, and nothing from the first uncaught exception on.
   */
  lemma {:induction false} LogFollowsUrlOrder(baseUrl: string, dir: string, urls: seq<string>, responses: seq<Response>,
                                              files: FileSystem, log: seq<LogEntry>)
    requires |responses| == |urls|
    ensures Run(baseUrl, dir, urls, responses, Batch(files, log, None)).log == log + ExpectedLog(baseUrl, urls, responses)
    decreases |urls|
  {
    if urls != [] {
      var n := |urls| - 1;
      LogFollowsUrlOrder(baseUrl, dir, urls[..n], responses[..n], files, log);
      EscapesOnlyOnUncaught(baseUrl, dir, urls[..n], responses[..n], files, log);
      ExpectedLogSnoc(baseUrl, urls[..n], responses[..n], urls[n], responses[n]);
      assert urls[..n] + [urls[n]] == urls && responses[..n] + [responses[n]] == responses;
      var prev := Run(baseUrl, dir, urls[..n], responses[..n], Batch(files, log, None));
      assert Run(baseUrl, dir, urls, responses, Batch(files, log, None)) == Step(baseUrl, dir, prev, urls[n], responses[n]);
    }
  }
}
