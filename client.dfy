/**
 * `get_DERA`: look the dataset up, build its session, resolve the quarter
 * range into URLs and hand them to the download loop.
 */
module Client {
  import opened Common
  import opened Calendar
  import Resolver
  import opened Downloader

  /** What `get_DERA` can raise: the table lookup's `KeyError`, or an exception `_get` let through. */
  datatype Raised = KeyError(key: string) | Uncaught(err: string)

  /**
   * The whole call, from parsed dates on. `today` stands for `date.today()`,
   * and `endDate == None` for a falsy `end_date`.
   */
  method GetDera(dataset: string, dir: string, startDate: Date, endDate: Option<Date>, today: Date,
                 chunkSize: nat, timeout: nat, retry: nat, delay: nat,
                 responses: seq<Response>, files: FileSystem, log: seq<LogEntry>)
    returns (files': FileSystem, log': seq<LogEntry>, raised: Option<Raised>)
    requires |responses| == |Resolver.Tokens(startDate, Resolver.EndDate(endDate, today))|
    ensures Resolver.LookupDataset(dataset).None? ==>
      files' == files && log' == log && raised == Some(KeyError(dataset))
    ensures Resolver.LookupDataset(dataset).Some? ==>
      var k := Resolver.LookupDataset(dataset).value;
      var urls := Resolver.Urls(k, startDate, Resolver.EndDate(endDate, today));
      var r := Run(Resolver.BaseUrl(k), dir, urls, responses, Batch(files, log, None));
      && files' == r.files && log' == r.log
      && raised == (if r.raised.Some? then Some(Uncaught(r.raised.value)) else None)
  {
    var kind := Resolver.LookupDataset(dataset);
    if kind.None? {
      return files, log, Some(KeyError(dataset));
    }
    var k := kind.value;
    var session := new Session(Resolver.BaseUrl(k));
    session.raiseForStatus := true;
    var end := Resolver.EndDate(endDate, today);
    var urls := Resolver.Urls(k, startDate, end);
    var escaped;
    files', log', escaped := Get(urls, dir, session, chunkSize, timeout, retry, delay, responses, files, log);
    raised := if escaped.Some? then Some(Uncaught(escaped.value)) else None;
  }

  /**
   * Every quarter whose fetch succeeded, before any uncaught exception, ends
   * up in its own file `dir/{year}q{n}{suffix}` holding exactly that
   * response's chunks, whatever happened to the other quarters.
   */
  lemma SuccessfulQuarterIsSaved(k: Resolver.Dataset, dir: string, startDate: Date, endDate: Date,
                                 responses: seq<Response>, files: FileSystem, log: seq<LogEntry>, i: nat)
    requires |responses| == |Resolver.Urls(k, startDate, endDate)| && i < |responses|
    requires Reached(responses, i + 1) && responses[i].Ok?
    ensures var urls := Resolver.Urls(k, startDate, endDate);
      var r := Run(Resolver.BaseUrl(k), dir, urls, responses, Batch(files, log, None));
      var path := JoinPath(dir, Resolver.Token(Resolver.Periods(startDate, endDate)[i]) + Resolver.FilenameExt(k));
      path in r.files && r.files[path] == Concat(responses[i].chunks)
  {
    var urls := Resolver.Urls(k, startDate, endDate);
    Resolver.UrlsDistinct(k, startDate, endDate);
    Resolver.UrlsMatchPeriods(k, startDate, endDate);
    SavedFileHoldsChunks(Resolver.BaseUrl(k), dir, urls, responses, files, log, i);
  }
}
