# getdera client: quarter-range resolver and batch downloader

This project is a Dafny model of `getdera/scrapper/client.py`. That module downloads the SEC's DERA
zip-file datasets, either "statements" (Financial Statements and Notes) or "risk"
(Mutual Fund Prospectus Risk and Return Summary), for every calendar quarter between two dates.

The model has two parts:

- **The quarter-range resolver** is the date and URL arithmetic inside `get_DERA`. Each bound is
  moved to a quarter end with pandas' anchored `QuarterEnd` offset. Every quarter end between the
  two is enumerated (`date_range(..., freq='Q')`). Each one becomes a `{year}q{n}` token, and the
  dataset's filename suffix (`_notes.zip` or `_rr1.zip`) is appended to make the URL.
  All of this is pure functions and lemmas (`Calendar`, `Resolver`, with helpers in `Strings`).
- **The batch downloader** is `_get` with its helper `_save_content`, plus the urllib3 `Retry`
  policy that `_get` mounts on the session. It is imperative: a `Session` class whose adapter and
  `verify` flag `_get` changes, a `while` loop over the URLs (`FetchAll`), and a `for` loop that
  appends chunks to the file (`SaveContent`). Each method is proved against the specification
  function `Run`, and the listed properties are lemmas about `Run` (`Downloader`). The retry
  policy is an attempt counter (`Retry`). `Client.GetDera` composes the two parts.

Outside effects are parameters:

- **The network.** `responses[i]` is what `session.get(urls[i], stream=True)` did: `Ok(chunks)`,
  `MaxRetryError`, `HttpError`, `SslError` or any other exception. Each failure carries its text.
- **The clock.** `today` stands for `date.today()`. `endDate == None` stands for a falsy
  `end_date`.
- **The filesystem.** It is a `map` from path to bytes.
- **The log.** It is a sequence of `(level, message)` entries.

## Code and docstring

On dates that are the last day of a quarter, the code and the `get_DERA` docstring (lines 186-198)
disagree. The model follows the code.

- **Start date.** The docstring says the start date's quarter is included "even if start_date is
  after the start of the quarter". But `+ pd.offsets.QuarterEnd()` moves a date that already is a
  quarter end on to the *next* quarter end. So a start of 31-03-2021 begins at `2021q2`
  (`Resolver.QuarterEndStartExample`, `Resolver.QuarterEndBoundsMoveOneQuarterLater`).
- **End date.** Likewise, an end date on a quarter's last day also fetches the following quarter.
- **Start after end.** When the start date is after the end date, nothing is raised. The list is
  empty exactly when the start's rolled-forward quarter end is after the end's
  (`Resolver.EmptyExactlyWhenRolledStartIsLater`). So a start after the end *within one quarter*
  still gives that quarter's single token (`Resolver.SameQuarterGivesOneToken` has no order
  requirement).
- **Inclusion of both quarters.** The docstring's promise holds for dates that are not a quarter's
  last day (`Resolver.MidQuarterDatesKeepTheirQuarters`).

## Model

| member | source | states |
|---|---|---|
| `Resolver.LookupDataset` | getdera/scrapper/client.py:226-231 | only "statements" and "risk" select a dataset; any other name is the KeyError of the table lookup |
| `Resolver.FilenameExt` | getdera/scrapper/client.py:252 | splitting the dataset's filename pattern at `_` and keeping piece 1 gives `_notes.zip` for statements and `_rr1.zip` for risk |
| `Calendar.QuarterEnd` | getdera/scrapper/client.py:247 | the last day of a quarter is a valid date that lies in that quarter |
| `Calendar.RollForwardIsFirstQuarterEndAfter` | getdera/scrapper/client.py:247 | adding the QuarterEnd offset gives a quarter end strictly after the date, and a quarter end is after the date exactly when it is not before that result, so it is the first one |
| `Calendar.DateRangeIsQuarterEndsBetween` | getdera/scrapper/client.py:247-248 | `date_range` with quarterly frequency yields quarter ends only, one quarter apart, strictly increasing, and contains exactly the quarter ends between its bounds |
| `Resolver.PeriodsAreConsecutiveQuarters` | getdera/scrapper/client.py:246-248 | the periods run from the start's rolled quarter to the end's, one quarter apart, strictly increasing (no duplicates), with every quarter in between |
| `Resolver.MidQuarterDatesKeepTheirQuarters` | getdera/scrapper/client.py:186-198 | for bounds that are not a quarter's last day and not in reverse order, the first period is the start's quarter, the last is the end's, and the periods are exactly the quarters between |
| `Resolver.SameQuarterGivesOneToken` | getdera/scrapper/client.py:246-250 | two dates inside one quarter (neither its last day) give exactly that quarter's token |
| `Resolver.EmptyExactlyWhenRolledStartIsLater` | getdera/scrapper/client.py:246-248 | the token list is empty, with no error, exactly when the start's rolled-forward quarter end comes after the end's |
| `Resolver.QuarterEndBoundsMoveOneQuarterLater` | getdera/scrapper/client.py:247 | a start on a quarter's last day begins with the next quarter and omits its own; an end on a quarter's last day ends with the next quarter |
| `Resolver.TokenRoundTrip` | getdera/scrapper/client.py:249 | a `{year}q{n}` token is well formed and reads back as the quarter it was made from |
| `Resolver.TokensNameTheirQuarterEnds` | getdera/scrapper/client.py:247-250 | each token is well formed and names the quarter that ends on the corresponding enumerated quarter-end date |
| `Resolver.UrlsMatchPeriods` | getdera/scrapper/client.py:252-255 | there is one URL per period, in the same order, each the period's token followed by the dataset suffix, and each reads back as its period |
| `Resolver.UrlsDistinct` | getdera/scrapper/client.py:252-255 | no two URLs of a batch are equal |
| `Resolver.DocumentedRangeExample` | getdera/scrapper/client.py:246-255 | statements from 01-01-2021 to 15-04-2021 resolve to `2021q1_notes.zip` and `2021q2_notes.zip` |
| `Resolver.QuarterEndStartExample` | getdera/scrapper/client.py:247-250 | a start of 31-03-2021 with an end of 15-04-2021 gives only `2021q2` |
| `Strings.JoinSplit` | getdera/scrapper/client.py:252 | `split` on a separator loses nothing: joining the pieces restores the string |
| `Retry.RetryStrategy` | getdera/scrapper/client.py:134-142 | the policy's budget is `retry`, its backoff factor is `delay`, a GET status is retryable exactly when it is 429, 500, 502, 503 or 504, and no other method's status is retried |
| `Retry.AttemptBudget` | getdera/scrapper/client.py:104-111 | one request makes between 1 and `retry + 1` attempts, and before its k-th retry it sleeps `delay * 2^(k-1)` seconds |
| `Retry.ExhaustedIff` | getdera/scrapper/client.py:134-142 | a request gives up exactly when every attempt the budget allows calls for a retry |
| `Retry.FinalIsFirstNonRetryable` | getdera/scrapper/client.py:134-142 | a final response comes from the first attempt that does not call for a retry, and every earlier attempt did |
| `Retry.OnlyGetIsRetried` | getdera/scrapper/client.py:141 | for a method other than GET, the first response is final after one attempt |
| `Retry.AlwaysUnavailable` | getdera/scrapper/client.py:209-216 | a server that keeps answering 503, with two retries allowed: three attempts, sleeping `delay` and then `2 * delay` |
| `Downloader.Session.constructor` | getdera/scrapper/client.py:227 | a new session has the given base URL, no adapter mounted and verification on |
| `Downloader.Session.Mount` | getdera/scrapper/client.py:143-144 | mounting sets the https adapter and leaves the other settings alone |
| `Downloader.SaveContent` | getdera/scrapper/client.py:124-132 | the file at the path ends up holding the chunks concatenated in order, no other path changes, and the download is logged |
| `Downloader.FetchAll` | getdera/scrapper/client.py:146-162 | the loop's files, log and escaping exception are those of `Run` over the URLs in list order |
| `Downloader.Get` | getdera/scrapper/client.py:134-162 | the session gets the retrying adapter with the timeout and has verification turned off; then the batch runs as `Run` says |
| `Downloader.RaisedStaysRaised` | getdera/scrapper/client.py:146-157 | after an uncaught exception, the remaining URLs change nothing |
| `Downloader.EscapesOnlyOnUncaught` | getdera/scrapper/client.py:146-157 | `_get` returns normally exactly when no fetch raised an uncaught exception; otherwise the exception that escapes is the first one, and every exception before it was a caught kind |
| `Downloader.OnlyFetchedPathsChange` | getdera/scrapper/client.py:158-162 | a path no reached successful fetch wrote to keeps its presence and contents; a path one wrote to exists afterwards |
| `Downloader.SavedFileHoldsChunks` | getdera/scrapper/client.py:124-127 | after a reached successful fetch of a URL not requested again, `dir/url` holds exactly that response's chunks in order |
| `Downloader.LogFollowsUrlOrder` | getdera/scrapper/client.py:146-162 | the log grows URL by URL in list order: access and download lines for a success, one warning with the error's text for a caught failure, nothing from the first uncaught exception on |
| `Downloader.AllSucceedWritesEveryPath` | getdera/scrapper/client.py:158-162 | when every fetch succeeds, nothing escapes, every URL's path exists, and paths no URL maps to are untouched |
| `Downloader.MiddleFailureKeepsOthers` | getdera/scrapper/client.py:146-162 | of three URLs whose middle one fails with an SSL error, exactly the first and third files are written and the call returns normally |
| `Downloader.JoinPathInjective` | getdera/scrapper/client.py:161 | different URLs are saved under different paths of the same directory |
| `Client.GetDera` | getdera/scrapper/client.py:225-258 | an unknown dataset raises KeyError and changes nothing; otherwise the files, log and escaping exception are those of the download loop over the resolved URLs, with today's date standing in for a falsy end date |
| `Client.SuccessfulQuarterIsSaved` | getdera/scrapper/client.py:246-258 | every quarter whose fetch succeeded before any uncaught exception is saved in its own file `dir/{year}q{n}{suffix}` holding exactly that response's chunks |

## Left out

- Logger setup (lines 31-43) is process-wide file-handler configuration. Logging is modelled as an appended sequence of `(level, message)` entries. Timestamps and formatting are left out.
- Parsing date strings with `dateutil.parser.parse`, `strftime('%d-%m-%Y')` and `pd.to_datetime` (lines 234-246) is foreign-library behaviour, and its day/month reading depends on library defaults. The model starts from parsed calendar dates.
- pandas' supported timestamp range (roughly years 1677 to 2262) is not modelled. Years are unbounded naturals, and `%Y` renders them without zero padding.
- `_TimeoutHTTPAdapter` (lines 64-75) is reduced to a record of the retry policy and timeout it is built with.
- Real HTTP and TLS are left out: `session.get`, the `raise_for_status` hook (kept only as a flag on the session), certificate handling (`verify = False` is a flag; `path_to_cert` and `PATH_TO_CERT` are unused by the code) and the base-URL join of the session. Each fetch is an oracle outcome. Which exception the HTTP stack raises in a given situation (for example, whether urllib3's `MaxRetryError` reaches `_get` unwrapped) is part of that oracle. The link from the retry policy's verdict to the outcome is not modelled.
- Sleeping, timeouts and wall-clock time are left out. urllib3 computes and caps the backoff itself, and its other counters (connect, read, redirect, `Retry-After`) are not modelled. The model states only the docstring's sleep formula and the attempt bound, as a function over the result of each attempt. A connect timeout is treated as retryable.
- A connection failing partway through the stream, and errors while writing, are not modelled. Chunk boundaries come from the oracle, so `chunk_size` does not constrain them.
- `os.path.isfile` (line 129) is a membership test on the filesystem map. It always holds after the write, so the "not found" warning is never produced.
- There is no concurrency in the source, and none in the model.
- Downloader.SavedFileHoldsChunks: requires that the URL is not requested again later in the batch, which the resolver guarantees (`Resolver.UrlsDistinct`). With a repeated URL, the last successful write wins, and the lemma does not state that case.
