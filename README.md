# flickrstats in Dafny

A model of the core of flickrstats. This repository downloads daily photo statistics
from the Flickr API (`stats.getPopularPhotos`) for a range of dates and appends them to a
tab-separated CSV file, one row per photo and day. The model covers three files:

- **`api_handler.py`**: `_make_api_call`, one API call retried with capped exponential
  backoff, and `fetch_popular_photos_for_date`, which walks the result pages of one
  date and concatenates their photo lists.
- **`file_handler.py`**: `get_csv_filepath`, which names the output file after the
  range, and `write_to_csv`, which appends one date's rows to the file, writing the
  header first when the file does not exist yet.
- **`flickrGetDailyPhotoViews.py`**, the driver script:
  - `validate_date`;
  - its own retry loop `make_api_call_with_retry`;
  - the prompt loop that reads an acceptable start and end date;
  - the list of dates in the range;
  - the output file name;
  - the per-date loop, which asks for page 1 to learn the page count and then writes
    the rows of pages 1, 2, … to the file.

The Flickr service is an oracle `remote: (Request, nat) -> Outcome`. The value
`remote(req, n)` is what the n-th remote attempt of the run returns or raises when it
sends `req`. Any behaviour of the service within one run is some such function,
including transient failures and answers that change between attempts. Each loop of
the source is a Dafny method with that loop. The method is proved equal to a recursive
specification function (`CallSpec`, `RetrySpec`, `FetchSpec`, `PagesLoop`, `RunFrom`,
`PromptFrom`, `Days`). The promises of the source are lemmas about those functions.

Other modelling choices:

- Console input is the sequence of lines typed.
- The wall clock is a parameter `today`.
- `time.sleep` appends to a ghost log of sleeps.
- The file system is a map from path to the rows of the file at that path.

Modules, in dependency order:

| module | file | models |
|---|---|---|
| `Wrappers` | wrappers.dfy | Option, min/max |
| `Calendar` | calendar.dfy | the proleptic Gregorian calendar of Python's `datetime`: validity, order, ordinals, `+ timedelta(days=1)` |
| `DateFormat` | date_format.dfy | `strptime`/`strftime` with `'%Y-%m-%d'`, following CPython's `_strptime` patterns |
| `FlickrApi` | flickr_api.dfy | responses, errors, requests, the retry configuration, the backoff schedule |
| `FileHandler` | file_handler.dfy | `get_csv_filepath`, `write_to_csv`, the CSV columns |
| `ApiHandler` | api_handler.dfy | `_make_api_call`, `fetch_popular_photos_for_date` |
| `RetryRaise` | retry_raise.dfy | `make_api_call_with_retry` |
| `RangePrompt` | range_prompt.dfy | `validate_date`, the prompt loop |
| `DateRange` | date_range.dfy | the date list, as written and corrected |
| `DailyRun` | daily_run.dfy | the per-date loop and its page loop |
| `Session` | session.dfy | one run of the driver script, from the prompt to the final file system |

A page walk that is cut short, in `fetch_popular_photos_for_date` or in the driver's
loop, returns or writes the pages fetched so far, with no mark that the result is
partial. The model does the same.

A JSON key of a photo is absent, present with `null`, or present with a value
(`FlickrApi.Key`). The two readers treat these differently:

- `write_to_csv` reads with `.get`, so an absent key and a null one both give an empty field.
- The driver subscripts the keys, so an absent key raises KeyError and a null `stats` raises TypeError.
- A null `stats` makes the `.get` chain of `write_to_csv` raise AttributeError.

## Model

| member | source | states |
|---|---|---|
| FlickrApi.DelayClosedForm | api_handler.py:37-74 | the delay before the (i+1)-th retry is min(INITIAL_RETRY_DELAY·2^i, MAX_RETRY_DELAY) |
| FlickrApi.DelayMonotone | api_handler.py:60-61 | successive delays never shrink and never exceed MAX_RETRY_DELAY |
| FlickrApi.DefaultDelays | config.py:10-12 | with INITIAL_RETRY_DELAY = 2 and MAX_RETRY_DELAY = 60 the first two delays are 2 s and 4 s |
| ApiHandler.MakeApiCall | api_handler.py:23-78 | the retry loop's response, attempts and sleeps are those of the recursive specification `CallSpec`; at most MAX_RETRIES attempts |
| ApiHandler.CallFromShape | api_handler.py:37-78 | from any iteration the loop makes between `attempt` and MAX_RETRIES attempts, all but the last a retried failure followed by one sleep of the scheduled delay; it returns the last response exactly when that response is a dict with `stat` "ok" |
| ApiHandler.CallSpecShape | api_handler.py:23-78 | one call attempts at most MAX_RETRIES times and takes one sleep after every attempt but the last, the j-th lasting `Delay(j)`; it returns a response exactly when the last attempt returned a dict with `stat` "ok"; a retryable failure ends it only once the attempts are used up; MAX_RETRIES = 0 gives None without an attempt |
| ApiHandler.CallSpecUsed | api_handler.py:38 | a call never makes more than MAX_RETRIES attempts |
| ApiHandler.DefaultSleeps | config.py:10-12 | under MAX_RETRIES = 3, INITIAL_RETRY_DELAY = 2 and MAX_RETRY_DELAY = 60, one call sleeps at most twice, 2 s and then 4 s |
| ApiHandler.NotRetryableEndsAtOnce | api_handler.py:45-67 | a first attempt that succeeds, returns a malformed response or raises a Flickr error other than a rate limit ends the call after one attempt and no sleep |
| ApiHandler.SleepsAreCappedDoubling | api_handler.py:55-74 | every sleep is min(initial·2^j, max), bounded by the cap, and no sleep is shorter than the one before |
| ApiHandler.FetchPopularPhotosForDate | api_handler.py:81-129 | the method's photos, calls, attempts and sleeps are those of the recursive specification `FetchSpec` |
| ApiHandler.FetchPages | api_handler.py:117-127 | the page loop from page 2 to `pages` equals the recursive page-loop specification `PagesFrom`, the break included |
| ApiHandler.FetchShape | api_handler.py:99-118 | page 1 is asked for first, then pages 2, 3, … in order; the result is None exactly when the first response lacks `photos`; it is [] when `total` is 0; in both cases after one call |
| ApiHandler.FetchPhotos | api_handler.py:114-129 | the result is page 1's photos followed by those of later pages in order; at most `pages` calls; an early stop only right after a page without a photo list |
| ApiHandler.FetchUsed | api_handler.py:100-121 | the fetch makes at most MAX_RETRIES attempts per page it asks for |
| ApiHandler.PagesFromCount | api_handler.py:118 | the page loop keeps the earlier calls and makes at most one call per page |
| ApiHandler.PagesFromPages | api_handler.py:118-121 | the loop's calls ask for consecutive pages |
| ApiHandler.PagesFromGoesOn | api_handler.py:123-127 | every call of the loop but its last got a photo list |
| ApiHandler.PagesFromStopsEarly | api_handler.py:125-127 | a loop that ends before its last page ends right after a response without a photo list |
| ApiHandler.PagesFromPhotos | api_handler.py:123-124 | the accumulated photos are those of the calls, in call order |
| ApiHandler.PagesFromUsed | api_handler.py:118-121 | a loop whose calls take at most m attempts each takes at most m per call |
| RetryRaise.MakeApiCallWithRetry | flickrGetDailyPhotoViews.py:59-106 | the loop's result, attempts and sleeps are those of the recursive specification `RetrySpec` |
| RetryRaise.SameAttemptsAsCallFrom | flickrGetDailyPhotoViews.py:71-104 | the driver's retry loop makes the same attempts and sleeps as `_make_api_call`; `_make_api_call` has a response exactly when this loop returned a dict with `stat` "ok", and then it is the same value |
| RetryRaise.RetrySpecShape | flickrGetDailyPhotoViews.py:59-106 | at most MAX_RETRIES attempts, all but the last retried with one sleep each of the scheduled delay; the last attempt's value is returned unchecked; a failure on the last attempt, or a non-rate-limit Flickr error, raises; the final `return None` is reached only when MAX_RETRIES = 0 |
| RetryRaise.LastOutcome | flickrGetDailyPhotoViews.py:73-106 | from any iteration the loop returns exactly what its last attempt returned, and runs out only when no attempt is left |
| DateFormat.ParseDate | flickrGetDailyPhotoViews.py:53 | `strptime(s, '%Y-%m-%d')`: whenever it gives a date, that date is a valid calendar date |
| DateFormat.FormatDate | flickrGetDailyPhotoViews.py:144 | `strftime('%Y-%m-%d')`: ten characters with '-' at positions 4 and 7 |
| DateFormat.ParseFormatDate | flickrGetDailyPhotoViews.py:53 | parsing a rendered `YYYY-MM-DD` gives back the date exactly when it is a calendar date, and fails otherwise |
| Calendar.Succ | flickrGetDailyPhotoViews.py:145 | the day after a date other than 9999-12-31 is a valid date one ordinal later, and after it |
| Calendar.OrderIsOrdinalOrder | flickrGetDailyPhotoViews.py:124 | Python's field-by-field date order is the order of ordinals |
| Calendar.SuccIsNext | flickrGetDailyPhotoViews.py:145 | no date lies strictly between a date and the next day |
| Calendar.MaxDateIsLast | flickrGetDailyPhotoViews.py:145 | 9999-12-31 is the only date without a successor |
| RangePrompt.ValidateDate | flickrGetDailyPhotoViews.py:42-56 | a string `validate_date` accepts parses to a valid calendar date |
| RangePrompt.ValidateFormatted | flickrGetDailyPhotoViews.py:42-56 | `validate_date` accepts a rendered `YYYY-MM-DD` exactly when it names a calendar date |
| RangePrompt.ValidatedShape | flickrGetDailyPhotoViews.py:42-56 | an accepted string is 8 to 10 characters of digits, '-' and ' ', holds no '_', and parses to a valid date |
| RangePrompt.PromptFrom | flickrGetDailyPhotoViews.py:109-138 | an accepted range has valid dates, the end not before the start |
| RangePrompt.PromptRange | flickrGetDailyPhotoViews.py:109-138 | the prompt loop returns what the recursive specification `PromptFrom` accepts |
| RangePrompt.PromptAccepts | flickrGetDailyPhotoViews.py:109-138 | an accepted range is two consecutive input lines that `validate_date` accepts, parsed to its dates, the end not before the start; when either date is after today the next line confirmed it |
| RangePrompt.PromptAcceptsFirstGoodPair | flickrGetDailyPhotoViews.py:109-138 | two valid, ordered, non-future dates typed first are accepted at once, as typed |
| DateRange.Days | flickrGetDailyPhotoViews.py:141-145 | every date listed is valid |
| DateRange.DaysOrdinals | flickrGetDailyPhotoViews.py:141-145 | the i-th listed date is the start date plus i days; there are `(end - start).days + 1` of them |
| DateRange.DaysShape | flickrGetDailyPhotoViews.py:141-145 | the list runs from the start date to the end date; each date is the successor of the one before; the dates ascend strictly; every date between the two is listed; the list is empty exactly when the end is before the start |
| DateRange.EnumerateAsWritten | flickrGetDailyPhotoViews.py:141-145 | the loop as written fails exactly when the range ends on 9999-12-31; otherwise it lists the rendered dates of `Days` |
| DateRange.Enumerate | flickrGetDailyPhotoViews.py:141-145 | the corrected loop lists the rendered dates of `Days` on every range |
| DateRange.AsWrittenExit | flickrGetDailyPhotoViews.py:143 | where the loop as written exits normally, it has listed every date and the range does not end on 9999-12-31 |
| FileHandler.HeaderRow | config.py:19-27 | the header row is CSV_COLUMNS, seven fields |
| FileHandler.PhotoRow | file_handler.py:57-65 | for a photo whose `stats` is not null, the row has one field per column: the date, then id, title, views, favorites, secret and server; an absent or null key is an empty field; a photo without `stats` has neither views nor favorites |
| FileHandler.ReadablePrefix | file_handler.py:56-70 | the photos written are those before the first photo whose `stats` is null, where `.get` raises AttributeError |
| FileHandler.WriteToCsv | file_handler.py:34-71 | afterwards the file exists and keeps what it held; it gets CSV_COLUMNS first exactly when it did not exist; then one row per photo, in order, up to the first photo with a null `stats` |
| FileHandler.CsvFilepath | file_handler.py:17-31 | the name is "flickr_stats_", then `<start>.csv` when the two strings are equal and `<start>_to_<end>.csv` otherwise |
| FileHandler.FilepathInjective | file_handler.py:17-31 | for dates free of '_', the file name determines the start and end strings: the single-date and range forms never coincide |
| DailyRun.CompletePrefixIsFirstIncomplete | flickrGetDailyPhotoViews.py:196-203 | all photos before the stopping point have every key the driver subscripts and a `stats` object; the photo at that point lacks a key or has a null `stats` |
| DailyRun.DriverRowIsPhotoRow | flickrGetDailyPhotoViews.py:197-203 | for a complete photo the driver's row is the row `write_to_csv` builds; it has seven fields, the date first; a field is empty exactly where the photo holds null |
| DailyRun.WritePageRows | flickrGetDailyPhotoViews.py:196-203 | the page's rows are appended in order up to the first photo that raises KeyError or TypeError; `finished` holds exactly when no photo raised |
| DailyRun.WritePage | flickrGetDailyPhotoViews.py:189-205 | one page: the call's result and attempts, the rows it writes, and whether the loop goes on (a usable page with every photo written) |
| DailyRun.WritePages | flickrGetDailyPhotoViews.py:187-205 | the page loop equals the recursive specification `PagesLoop`, and the rows it appends are those of its calls, in call order |
| DailyRun.ProcessDate | flickrGetDailyPhotoViews.py:159-211 | one date as the recursive specification `DateSpec` describes it: the file and the header flag change only when the date gets past its first call, and then by `ApplyDate` |
| DailyRun.PagesLoopFetches | flickrGetDailyPhotoViews.py:187-205 | the page loop keeps earlier calls, makes at most one call per remaining page, and never uses fewer attempts |
| DailyRun.PagesLoopPages | flickrGetDailyPhotoViews.py:187-205 | the page loop asks for consecutive pages, and every call but the last went on |
| DailyRun.PagesLoopPageAt | flickrGetDailyPhotoViews.py:189-205 | the i-th new call asked for page `page + i` |
| DailyRun.PagesLoopGoesOnAt | flickrGetDailyPhotoViews.py:192-205 | every new call except the last went on |
| DailyRun.PagesLoopStopsEarly | flickrGetDailyPhotoViews.py:192-203 | a loop that ends before its last page ends on a page that failed, raised, or held a photo with a missing key or a null `stats` |
| DailyRun.FetchRowsComplete | flickrGetDailyPhotoViews.py:196-203 | every row the driver writes is full: seven fields, the date first, the row of line 203 for a photo that has every key it subscripts |
| DailyRun.DateSpecShape | flickrGetDailyPhotoViews.py:168-205 | a date is skipped exactly when its first call gives no response with `photos.total` and `photos.pages`; otherwise the first call is followed by calls for pages 1, 2, …, so page 1 is asked for twice; at most one call per page; the first response's photos are not written; the rows come from the later calls in order; an early stop only on a page that did not go on |
| DailyRun.DatesSpec | flickrGetDailyPhotoViews.py:159 | one outcome per date |
| DailyRun.ProcessDates | flickrGetDailyPhotoViews.py:157-211 | the per-date loop's file, attempts and outcomes are those of the recursive specification `RunFrom` |
| DailyRun.RunFromOutcomes | flickrGetDailyPhotoViews.py:159-211 | the dates are run in turn, each from the attempt index the earlier dates left |
| DailyRun.RunFromFile | flickrGetDailyPhotoViews.py:157-185 | the file afterwards is `FileAfter` of the outcomes, and the header flag ends up true exactly when the file exists |
| DailyRun.FileAfterCons | flickrGetDailyPhotoViews.py:179-185 | after a date is applied, the rest of the run goes on from the file and header flag that date left |
| DailyRun.RunShape | flickrGetDailyPhotoViews.py:157-211 | the file is untouched unless some date was processed; then it holds what it held, the header row if it did not exist, and the processed dates' rows in order; one outcome per date |
| DailyRun.RunRowsAreFull | flickrGetDailyPhotoViews.py:159-203 | when each date writes only its own full rows, every row of the run is a full row of one of the dates |
| DailyRun.DateRowsAreFull | flickrGetDailyPhotoViews.py:196-203 | every row a date writes is a full row of that date |
| DailyRun.OutcomeRowsAreFull | flickrGetDailyPhotoViews.py:159-203 | every row the run writes is a full row of one of its dates |
| Session.RunSession | flickrGetDailyPhotoViews.py:109-213 | one run of the script is `SessionSpec`: the prompt, the date list as the loop of lines 141-145 builds it, the file name, and the per-date loop |
| Session.SessionOverflow | flickrGetDailyPhotoViews.py:109-145 | a run ends with EOFError exactly when the prompt gets no range; it ends with OverflowError, touching no file, exactly when the accepted range ends on 9999-12-31; otherwise it processes the accepted range |
| Session.LastDayOverflows | flickrGetDailyPhotoViews.py:143-145 | typing 9999-12-31 twice and confirming ends the run in OverflowError |
| Session.FullRowIsNotHeader | flickrGetDailyPhotoViews.py:183-184 | no data row is the header row, since its first field is a ten-character date |
| Session.RunFileRows | flickrGetDailyPhotoViews.py:157-211 | the run creates the file only when some date was processed; earlier rows stay in front; a new file starts with the header; every later row is a full row of one of the dates, never the header |
| Session.SessionFiles | flickrGetDailyPhotoViews.py:150-211 | a run writes only the output file; an existing file keeps its rows and gets no second header; a new file has the header exactly once, first; every other row is a full row of one of the range's dates |
| Session.SessionPath | flickrGetDailyPhotoViews.py:150-155 | the output file is named after the two dates as typed, and no other pair of accepted date strings gives that name; the run processes the rendered dates of the range, `(end - start).days + 1` of them |

## Left out

- Console output: `print`, the `ui` module and every progress or warning message are left out. They do not change any state the model keeps.
- Authentication (`flickr_auth.get_authenticated_client`) is left out. So is the `getattr` walk that turns "stats.getPopularPhotos" into a bound method. The model has one remote call, asked for with a `Request`.
- Timing: `time.sleep` is a ghost log of the delays. Nothing waits. The driver's per-date loop discards its calls' sleep logs.
- Wall clock and input: `datetime.now().date()` is the parameter `today`. Running out of console input, which is EOFError in Python, is `None` from the prompt and `InputEnded` for the run.
- CSV encoding: tab delimiter, quoting, newlines and UTF-8 are left out. A row is its sequence of fields; Python's None is an empty field.
- File system errors are left out: `open` failing, and the IOError branch of `write_to_csv` (file_handler.py:68-71). So is any write that lands only in part.
- Envelope key types. `pages` and `total` are integers or absent, and `photos` and `photo` are absent or hold a value. Four cases are not modelled:
  - a non-integer `pages` or `total`;
  - a null `pages` or `total`;
  - a null `photos`;
  - a null `photo`.
- DateFormat.FormatDate: pads years below 1000 to four digits. CPython passes `%Y` to the C library's `strftime`, and on glibc some CPython releases write such a year without padding.
- RangePrompt.ValidateDate: accepts ASCII digits only; `strptime` also accepts other Unicode decimal digits.
- Library helpers: `fetch_popular_photos_for_date` and `write_to_csv` are modelled, but the driver script does not call them, and the model does not either.
- The other scripts of the repository are not part of this model: `flickrDailyStats.py`, `flickrGetTotalPhotoViews.py`, `flickrGetTotalViews.py`, `iterateDates.py`, `flickscrap.py` and `flickrtest2.py`.

## Findings

| source | as written | input that shows it | evidently intended | confidence | as-written member | corrected member |
|---|---|---|---|---|---|---|
| flickrGetDailyPhotoViews.py:143-145 | after appending the end date the loop adds one more day before it tests `current_date_dt <= end_date_dt` | any range that ends on 9999-12-31, e.g. start and end both 9999-12-31: `datetime + timedelta(days=1)` raises OverflowError, and nothing after line 145 runs | list every date from the start to the end inclusive, then go on | not executed | DateRange.EnumerateAsWritten | DateRange.Enumerate |
