# pixivrank core, modelled in Dafny

pixivrank fetches the monthly, weekly and daily illustration rankings of Pixiv.
For each ranking it keeps the top ten items, normalises each one into a record,
and writes the result as a dated snapshot. It also keeps a newest-first index of
the snapshot dates. This project models the parts of `main.py` that carry the
logic and proves properties about them:

- **Retry** — `empty_retry`, which calls an operation again until it returns a
  truthy value, at most `times + 1` calls in all.
- **Client** — the `PixivBase` session as a class whose fields are its
  configuration (interval, timeout, retry count, fronting flag). It also covers
  the domain-fronting rewrite of `PixivBase.request` with the `PIXIV_HOSTS`
  table, and `XSession.request`, which never raises on a transport failure.
- **Envelope** — the two response validators, `_check_response` (shape A,
  `{error, message/msg, body}`) and `_check_response2` (shape B, the object
  itself). Each one returns the `{}` sentinel on failure.
- **Reconstruct** — `get_original_imgurls`. It pulls the publish timestamp out
  of the listing URL, fills in the three derivative URL templates per page, and
  sends HEAD probes for jpg, png and gif to pick the original's extension.
- **Aggregate** — `get_top10_details`, which turns a ranking window into a
  snapshot, with Python's exceptions modelled as `Err` outcomes.
- **Index** — the index merge of the entry point. Dates are gathered in a set,
  joined with the old lines, sorted in descending order and joined by newlines.

Common modules:

- **Common** — `Option`, `Result`, the Python exceptions, and `Collect` (a loop
  that stops at the first exception).
- **Json** — decoded JSON values, truthiness, `x[key]`, `int()` and `str()`.
- **Http** — split URLs, requests, responses and the transport's outcomes.

The network appears only as oracles passed in as parameters:

- `transport` says what sending a request does.
- `head` gives the status of a HEAD probe.
- `Origin` holds what the retried endpoint getters finally return: the payload
  their validator gave on the last attempt, or the exception it raised.
- `op(i)` is the result of call `i` of a retried operation.

Time is measured in hundredths of a second, so the 0.01 s minimum of `interval`
is the integer 1.

Two behaviours of the code are easy to misread from its comments and names:

- An item whose detail fetch fails is not skipped. The getter returns the `{}`
  sentinel, the record literal's `illust_info["illustId"]` (main.py:713) raises
  KeyError on it, and that ends the whole run (`Aggregate.FailedDetailRaises`,
  `Aggregate.FailedDetailAbortsRun`).
- The example in the docstring of `PixivBase.__init__` (main.py:247) gives
  210.140.131.210 as the fronted address of www.pixiv.net, but the table entry
  that is used (main.py:137) is 210.140.92.186 (`Client.FrontingWwwExample`).

## Model

| member | source | states |
|---|---|---|
| Retry.StopIndex | main.py:29-37 | the call the combinator stops at: every earlier call was falsy, and this one is truthy or is call `times` |
| Retry.EmptyRetry | main.py:19-46 | makes exactly StopIndex + 1 calls and returns the result of the last one: the first truthy result, or the last falsy one |
| Retry.StopsAtFirstNonEmpty | main.py:29-37 | if calls 0..k-1 are falsy and call k (k <= times) is truthy, the combinator stops at k |
| Retry.AllEmptyUsesEveryAttempt | main.py:29-44 | if every result is falsy, all times + 1 calls are made and the falsy last result is returned |
| Retry.RetryResult | main.py:29-44 | the value the decorated function returns: the result of the call the loop stops at |
| Retry.InnerCallsUpTo | main.py:19-46 | the underlying calls spent by outer attempts from..upto of a doubly retried operation |
| Retry.NestedCalls | main.py:19-46 | the underlying calls of a retried operation retried again, up to the outer stop |
| Retry.InnerCallsAllEmpty | main.py:19-46 | with all results falsy, each outer attempt from..upto spends inner + 1 underlying calls |
| Retry.NestedAllEmpty | main.py:19-46 | when every result is falsy, a retried operation retried again makes (outer + 1) * (inner + 1) underlying calls |
| Common.Collect | main.py:701-722 | a loop that appends f of each element in order and stops at the first exception; also the tags comprehension (main.py:719) |
| Common.CollectOk | main.py:701-722 | an appending loop whose body may raise succeeds iff every element succeeds; it then keeps length and order |
| Common.CollectFirstError | main.py:701-722 | a failing loop raises the exception of its first failing element, and every element before it succeeded |
| Common.CollectSnoc | main.py:701-722 | one more iteration appends the element's value, or ends in that element's exception |
| Common.CollectStep | main.py:701-722 | one iteration of the appending loop: on success the prefix result grows by that element, on failure the whole loop ends in its exception |
| Common.CollectAppendErr | main.py:701-722 | once a prefix has raised, the elements after it are never evaluated |
| Json.Get | main.py:703 | `j[key]` succeeds exactly on a dict holding key and returns that key's value; otherwise it raises KeyError(key) on a dict and TypeError on anything else |
| Json.Truthy | main.py:36 | Python truthiness of a decoded value: null, false, 0, "" and empty lists and dicts are falsy (also main.py:708) |
| Json.ParseInt | main.py:710 | `int()` of a string: an optional sign and decimal digits, ValueError otherwise |
| Json.PyInt | main.py:710 | `int()` of a decoded value: numbers as they are, booleans as 0 or 1, strings through ParseInt, TypeError for null, lists and dicts |
| Json.Str | main.py:658 | `str()` of a scalar as the f-strings render the id: None, True or False, the decimal digits of a number, a string as it is |
| Json.NatToString | main.py:658 | the decimal rendering of a page number is a non-empty string of digits, one digit exactly below 10 |
| Json.DigitsOfNat | main.py:658 | reading the digits of a rendered number back gives the number |
| Json.ParseUnsigned | main.py:710 | `int()` of a non-empty digit string is its decimal value |
| Json.ParseNegative | main.py:710 | `int()` of "-" and a non-empty digit string is minus its decimal value |
| Json.NatToStringInjective | main.py:656-663 | different page numbers render differently |
| Json.PyIntOfRendered | main.py:710 | `int()` of the decimal string of any integer, negative included, gives that integer back |
| Envelope.CheckA | main.py:200-218 | `_check_response`: the `{}` sentinel with its log line for a missing status, an undecodable body or `error` true; `body` otherwise; KeyError or TypeError when `error` or `body` cannot be read |
| Envelope.DiagnosticA | main.py:215 | the logged diagnostic `message or msg`, with "" and "No msg." as the defaults |
| Envelope.PyContains | main.py:232 | Python's `in` on a decoded value: key membership on a dict, element membership on a list, substring on a string, TypeError otherwise |
| Envelope.CheckB | main.py:220-235 | `_check_response2`: the `{}` sentinel with its log line for a missing status, an undecodable body or any `error` key; the decoded value otherwise; the exception of `in` when it raises |
| Envelope.AbsentStatusIsEmpty | main.py:203-224 | with no status code, both shapes return `{}` without a log line, whatever the body |
| Envelope.UndecodableIsEmpty | main.py:206-230 | a body that does not decode gives `{}` and the JSON error line in both shapes |
| Envelope.ShapeAErrorTrue | main.py:212-217 | `error` being the boolean true gives `{}` and logs the diagnostic |
| Envelope.DiagnosticPreference | main.py:215 | the diagnostic is a truthy `message`, else `msg` whatever its value, else "No msg." |
| Envelope.ShapeAReturnsBodyIff | main.py:200-218 | shape A returns `body` with no log line exactly when there is a status and the decoded dict has `error` not true and has `body` |
| Envelope.ShapeARaisesWithoutErrorKey | main.py:212 | a decoded value without `error` raises: KeyError on a dict, TypeError on anything else |
| Envelope.ShapeAPayloadIsSentinelOrBody | main.py:200-218 | shape A's payload is `{}` or the decoded dict's `body` |
| Envelope.EmptyBodyLooksLikeFailure | main.py:203-218 | a successful answer with an empty `body` gives the same result as a transport failure |
| Envelope.ShapeBErrorKeyAnyValue | main.py:232-234 | any `error` key, with any value (even false), gives `{}` and logs that value |
| Envelope.ShapeBPassesObjectThrough | main.py:232-235 | a decoded dict without `error` comes back unchanged |
| Envelope.ShapeBPayloadIsSentinelOrWhole | main.py:220-235 | shape B's payload is `{}` or the whole decoded value |
| Envelope.ShapeBListWithErrorString | main.py:232-233 | a decoded list holding the string "error" passes the `in` test and then raises TypeError |
| Client.Rewrite | main.py:265-281 | disabled: the request is unchanged. Enabled: Host is the original netloc; the netloc becomes its table entry, or stays when the table has none; the caller's other headers are kept and no header is added but Host; verify is off; scheme, path, query, fragment, method and timeout are unchanged |
| Client.WithDefaultTimeout | main.py:97 | `kwargs.setdefault("timeout", ...)`: the caller's timeout is kept, the session's is used when none was given |
| Client.Deliver | main.py:95-108 | a transport exception becomes a response with no status and no body that keeps the requested URL; any round trip is returned with its status, body and final URL, non-OK ones included |
| Client.PixivBase.constructor | main.py:55-66 | the defaults are a 0.01 s interval, a 30 s timeout, 3 retries and fronting off |
| Client.PixivBase.SetInterval | main.py:72-74 | the interval is clamped below at 0.01 s |
| Client.PixivBase.SetTimeout | main.py:80-82 | the timeout is stored as given |
| Client.PixivBase.SetMaxRetries | main.py:88-90 | the retry count is stored as given |
| Client.PixivBase.SetDomainFronting | main.py:259-261 | the fronting flag is stored as given |
| Client.PixivBase.SessionRequest | main.py:95-108 | the session's send: the session timeout is used unless the caller gave one, with the result Deliver describes |
| Client.PixivBase.Request | main.py:265-283 | the fronting rewrite with PIXIV_HOSTS under the session's flag, then the session's send |
| Client.FrontingWwwExample | main.py:137 | a fronted request to www.pixiv.net goes to 210.140.92.186 with `Host: www.pixiv.net` and no certificate check |
| Client.FrontingKeepsNetlocWithPort | main.py:276 | a netloc with a port is not a table key, so it stays the destination, while Host and verify are still set |
| Reconstruct.FindTimestamp | main.py:648 | the leftmost index where `YYYY/MM/DD/HH/mm/ss` matches, or None when it matches nowhere |
| Reconstruct.ThumbMiniUrl | main.py:658 | the `thumb_mini` template: the 128x128 square1200 JPEG of page i |
| Reconstruct.SmallUrl | main.py:659 | the `small` template: the 540x540_70 master1200 JPEG of page i |
| Reconstruct.RegularUrl | main.py:660 | the `regular` template: the master1200 JPEG of page i |
| Reconstruct.OriginalStem | main.py:663 | the original's URL up to the extension |
| Reconstruct.FirstHit | main.py:664-668 | the index of the first of jpg, png and gif whose HEAD probe answers 200, 3 when none does |
| Reconstruct.ProbedExtension | main.py:663-670 | the extension is one of jpg, png and gif: the first whose probe answers 200, or jpg when none does |
| Reconstruct.ProbeExtension | main.py:664-668 | the probe loop settles on ProbedExtension and stops after the first hit (all three probes when there is none) |
| Reconstruct.EntryFor | main.py:657-676 | page i's entry: the three templated URLs, the original with the probed extension, width and height 0 |
| Reconstruct.Reconstruction | main.py:647-678 | `get_original_imgurls`: nothing without a timestamp in the URL, otherwise the entries of the range(page_count) pages built on the leftmost timestamp |
| Reconstruct.BuildPage | main.py:657-676 | one pass of the page loop builds exactly page i's entry, with the probed extension |
| Reconstruct.Pages | main.py:656 | the entries of pages 0 .. n-1: one per page |
| Reconstruct.TabulateAt | main.py:656-676 | a loop appending f(0) .. f(n-1) holds f(j) at position j |
| Reconstruct.PagesAt | main.py:656-676 | entry j of the page list is page j's entry |
| Reconstruct.BuildPages | main.py:655-676 | the page loop appends the entries of pages 0 .. n-1 in page order |
| Reconstruct.GetOriginalImgUrls | main.py:647-678 | the page loop returns the reconstruction: nothing without a timestamp, otherwise one entry per page in page order |
| Reconstruct.EmbedsInPageUrl | main.py:658-663 | every template URL holds `/<timestamp>/<id>_p<i>`, with no digit after it |
| Reconstruct.EntryEmbedsPage | main.py:657-670 | all four URLs of page i hold its timestamp, id and page number |
| Reconstruct.ReconstructionShape | main.py:647-678 | without a timestamp the list is empty; with one it has range(page_count) entries. Each entry embeds the leftmost timestamp, the id and its own page number in all four URLs, has width and height 0, and an original ending in a probed extension |
| Reconstruct.PageUrlsDistinct | main.py:658-663 | two URLs on one template differ when their page numbers differ |
| Reconstruct.PagesAreDistinct | main.py:656-670 | different pages get different thumbnails, smalls, regulars and originals |
| Aggregate.ModeFor | main.py:694-699 | "monthly" and "weekly" choose their own ranking, every other kind the daily one |
| Aggregate.QueryFor | main.py:694-699 | the ranking request for a kind: page 1 of the illustration ranking with that mode and the given date |
| Aggregate.TopOf | main.py:702 | `[:10]`: the first ten elements of a list, the empty string sliced, TypeError otherwise |
| Aggregate.Elements | main.py:719 | iterating a decoded value whose elements are then subscripted: a list's elements, nothing for an empty dict or string, TypeError otherwise |
| Aggregate.TagsOf | main.py:719 | `[t["tag"] for t in illust_info["tags"]["tags"]]`, stopping at the first exception |
| Aggregate.RenderedId | main.py:658 | the id as the f-strings render it; it is rendered only when a page is built |
| Aggregate.ReconstructedUrls | main.py:708-710 | the fallback: `url` and `int(illust_page_count)` read from the item, then the reconstruction as JSON |
| Aggregate.ItemUrls | main.py:707-710 | `illust_urls`: the page list when it is truthy, the fallback otherwise |
| Aggregate.RecordOf | main.py:712-722 | the record literal: the eight detail fields and the urls, read in dict order, raising at the first missing one |
| Aggregate.NormalizeItem | main.py:702-722 | one loop body: `illust_id`, the detail getter, the page-list getter, the fallback, then the record, raising the first exception |
| Aggregate.Top10 | main.py:681-728 | `get_top10_details`: the ranking getter, `contents[:10]`, the item loop, then the snapshot with the ranking's date |
| Aggregate.GetterErrorRaises | main.py:703-705 | an exception raised by the detail or the page-list validator ends the item with that exception, the detail's first |
| Aggregate.RankingErrorRaises | main.py:694-699 | an exception raised by the ranking validator ends the run with that exception |
| Aggregate.EntriesJson | main.py:672-676 | one `{urls, width, height}` object per reconstructed page, in order |
| Aggregate.NormalizeContent | main.py:702-722 | one loop body: the record built from detail, page list or reconstruction and tags, or the exception raised, as NormalizeItem |
| Aggregate.NormalizeAll | main.py:701-722 | the item loop gives one record per selected item in order, or the first item's exception |
| Aggregate.GetTop10Details | main.py:681-728 | the pipeline returns the snapshot Top10 describes, stopping at the first exception |
| Aggregate.Top10Shape | main.py:701-728 | a successful run keeps the first min(10, n) items in ranking order, each normalised from the content at its position; the date comes from the ranking and the kind is the requested one |
| Aggregate.TopOfIsPrefix | main.py:702 | `[:10]` of a list is its first min(10, n) elements |
| Aggregate.Top10OkIff | main.py:694-728 | a run succeeds iff the ranking getter returns, its payload has `contents` and `date`, the contents can be sliced, and every selected item normalises |
| Aggregate.FailedDetailRaises | main.py:704-713 | an item whose detail came back as `{}` raises; it is not skipped |
| Aggregate.FailedDetailAbortsRun | main.py:701-722 | one such item among the selected ten makes the whole run raise |
| Aggregate.UrlsChoice | main.py:705-718 | the record's urls are the page list when it is non-empty, and otherwise the reconstruction from `url` and `int(illust_page_count)` |
| Aggregate.RecordKeepsUrls | main.py:712-722 | the appended record stores the `illust_urls` it was given |
| Aggregate.NormalizeItemUrls | main.py:703-722 | a normalised record's urls are the page list or the fallback, whichever `illust_urls` held |
| Aggregate.FallbackPageCount | main.py:708-710 | a reconstruction holds exactly range(int(illust_page_count)) pages once a timestamp is found |
| Aggregate.TagsInOrder | main.py:719 | tags are the `tag` of each element of `tags.tags`, in order |
| Index.Less | main.py:742 | Python's `<` on strings: lexicographic by code point, a proper prefix first |
| Index.LessIrreflexive | main.py:742 | Python's string `<` is irreflexive |
| Index.LessTransitive | main.py:742 | Python's string `<` is transitive |
| Index.LessTotal | main.py:742 | of two different strings one is smaller |
| Index.InsertDescending | main.py:742 | insertion keeps the list strictly descending, adds exactly x, and grows by one unless x was there |
| Index.DescendingUnique | main.py:742 | two strictly descending lists with the same elements are equal, so the written order depends only on the set of dates |
| Index.SortedDescending | main.py:742 | `sorted(datelist, reverse=True)` holds exactly the set's elements, strictly descending, with no duplicate |
| Index.MergeIndex | main.py:731-742 | the index holds exactly the new snapshot dates and the old lines, newest first |
| Index.DescendingHasNoDuplicates | main.py:742 | a strictly descending index lists no date twice |
| Index.MergeIsStable | main.py:740-742 | merging only dates that are already listed writes back the same index |
| Index.Join | main.py:742 | `"\n".join(lines)` |
| Index.SplitLines | main.py:741 | `splitlines()` with "\n" as the only line break: no element for a final line break |
| Index.FirstNewline | main.py:741 | the first line break from a position on |
| Index.SplitFirst | main.py:741 | a line followed by "\n" is split off as the first line |
| Index.SplitJoin | main.py:741-742 | `splitlines()` of the `"\n".join` of lines without line breaks, the last non-empty, gives the lines back |
| Index.SplitLinesAreLines | main.py:741 | no line read from the file holds a line break |
| Index.UpdateIndex | main.py:741-742 | when the dates are non-empty with no line breaks and the old file has no empty line, the new file's lines are exactly the dates and the old lines, strictly descending |

## Left out

- Actual HTTP: `requests`, the HTTP adapters that `max_retries` mounts, and transport-level retries. The `transport` oracle stands in for all of them.
- The sleeps: the throttle before each send and the delay between retries. Elapsed time is not modelled.
- Logging: warnings, errors and the URL prefix of log lines. The validators return the one line they log as a value; other log lines are not modelled.
- The warning written when domain fronting is switched on.
- The Referer and User-Agent headers, and the merge of session headers with request headers inside `requests`.
- Client.Rewrite: the URL is modelled as the five components of `urlsplit`, so the fact that `urlunsplit(urlsplit(url))` can normalise a URL is not captured.
- Client.Rewrite: a headers dict the caller passes is modelled as a value. The in-place update of the caller's dict (aliasing) and headers passed explicitly as None are not captured.
- Client.PixivBase.SetTimeout: a timeout is stored as given. Floating-point durations are rounded to hundredths.
- Floating-point JSON numbers. Every number the core reads is an integer.
- Json.Str: `str()` of a list or dict is `Err(Unmodelled)`, not Python's rendering.
- Json.PyInt: `int()` accepts only an optional sign and ASCII digits. Surrounding whitespace, underscores and non-ASCII digits are not modelled.
- Slicing a dict with `[:10]` is modelled as TypeError.
- Index.SplitLines: only "\n" is a line break. The other separators `splitlines()` honours are not modelled.
- Index.MergeIndex: the dates of this run are taken as strings. A non-string `date` from the ranking would make the path slicing and the join raise, which is not modelled.
- Retry.EmptyRetry: `times` is a nat, so a negative `times` (zero calls and an unbound `ret` in Python) is not modelled.
- The endpoint wrappers `get_illust`, `_get_illust_pages` and `get_ranking_*`. They are the `Origin` oracle, giving what each retried getter finally returns or the exception its validator raises; which payloads lead to which exceptions is `Envelope.CheckA` and `Envelope.CheckB`.
- The other endpoints, downloads to disk and login.
- The `__main__` loop over the three kinds, and the snapshot and index files. `UpdateIndex` takes the old file text and returns the new text.
