# threads-scraper core, modelled in Dafny

The scraper loads a Threads page, collects the JSON blobs embedded in its
`<script type="application/json" data-sjs>` elements, and turns the post
payloads inside them into flat records. This project models the two pure
transformations at its core, both in `main.py`:

- **`parse_thread`** (the record normaliser) evaluates a fixed JMESPath
  multiselect hash over one post payload. It deduplicates the video URLs
  with `list(set(...))`, coerces `reply_count` strings such as `"12 replies"`
  to integers, and adds a `url` built from an f-string.
- **`find_datasets`** (the dataset locator) scans the blobs in order. A blob
  is skipped unparsed unless it contains both `"ScheduledServerJS"` (quotes
  included) and `thread_items`. Otherwise the blob is parsed and deep-searched
  with `nested_lookup("thread_items", ...)`. The scan returns the normalised
  payloads of the first blob with a hit, or raises
  `ValueError("could not find thread data in page")`.

Modules, one per concept:

- `Wrappers`: `Option`, `Result` (an exception is a `Failure`), and `MapAll`, a list comprehension whose body may raise.
- `Text`: Python's substring test, `split(sep)[0]`, `int()` on digit strings, `str()` on integers.
- `Json`: the parsed tree (`Null | Bool | Int | Str | Arr | Obj`, object entries in document order), plus the Python semantics applied to it: truthiness, dict lookup, iteration, set equality and hashability, `str()`.
- `JmesPath`: the fragment of JMESPath the query uses. This is key steps, an index, and the flatten projection `base[].rhs`, as jmespath's interpreter evaluates them: null on a missing step, sub-lists merged, null results dropped.
- `NestedLookup`: the library's depth-first walk. An entry's value is yielded when its key matches, then the walk descends into that value if it is a dict or list.
- `Threads`: the `Thread` record, the query's paths, and `ParseThread` with its post-processing.
- `Datasets`: blobs, the marker filter, the comprehension over the found values, and `FindDatasets`.

Errors are the exceptions the Python code raises, one constructor each:
- `NoThreadData`: the final `ValueError`.
- `MalformedJson`: `json.loads` fails on a blob that passed the filter.
- `NullPayload`: a null payload. The multiselect hash of `None` is `None`, and subscripting it raises `TypeError`.
- `NotIterable`: `for t in thread` over an int, bool or null.
- `Unhashable`: a list or dict among the video URLs given to `set`.
- `NoSplit`: `.split` on a truthy reply count that is neither int nor str. A `True` counts, because `type(True)` is `bool`, not `int`.
- `NotAnInteger`: `int()` of a non-numeric first token.

Behaviours of the code worth noting:
- Every falsy reply count is left untouched, not only null.
- `images` never contains nulls: the projection drops them.
- A payload with missing paths yields nulls; missing paths never cause a failure.
- A blob that passes the filter but does not parse raises; it is not skipped.
- The code has no pagination state machine. `scroll_until` only computes `days_old * 86400`, and `scrape_thread` scrolls once and discards the result.

## Model

| member | source | states |
|---|---|---|
| Text.Contains | main.py:52-55 | `pat in s` is true exactly when `pat` occurs in `s` at some index |
| Text.PrefixBefore | main.py:39 | `s.split(sep)[0]` is a prefix of `s` that does not contain `sep` and ends at the first `sep` or at the end of `s` |
| Text.PrefixBeforeUnique | main.py:39 | any prefix with those three properties is the first split field, so they define it |
| Text.ParseNat | main.py:39 | `int()` of a token succeeds exactly on non-empty strings of decimal digits |
| Text.DecimalRoundTrip | main.py:39-42 | reading back the numeral `str(n)` writes gives `n` |
| Json.FalsyExactly | main.py:38 | a value is falsy exactly when it is `None`, `False`, `0`, `""`, `[]` or `{}`; `if result["reply_count"]` and `if not thread_items` (line 60) test this |
| Json.PyStr | main.py:40-42 | the f-string renders a string as itself, null as `None`, an int as a numeral that reads back to it (a negative one as no numeral), and null, bools and ints without any `/` |
| Wrappers.MapAll | main.py:63 | a comprehension that completes has one result per element |
| Wrappers.MapAllPointwise | main.py:63 | a comprehension completes exactly when no element raises, its results are the elements' results in order, and it otherwise raises the exception of the first element that raises, in order |
| Wrappers.MapAllConcat | main.py:63 | a comprehension over two lists in sequence completes exactly when it completes on each, and its results are the first's followed by the second's |
| Json.Iterate | main.py:63 | `for t in thread` visits a list's items, a dict's keys (one per entry) or a string's characters, and raises on null, bool and int |
| JmesPath.ApplySelectsMember | main.py:18-30 | a step yields null on a missing key, on a non-dict, on a non-list or out-of-range index; otherwise it selects the entry under the key or the item at the index, so a non-null result is always a member of the value |
| JmesPath.Eval | main.py:18-30 | every field path evaluates to null on a null payload |
| JmesPath.EvalConcat | main.py:18-30 | a dotted path is evaluated step by step: evaluating `p.q` is evaluating `q` on the result of `p` |
| JmesPath.MissingStepGivesNull | main.py:18-30 | once any prefix of a field path is missing (null), the whole field is null |
| JmesPath.Flatten | main.py:31-33 | flattening a list with no sub-lists leaves it unchanged, and flattening a lone sub-list gives its items |
| JmesPath.FlattenConcat | main.py:31-33 | flattening preserves element order across a concatenation |
| JmesPath.FlattenSplicesSubList | main.py:31-33 | a sub-list's items are spliced in its place, between the flattened elements before and after it |
| JmesPath.Collect | main.py:31-33 | the projection of a list never contains null and is no longer than the list |
| JmesPath.CollectMembers | main.py:31-33 | a projection holds exactly the non-null results of its right-hand side on some element |
| JmesPath.CollectConcat | main.py:31-33 | a projection keeps element order: projecting a concatenation concatenates the projections |
| JmesPath.CollectTotal | main.py:31-33 | when no element projects to null, the projection has one result per element, in place |
| JmesPath.Project | main.py:31-33 | `base[].rhs` is null exactly when `base` is not a list, is otherwise a list, and never contains null |
| NestedLookup.Lookup | main.py:59 | the deep search returns the values of the entries stored under the key, taking the document's dict entries in pre-order (an entry before the entries inside its value, list items left to right), each as often as it is stored |
| NestedLookup.LookupFindsEveryEntry | main.py:59 | the deep search yields `v` exactly when some dict, at any depth and including inside other matches, stores `v` under the key |
| NestedLookup.LookupItemsConcat | main.py:59 | sibling list items are searched left to right, so matches come in document order |
| NestedLookup.LookupEntriesConcat | main.py:59 | sibling dict entries are searched in order |
| Threads.Row | main.py:16-43 | every record has the same 17 keys in the same order: the query's 16, then `url` |
| Threads.Dedup | main.py:37 | `list(set(xs))` has no two set-equal elements, holds only elements of `xs`, and keeps a set-equal representative of every element of `xs` |
| Threads.DedupKeepsSetMembers | main.py:37 | a value is set-equal to some member of `list(set(xs))` exactly when it is set-equal to some member of `xs` |
| Threads.DedupSameElements | main.py:37 | without booleans, the deduplicated list has exactly the elements of the input, each once |
| Threads.FirstUnhashable | main.py:37 | finds a list or dict among the URLs exactly when `set()` would reject one |
| Threads.VideoList | main.py:33-37 | the videos field is a list without set-equal duplicates, or an `Unhashable` failure |
| Threads.CoerceReplyCount | main.py:38-39 | an int or falsy reply count is kept. A non-empty string becomes the integer value of its first space-separated token, and fails when that token is not all digits. Any other truthy value fails. A successful result is never a non-empty string |
| Threads.ReplyCountReadsLeadingNumber | main.py:38-39 | a count written as `"<n> <anything>"`, such as `"12 replies"`, is coerced to `n` |
| Threads.ReplyCountIsIntOrFalsy | main.py:38-39 | in a parsed record the reply count is an int or falsy, and an int or falsy raw value is kept unchanged |
| Threads.ThreadUrl | main.py:40-42 | the url starts with `https://www.threads.net/@`; when str(username) has no `/`, splitting the url at that prefix and `/post/` recovers str(username) and str(code). Absent fields render as `None` |
| Threads.ParseThread | main.py:14-43 | a null payload fails with `NullPayload`, and every failure is one of the record-level exceptions |
| Threads.ColumnsFollowQuery | main.py:16-42 | succeeds exactly when the payload is non-null, the video URLs are hashable and the reply count coerces. The record's row then holds each plain column of the query (ScalarQuery) with the value at that column's path, `images` and `videos` from the two projections, the coerced reply count, and the url rendered from the values at the username and code paths |
| Threads.FieldNamesDistinct | main.py:17-42 | the record's 17 column names are pairwise distinct, so each column has one value |
| Threads.VideosAreTheVersionUrls | main.py:33-37 | the videos field (which ColumnsFollowQuery places in the record) is pairwise distinct. It is empty when `video_versions` is not a list. Otherwise the candidate urls are the non-null `url`s of the flattened versions, all hashable, and a hashable value is set-equal to a video exactly when it is set-equal to one of them. When no url is a boolean (which a set merges with 1 or 0), the videos are exactly those urls |
| Threads.ImagesOnePerCarouselItem | main.py:31 | when every carousel item has a second candidate URL, `images` has one entry per item, in order, that item's `candidates[1].url` |
| Threads.ItemWithoutSecondCandidateIsDropped | main.py:31 | an item with fewer than two candidates yields null, which the projection omits |
| Datasets.Normalise | main.py:63 | the comprehension fails only with `NotIterable` or a record-level error |
| Datasets.NormaliseIsParseOfFlattening | main.py:63 | the interleaved comprehension succeeds exactly when all found values iterate and all their elements parse. It then equals parse_thread mapped over the one-level flattening |
| Datasets.NormaliseLength | main.py:63 | the number of records is the sum of the found values' element counts |
| Datasets.FindDatasets | main.py:48-80 | when no blob contains both marker substrings, the scan fails with `NoThreadData` |
| Datasets.FirstDecisiveBlobDecides | main.py:48-80 | fails with `NoThreadData` exactly when no blob passes both markers and then either fails to parse or has a `thread_items` hit. Otherwise the result is decided by the first such blob |
| Datasets.SkippedBlobsNeverParsed | main.py:52-56 | what a blob failing the marker filter would parse to never affects the result |
| Datasets.LaterBlobsNotExamined | main.py:60-71 | once a prefix of the blobs decides the result, appending further blobs changes nothing |
| Datasets.FirstHitRecords | main.py:59-71 | on success the records are parse_thread of every element of every found value of the first hit blob, in order, one per element |
| Datasets.NoRecordsFromEmptyValues | main.py:63 | the comprehension yields no records, without error, exactly when every found value iterates to nothing (an empty list, dict or string) |
| Datasets.EmptyThreadItemsEndTheScan | main.py:59-71 | at the first blob that passes the markers and has a `thread_items` hit, the scan returns an empty result exactly when every found value iterates to nothing; it does not move on to later blobs or raise the error |

## Left out

- `scrape_thread` (browser launch, navigation, `wait_for_selector`, the single scroll and `time.sleep`): foreign I/O with no stateable logic, and the scroll's result is discarded.
- The script-blob extraction with `parsel.Selector`: the model takes the sequence of blobs as its input.
- `json.loads`: each blob carries its raw text and the outcome of parsing it (`parsed`, None when parsing raises). JSON text parsing is not verified, and floats are not represented.
- `scroll_until` and the cutoff TODO: stubs with no loop, comparison or exhaustion check, so there is no pagination behaviour to model.
- The `__main__` CSV export and its console message: file I/O. `Threads.Row` gives the column order it writes.
- JMESPath beyond key steps, a non-negative index and the flatten projection; `nested_lookup`'s `wild` and `with_keys` options, which the code does not use.
- Python dicts have unique keys. The model's objects are entry sequences, and lookup takes the first entry with the key.
- Text.ParseNat: accepts only ASCII digit strings, a weaker model than Python's `int()`, which also takes a sign, surrounding whitespace, underscores and other Unicode digits.
- Threads.CoerceReplyCount: inherits ParseNat's digits-only reading of the first token, so `"-3 replies"` fails here although Python gives -3.
- Json.PyRepr: lists and dicts inside a url render with single-quoted strings and no escaping, not Python's exact `repr` quote selection.
- Threads.Dedup: Python's set order is unspecified; the model fixes first-occurrence order and its contracts promise nothing about order.
