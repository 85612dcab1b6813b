# tg_notifier in Dafny

A model of the core of `tg_notifier`, a Telegram notifier that polls HTTP JSON
endpoints. It has five parts:

- **Lowest-price tracker** (`app.dfy`). The `where` / `where_gte` pre-filter,
  the `lowest_by` post-process and the choice of the lowest record. The
  per-batch tracking decision is a function `Decide` from (old tracking,
  batch, price key) to "quiet" or "notify with this payload and persist this
  tracking record", or to an error where `float()` raises. The worker loop is a
  method over the batches a poller yields. It is proved against `Run`, the
  fold of the decision over those batches. `Run` covers the `once` exit and
  the exception that ends the worker.
- **Helpers** (`utils.dfy`, with `numbers.dfy` and `fixed.dfy` for digit
  strings). This part covers:
  - dotted-path lookup;
  - `render_template` over the `{name}`, `{{` and `}}` subset of `str.format_map`;
  - half-up two-decimal number formatting on exact decimals, proved to read
    back as the rounded value;
  - `format_numbers_in_mapping`;
  - `${NAME}` expansion with the environment as a map.
- **State store** (`file_state.dfy`). A `FileStateStore` class over an
  abstract disk (a map from path to content), with the lazily filled
  seen/present caches and the uncached tracking file.
- **HTTP JSON poller** (`http_json.dfy`). The interval clamp, the lazily
  opened client and its `close`, building event records from the query
  result, and a poll loop that turns a failed fetch into an empty batch.
- **Router** (`router.dfy`). The ordered list of `(chat_id, text)` sends
  that `deliver` and `deliverers` produce.

JSON-like data is one `Value` datatype (`json.dfy`). Numbers in it are ints or
exact decimals. The model also spells out the Python semantics the code relies
on: truthiness, `==`, `float()` as a partial conversion, and `str()`.

The model follows the code as written, including these behaviours:

- In `once` mode, `app.py:101-110` breaks out of the loop on an empty batch
  too, raw or after the pre-filter, so only the first polled batch is
  processed: `App.Worker` takes `outcomes[..1]`.
- A record without a `where_gte` field counts as 0 (`float(e.get(f) or 0)`,
  `app.py:74`), so it passes a threshold of 0 or less (`App.PassesThresholds`).
- When some price does not convert, `min` raises and the first record is taken
  as the lowest (`app.py:112-115`, `App.LowestIndex`).
- The conversions at `app.py:136-137` are outside any `try`: a price that
  `float()` rejects ends the worker (`App.DecideRaises`). So does a list or
  mapping as `pick.key`, which `dict.get` rejects at `app.py:125` and `136`
  (`App.DecideUntracked`, `App.PriceOf`).
- While the tracked order is still listed, the tracking record changes only
  when a strictly cheaper order appears (`app.py:158-171`). The stored price is
  not refreshed when the tracked order's own price changes.
- `load_tracking` reads the file on every call (`file_state.py:90-102`),
  unlike the seen and present sets, which are cached after the first load.

## Model

| member | source | states |
|---|---|---|
| App.FilterMembers | src/tg_notifier/app.py:62-66 | a record survives a filter stage iff it is in the input and passes the stage; the output is never longer than the input |
| App.FilterAppend | src/tg_notifier/app.py:66 | filtering distributes over concatenation, so survivors keep their input order |
| App.FilterKeepsAll | src/tg_notifier/app.py:64-68 | a stage every record passes (in particular an empty `where` / `where_gte`) returns its input unchanged |
| App.PreFilterMembers | src/tg_notifier/app.py:62-84 | a record is kept iff it is in the input, every `where` field `==` its value, and every `where_gte` threshold is met |
| App.PreFilterAppend | src/tg_notifier/app.py:62-84 | the pre-filter is order-preserving: it distributes over concatenation |
| App.PreFilterIdentity | src/tg_notifier/app.py:63-68 | with neither `where` nor `where_gte` the pre-filter is the identity |
| App.PreFiltered | src/tg_notifier/app.py:62-84 | the pre-filter as a function: the `where` stage, then the `where_gte` stage; its meaning is stated by `App.PreFilterMembers` |
| App.PassesThresholds | src/tg_notifier/app.py:70-82 | the flag loop with its early `break` answers true iff `float(e.get(f) or 0) >= float(min)` holds for every threshold; a conversion that raises counts as failing |
| App.KeyGet | src/tg_notifier/app.py:125 | `r.get(key)` for a hashable configured key: a string key finds its field, any other key finds nothing |
| App.PriceOf | src/tg_notifier/app.py:113 | `float(x.get(key) or 0)`: no value for an unhashable key, whose `get` raises; otherwise `float` of the field or of 0 |
| App.PreFilter | src/tg_notifier/app.py:62-84 | the imperative pre-filter returns exactly the two-stage filtered sequence |
| App.ArgMin | src/tg_notifier/app.py:113 | `min` by key picks an index whose key is not above any other, and strictly below every earlier one (ties go to the first) |
| App.LowestIndex | src/tg_notifier/app.py:112-115 | the lowest record is `min` by `float(x.get(key) or 0)`, or the first record when some conversion raises |
| App.LowestIsFirstMinimum | src/tg_notifier/app.py:112-113 | when every price converts, no record is cheaper than the chosen one and every record before it is dearer |
| App.PostProcess | src/tg_notifier/app.py:50-59 | with `pick.type == "lowest_by"`, a truthy key and some records, the result is the one lowest record (the first one if a conversion raises); otherwise the input unchanged |
| App.PostProcessKeepsCheapest | src/tg_notifier/app.py:56 | the one record kept is in the input and is no dearer than any input record |
| App.TrackOfFields | src/tg_notifier/app.py:123-128 | the persisted tracking record has exactly the keys `id`, `price`, `total_amount`, `value`, with `id` = `__id__ or id` of the lowest record |
| App.StampedFields | src/tg_notifier/app.py:130-131 | stamping the lowest record sets `id` and `__template__` and keeps every other field |
| App.RemovalPayloadFields | src/tg_notifier/app.py:141-150 | the removal payload has exactly seven keys: the tracked price/amount/value, the new lowest's price/amount/value, and the removal template |
| App.Decide | src/tg_notifier/app.py:112-171 | the decision for one non-empty batch: quiet, an error where `get` or `float` raises, or one payload and a new tracking record; its cases are stated by the `App.Decide*` lemmas |
| App.DecideUntracked | src/tg_notifier/app.py:122-132 | without tracking (`None` or `{}`), the payload is exactly the lowest record stamped with its id and the new-lowest template, and the tracking record is exactly its id, price, `total_amount` and `value`; the batch fails only for an unhashable price key, which `get` rejects at line 125 |
| App.DecideRaises | src/tg_notifier/app.py:135-137 | with tracking, the decision fails exactly when `float()` of the lowest price or of the tracked price raises |
| App.DecideRemoval | src/tg_notifier/app.py:139-157 | when no record carries the tracked id, the payload is exactly the removal payload (the tracked price, `total_amount` and `value`, the lowest record's price, `total_amount` and `value` as `new_*`, and the removal template), and the tracking record is built from the lowest record |
| App.DecideSwitch | src/tg_notifier/app.py:158-171 | while the tracked order is listed, a notification happens iff the lowest price is strictly below the tracked price; the payload is then exactly the lowest record stamped with its id and the switch template, and the tracking record is that payload's id, price, `total_amount` and `value` |
| App.NotifyTracks | src/tg_notifier/app.py:123-128 | every notification leaves a non-empty tracking record carrying the lowest record's id |
| App.BatchEffect | src/tg_notifier/app.py:100-171 | what one polled batch does: an empty batch, raw or after the pre-filter, is quiet; any other is decided |
| App.Run | src/tg_notifier/app.py:99-176 | the worker over a sequence of batches: an error stops it as failed, and each notification routes its payload and replaces the tracking record |
| App.RepeatBatchIsQuiet | src/tg_notifier/app.py:134-171 | after a notification, deciding the same batch again is quiet: the tracked order is present and is not undercut |
| App.RunPayloadsBound | src/tg_notifier/app.py:99-176 | a run routes at most one payload per batch |
| App.EmptyBatchesAreQuiet | src/tg_notifier/app.py:101-110 | batches that are empty, raw or after the pre-filter, route nothing and leave tracking as it was |
| App.RepeatedBatchAnnouncedOnce | src/tg_notifier/app.py:99-171 | the same batch polled twice in a row is announced at most once |
| App.Batches | src/tg_notifier/pollers/http_json.py:73-81 | one batch per fetch outcome, in order |
| App.HandleBatch | src/tg_notifier/app.py:112-171 | carrying out one non-empty batch: fails iff the decision raises; on a notification the tracking file holds the new record and exactly the payload's sends are appended; otherwise disk and sends are unchanged |
| App.ProcessBatch | src/tg_notifier/app.py:100-171 | the same for a raw batch: an empty batch, raw or after the pre-filter, touches neither the store nor the router |
| App.RunStep | src/tg_notifier/app.py:100-174 | how the run advances over one batch: an error ends it as failed, otherwise the batch's payload is followed by the rest of the run from the new tracking |
| App.Advance | src/tg_notifier/app.py:100-174 | one loop turn carries out the batch, and the run from the old tracking is its payloads followed by the run from the new tracking; only the tracking file changes |
| App.Turn | src/tg_notifier/app.py:100-174 | one loop turn keeps the worker's invariant: payloads routed so far followed by the rest of the run equal the whole run |
| App.Worker | src/tg_notifier/app.py:96-176 | the worker ends with the tracking file, the failure flag and the routed sends that the run over the yielded batches gives (only the first batch in `once` mode); no other file changes; the client it polled with, the poller's own or the one its first tick opened, ends closed and forgotten |
| FileState.JoinPath | src/tg_notifier/state/file_state.py:17-24 | the joined path ends with the file name |
| FileState.PathsDistinct | src/tg_notifier/state/file_state.py:17-24 | a poller's seen, present and tracking files are three different paths |
| FileState.SortedIds | src/tg_notifier/state/file_state.py:49 | `sorted(s)` holds exactly the elements of `s` in strictly increasing order |
| FileState.DecodeIds | src/tg_notifier/state/file_state.py:38-43 | unreadable content and anything but a JSON list give the empty set |
| FileState.EncodeIds | src/tg_notifier/state/file_state.py:49-51 | the JSON list `json.dump(sorted(ids))` writes; stated by `FileState.EncodeIdsSorted` and `FileState.DecodeEncodeIds` |
| FileState.ReadIds | src/tg_notifier/state/file_state.py:34-44 | the set a load starts from: a missing file gives the empty set |
| FileState.DecodeEncodeIds | src/tg_notifier/state/file_state.py:41-51 | reading back a written sorted id list gives the same set |
| FileState.ReadIdsAfterWrite | src/tg_notifier/state/file_state.py:31-51 | a load from the file after a write returns the set written |
| FileState.EncodeIdsSorted | src/tg_notifier/state/file_state.py:87 | the written list holds each id once, as strings, in increasing order |
| FileState.DecodeTracking | src/tg_notifier/state/file_state.py:95-102 | the tracking file yields a record iff it holds a JSON object |
| FileState.ReadTracking | src/tg_notifier/state/file_state.py:92-102 | `load_tracking` on a disk: a missing file gives `None` |
| FileState.WriteTracking | src/tg_notifier/state/file_state.py:106-116 | `save_tracking` on a disk: the record is written, or `None` removes the file |
| FileState.TrackingRoundTrip | src/tg_notifier/state/file_state.py:90-116 | `load_tracking` after `save_tracking(d)` returns `d`; after `save_tracking(None)` it returns `None` |
| FileState.WriteTrackingFrame | src/tg_notifier/state/file_state.py:104-116 | saving the tracking record leaves every other file as it was |
| FileState.WriteTrackingElsewhere | src/tg_notifier/state/file_state.py:104-116 | apart from the tracking file, the disk after `save_tracking` is the disk before |
| FileState.FileStateStore.constructor | src/tg_notifier/state/file_state.py:10-15 | a store starts with empty caches over the given directory |
| FileState.FileStateStore.LoadSeen | src/tg_notifier/state/file_state.py:31-44 | returns the cached set if there is one, else what the file holds (missing file gives the empty set); caches it; reads the disk only |
| FileState.FileStateStore.IsSeen | src/tg_notifier/state/file_state.py:53-56 | true iff the key is in the loaded seen set; the disk is unchanged |
| FileState.FileStateStore.MarkSeen | src/tg_notifier/state/file_state.py:46-62 | the seen set becomes the old seen set plus the keys, and only the seen file is rewritten, holding that set sorted |
| FileState.FileStateStore.LoadLastPresentIds | src/tg_notifier/state/file_state.py:65-79 | lazily cached like the seen set; once cached the disk is not consulted |
| FileState.FileStateStore.SaveCurrentPresentIds | src/tg_notifier/state/file_state.py:81-87 | the cache holds the ids, and so does the present file (sorted); the next load returns them |
| FileState.FileStateStore.LoadTracking | src/tg_notifier/state/file_state.py:90-102 | read from the disk on every call: a missing file or non-object content gives `None` |
| FileState.FileStateStore.SaveTracking | src/tg_notifier/state/file_state.py:104-116 | writes the record, or deletes the file for `None` (a no-op when absent); the caches are untouched |
| Fixed.TwoPlacesParses | src/tg_notifier/utils.py:84-87 | the stripped fixed-point text of `q` hundredths reads back with `float` as `q / 100` |
| Fixed.SignedTwoPlacesParses | src/tg_notifier/utils.py:83-87 | with an optional minus sign, the text reads back as the signed value |
| Fixed.CentsSuffixShape | src/tg_notifier/utils.py:85-86 | after the integer digits come nothing, or a point and one or two digits not ending in `0` |
| Fixed.SignedTwoPlacesShape | src/tg_notifier/utils.py:84-87 | the signed text keeps every integer digit and never ends in `.` or in a fractional `0` |
| HttpJson.HttpClient.constructor | src/tg_notifier/pollers/http_json.py:39 | a new client is open |
| HttpJson.HttpClient.Close | src/tg_notifier/pollers/http_json.py:44 | `aclose()` leaves the client closed |
| HttpJson.Max | src/tg_notifier/pollers/http_json.py:29 | `max(1, n)` is at least both arguments and one of them |
| HttpJson.Items | src/tg_notifier/pollers/http_json.py:57-59 | a list result gives its items; a falsy or non-list result gives none |
| HttpJson.HttpJsonPoller.constructor | src/tg_notifier/pollers/http_json.py:16-33 | the interval is `max(1, interval_seconds)`, so at least 1 and unchanged when already positive; missing `fields` mean none; no client yet |
| HttpJson.HttpJsonPoller.GetClient | src/tg_notifier/pollers/http_json.py:36-40 | opens a fresh client on first use and otherwise returns the same handle |
| HttpJson.HttpJsonPoller.Close | src/tg_notifier/pollers/http_json.py:42-45 | closes an open client and forgets it; with no client nothing changes |
| HttpJson.HttpJsonPoller.EventContents | src/tg_notifier/pollers/http_json.py:61-69 | an event holds exactly the configured keys, `__raw__`, and `__id__` / `__updated_at__` iff their paths are set; `__id__` is the `str` of the id value |
| HttpJson.HttpJsonPoller.EventOf | src/tg_notifier/pollers/http_json.py:62-70 | the event `_fetch` builds for one item; its contents are stated by `HttpJson.HttpJsonPoller.EventContents` |
| HttpJson.HttpJsonPoller.Batch | src/tg_notifier/pollers/http_json.py:57-71 | one event per item, in item order |
| HttpJson.HttpJsonPoller.BuildRecords | src/tg_notifier/pollers/http_json.py:60-71 | the item loop builds exactly that batch |
| HttpJson.HttpJsonPoller.BuildEvent | src/tg_notifier/pollers/http_json.py:62-70 | the assignments for one item build exactly its event |
| HttpJson.HttpJsonPoller.ResolveFields | src/tg_notifier/pollers/http_json.py:63-64 | the field loop maps every configured key to `get_by_path(item, path)` and nothing else |
| HttpJson.HttpJsonPoller.Tick | src/tg_notifier/pollers/http_json.py:47-48 | a tick opens the client if needed, then yields the fetched batch, or an empty batch on failure |
| HttpJson.HttpJsonPoller.TickBatch | src/tg_notifier/pollers/http_json.py:76-81 | the batch one tick yields: the fetched events, or none when the fetch raised |
| HttpJson.HttpJsonPoller.Poll | src/tg_notifier/pollers/http_json.py:73-84 | one batch per fetch outcome, a failure giving an empty batch and not ending the loop; the client the ticks used, the poller's own or the one the first tick opened, is closed at the end and forgotten |
| Json.Get | src/tg_notifier/routing/router.py:25 | `dict.get` gives `None` for a missing key |
| Json.Truthy | src/tg_notifier/app.py:122 | Python truthiness of a JSON value: `None`, `False`, zero, and empty strings, lists and dicts are falsy |
| Json.Or | src/tg_notifier/app.py:124 | `a or b`: `a` when it is truthy, else `b` |
| Json.PyEq | src/tg_notifier/app.py:135 | Python `==` on JSON values: numbers by value across bool, int and float, lists element-wise, dicts key-wise |
| Json.Str | src/tg_notifier/pollers/http_json.py:66 | Python `str()` of a JSON value; lists and dicts print as a placeholder |
| Json.Float | src/tg_notifier/app.py:74-75 | `float()` of a bool, int or decimal is its value; of `None`, a list or a dict it raises; a string goes through `Numbers.ParseNumber` |
| Json.FloatOrZero | src/tg_notifier/app.py:74 | `float(v or 0)` is 0 for a falsy value and `float(v)` otherwise |
| Json.FloatOrZeroOfIntString | src/tg_notifier/app.py:136 | a price stored as the text of an int converts to that int |
| Json.PyEqReflexive | src/tg_notifier/app.py:135 | `==` on JSON values is reflexive |
| Json.PyEqSymmetric | src/tg_notifier/app.py:66 | `==` on JSON values is symmetric |
| Numbers.ParseIntString | src/tg_notifier/app.py:74 | `float(str(i))` is `i` |
| Numbers.ParseNumber | src/tg_notifier/app.py:74-75 | `float()` of a string: whitespace stripped, `_` only between digits, a signed decimal literal with an optional exponent; anything else raises |
| Numbers.ParseIgnoresSpace | src/tg_notifier/app.py:74-75 | whitespace around a literal does not change what `float()` reads |
| Numbers.ParseIgnoresUnderscore | src/tg_notifier/app.py:74-75 | an `_` between two digits does not change what `float()` reads |
| Numbers.ParseExponentForm | src/tg_notifier/app.py:74-75 | a decimal literal `m` followed by `e` and an integer `k` reads as `m` times ten to the `k` |
| Routing.Telegrams | src/tg_notifier/routing/router.py:25-27 | the deliveries kept are exactly those whose notifier is a Telegram notifier |
| Routing.SendsTo | src/tg_notifier/routing/router.py:25-27 | a delivery sends iff its notifier name is a string naming a Telegram notifier |
| Routing.Matches | src/tg_notifier/routing/router.py:18-20 | a route applies unless it truthily names another poller |
| Routing.TextFor | src/tg_notifier/routing/router.py:28-30 | the text sent: the chosen template rendered over the number-formatted event, or the template value itself when it is not a string |
| Routing.EventSends | src/tg_notifier/routing/router.py:24-36 | the inner loop of `deliver` for one event; stated by `Routing.EventSendsPerDelivery` |
| Routing.BatchSends | src/tg_notifier/routing/router.py:23-36 | the nested loops of `deliver`; stated by `Routing.BatchSendsLength`, `Routing.BatchSendsAt` and `Routing.BatchSendsOrder` |
| Routing.RouteSends | src/tg_notifier/routing/router.py:17-36 | what `deliver` sends: the batch's sends when the route matches, else nothing |
| Routing.AllSends | src/tg_notifier/routing/router.py:43-46 | what `deliverers` sends: every route's sends, route by route |
| Routing.TemplatePrecedence | src/tg_notifier/routing/router.py:29 | a truthy event `__template__` wins, then the delivery's `template`, then `{__raw__}` |
| Routing.EventSendsPerDelivery | src/tg_notifier/routing/router.py:24-36 | one event sends one message per Telegram delivery, in delivery order, to that delivery's chat with the rendered text |
| Routing.BatchSendsLength | src/tg_notifier/routing/router.py:23-36 | a batch sends one message per (event, Telegram delivery) pair |
| Routing.BatchSendsAt | src/tg_notifier/routing/router.py:23-36 | message number `i * k + j` is event `i` through Telegram delivery `j` |
| Routing.BatchSendsOrder | src/tg_notifier/routing/router.py:23-36 | sends go event by event (outer loop) and within an event delivery by delivery, and nothing else is sent |
| Routing.RouteMismatchSendsNothing | src/tg_notifier/routing/router.py:18-20 | a route naming (truthily) another poller sends nothing |
| Routing.RouteMatchSends | src/tg_notifier/routing/router.py:18-24 | a route with no or an empty poller name, or naming this poller, sends the whole batch |
| Routing.AllSendsAppend | src/tg_notifier/routing/router.py:43-46 | routes are handled one after another |
| Routing.NothingToSend | src/tg_notifier/routing/router.py:37-46 | no routes or no events mean no sends |
| Routing.BatchSendsSnoc | src/tg_notifier/routing/router.py:23-36 | one more event's sends come after those of the events before it |
| Routing.Outbox.Send | src/tg_notifier/routing/router.py:31-41 | a send is recorded whatever the notifier answers; its failure is not raised |
| Routing.Router.constructor | src/tg_notifier/routing/router.py:14-15 | the router keeps its notifiers |
| Routing.Router.Deliver | src/tg_notifier/routing/router.py:17-41 | `deliver` appends exactly the route's sends, in order |
| Routing.Router.BuildTasks | src/tg_notifier/routing/router.py:22-36 | the nested loops build exactly the batch's send list |
| Routing.Router.EventTasks | src/tg_notifier/routing/router.py:24-36 | the inner loop builds exactly one event's sends |
| Routing.Router.Render | src/tg_notifier/routing/router.py:28-30 | the text is the chosen template rendered over the number-formatted event |
| Routing.Router.Deliverers | src/tg_notifier/routing/router.py:43-46 | `deliverers` appends every route's sends, route by route |
| Utils.Split | src/tg_notifier/utils.py:36 | `split(".")` never returns an empty list |
| Utils.JoinSplit | src/tg_notifier/utils.py:36 | joining the segments with `.` gives the path back |
| Utils.SplitDotted | src/tg_notifier/utils.py:36 | the segments of `p.q` are those of `p` followed by those of `q` |
| Utils.GetByPath | src/tg_notifier/utils.py:32-41 | the cursor loop computes the dotted lookup; a `None` or empty path returns the data itself |
| Utils.Walk | src/tg_notifier/utils.py:35-41 | walking keys down nested dicts, `None` once a step is not a dict holding the key |
| Utils.Lookup | src/tg_notifier/utils.py:32-41 | the value `get_by_path` returns; stated by `Utils.GetByPath`, `Utils.LookupDotted` and `Utils.LookupThroughNonObject` |
| Utils.LookupDotted | src/tg_notifier/utils.py:35-41 | looking up `p.q` is looking up `q` in the result of looking up `p` |
| Utils.LookupThroughNonObject | src/tg_notifier/utils.py:37-40 | once a prefix reaches a non-dict or a missing key, the lookup yields `None` |
| Utils.TokenizeAppend | src/tg_notifier/utils.py:52 | a format string that parses alone parses the same in front of any text |
| Utils.Tokenize | src/tg_notifier/utils.py:52 | parsing a format string into literal characters and `{name}` fields; `None` where `format_map` raises |
| Utils.Emit | src/tg_notifier/utils.py:52 | the text of parsed pieces: each field as `SafeFormatDict` yields it |
| Utils.RenderTemplate | src/tg_notifier/utils.py:49-54 | `render_template`: the formatted text, or the template itself when formatting raises; stated by the `Utils.Render*` lemmas |
| Utils.EmitAppend | src/tg_notifier/utils.py:52 | formatting parsed pieces distributes over concatenation |
| Utils.RenderAppend | src/tg_notifier/utils.py:49-54 | rendering distributes over two well-formed templates |
| Utils.RenderLiteral | src/tg_notifier/utils.py:49-52 | text without braces renders as itself |
| Utils.RenderPlaceholder | src/tg_notifier/utils.py:44-52 | `{name}` renders as `str` of the value, and as `""` for a missing key or a `None` value |
| Utils.RenderUnclosedBrace | src/tg_notifier/utils.py:51-54 | an unclosed `{` makes formatting raise, so the template comes back unchanged |
| Utils.RenderStrayClosingBrace | src/tg_notifier/utils.py:51-54 | a single `}` makes formatting raise, so the template comes back unchanged |
| Utils.RenderMissingField | src/tg_notifier/utils.py:44-52 | text followed by a placeholder for a missing key renders as the text alone |
| Utils.HundredthsNearest | src/tg_notifier/utils.py:83 | the quantized count of hundredths is the nearest one, ties rounded up in magnitude |
| Utils.FormatDecimal | src/tg_notifier/utils.py:83-87 | the decimal branch of `format_number_2dp_no_sci`; stated by `Utils.FormatDecimalParses` and `Utils.FormatDecimalShape` |
| Utils.FormatNumber | src/tg_notifier/utils.py:72-82 | bools, ints and non-numbers are printed with `str` |
| Utils.RoundedWithinHalfCent | src/tg_notifier/utils.py:83 | the rounded value is within half a cent of the input: never more than half below, at most half above |
| Utils.FormatDecimalParses | src/tg_notifier/utils.py:83-87 | reading the printed text back with `float` gives the rounded value |
| Utils.FormatDecimalShape | src/tg_notifier/utils.py:84-87 | at most two fractional digits, no trailing `.` or fractional `0`, integer digits kept |
| Utils.FormatNumbersInMapping | src/tg_notifier/utils.py:90-97 | same keys; numbers (bools excluded) replaced by their formatted text; every other value unchanged |
| Utils.FormatField | src/tg_notifier/utils.py:93-96 | one entry: a non-bool number becomes its formatted text, anything else is kept |
| Utils.FormattedMapping | src/tg_notifier/utils.py:90-97 | `format_numbers_in_mapping` as a function, computed by `Utils.FormatNumbersInMapping` |
| Utils.NameRun | src/tg_notifier/utils.py:10 | the longest run of `[A-Z0-9_]` at the start of the text |
| Utils.ExpandString | src/tg_notifier/utils.py:10-18 | `_ENV_PATTERN.sub(repl, s)`: each `${NAME}` match, left to right, replaced by the value or `""`; stated by the `Utils.Expand*` lemmas |
| Utils.ExpandEnvVars | src/tg_notifier/utils.py:13-23 | lists keep their length, dicts keep their keys, non-string scalars come back unchanged |
| Utils.ExpandNoDollar | src/tg_notifier/utils.py:18 | text with no `$` is left alone |
| Utils.ExpandPlaceholder | src/tg_notifier/utils.py:10-18 | `${NAME}` becomes the variable's value, or `""` when unset, and the rest is expanded on its own |
| Utils.ExpandInvalidNameLiteral | src/tg_notifier/utils.py:10-18 | a name outside `[A-Z0-9_]+`, such as a lower-case one, stays literal |

## Left out

- Concurrency: asyncio tasks and `gather`, the per-poller locks, and `asyncio.sleep` between polls. Everything is sequential. Sends within a `deliver` are recorded in the order they are created, not the order `gather` completes them.
- The process wiring in `app.py:178-187`, `main` and argument parsing: `build_notifiers`, `build_pollers`, config loading and logging. The worker takes its options, routes, notifiers and templates as parameters.
- The Telegram notifier is an opaque `send(chat_id, text)` whose answer is unknown (`Routing.Outbox.Send`). `types.py` is not part of this model.
- File I/O and JSON encoding: the disk is a map from path to parsed content or "unreadable". `ensure_dir`, and an `os.remove` that raises, are not modelled.
- HTTP and JMESPath: each poll tick receives the query result, or the failure, as input. The request building and the client timeout are not modelled.
- IEEE floats: a float is the exact decimal its `str()` prints, so `Decimal(str(value))` is the identity. Decimal context precision is unbounded. An exponent too large for a double gives an exact number, not `inf`.
- Json.Float: a string of non-ASCII decimal digits, and the spellings `inf`, `infinity` and `nan`, raise in the model (`Numbers.ParseNumber` gives none); Python reads them as numbers or as IEEE specials, which the model does not have.
- `str()` of lists and dicts is a fixed placeholder text. `str()` of a float never uses the exponent form.
- Utils.RenderTemplate: only `{name}`, `{{` and `}}` are modelled. Attribute and index fields, conversions and format specs are treated as formatting failures.
- FileState.DecodeIds: of a JSON list, only the string elements are kept. Python would also keep numbers in the set, but every id the core writes is a string.
- Malformed configuration shapes that make the code raise `AttributeError` (a route or delivery that is not a dict) cannot occur: routes and deliveries are typed. The same holds for an unhashable notifier name.
- The in-place mutation of `current_lowest` (`app.py:130-131`, `162-163`) is modelled as a new record. Nothing else holds a reference to the event once it has been decided.
- The templates are one `Templates` value passed to the worker. `App.WlfiTemplates` holds the three texts of `app.py:129`, `141` and `161`.
- App.Worker: outside `once` mode the source loops forever. The model runs it over a finite sequence of fetch outcomes. An exception (`float()` raising on a price) ends the worker, reported as `failed`.
- App.Worker: the outer `while True` restart after the poll generator ends is not modelled, because `poll` never ends on its own.
