# YouTube API analysis: a verified model of the fetch-and-flatten core

The repository holds three Python functions that talk to the YouTube Data API:

- `get_channel_stats` sends one channel lookup for a list of channel ids. It turns every returned item into a five-field record.
- `get_video_ids` walks the pages of a playlist listing. It follows `nextPageToken` and collects every item's `contentDetails.videoId`.
- `get_video_details` cuts a list of video ids into windows of 50. It sends one video lookup per window. It flattens every returned item into a record of 13 keys: `video_id`, plus twelve (group, field) lookups that fall back to `None`.

Each function becomes a Dafny method with the same loops. Each method is proved equal to a pure specification function. Lemmas then state the properties of those functions.

The remote client is replaced by parameters:

- The channel and video endpoints are functions from the comma-joined `id` parameter to the response's items, or to a failure.
- The playlist endpoint is a finite sequence of pages. A request without a token gets the first page. A request with a token gets the page after the first page that issued that token.
- `GetChannelStats`, `GetVideoIds` and `GetVideoDetails` also return `sent`, the parameter of each request they issued, so the request pattern can be stated.

Python's subscript is modelled exactly:

- A dict without the key raises `KeyError(key)`.
- Anything that is not a dict raises `TypeError`.
- A failure of the service passes through unchanged.

Files:

- `responses.dfy` — JSON values, the error type, `Result`/`Option`, and subscript and the `try`/`except` lookup.
- `text.dfy` — `','.join` and its inverse split.
- `channel_stats.dfy` — `get_channel_stats`.
- `playlist_items.dfy` — `get_video_ids`.
- `video_details.dfy` — `get_video_details`.

Four facts about the code shape the model:

- The id key of a video record is `video_id`.
- The record reads twelve (group, field) pairs, on top of `video_id`.
- `get_channel_stats` gives one record per returned item, so a requested id the service omits gives no record.
- A video item without `id` makes the whole call raise, because `video['id']` is read outside the `try`.

The statistics field name `favouriteCount` is kept exactly as the code writes it.

## Model

| member | source | states |
|---|---|---|
| Responses.Subscript | Youtube-API-Analysis_documentation.py:31-35 | `v[key]` yields the stored value exactly when `v` is a dict holding `key`. Otherwise it raises `KeyError(key)` on a dict and `TypeError` on anything else. |
| Responses.LookupPair | Youtube-API-Analysis_documentation.py:82 | A two-step subscript `v[a][b]` raises at the first failing step and otherwise yields the nested value. |
| Responses.TryLookup | Youtube-API-Analysis_documentation.py:122-125 | The bare `try`/`except` gives a value exactly when both subscripts succeed, and that value is `v[group][field]`. Every other case gives `None`. |
| Text.JoinLength | Youtube-API-Analysis_documentation.py:25 | `sep.join(parts)` has the total length of the parts plus one separator between each neighbouring pair. Joining no ids gives the empty string. |
| Text.SplitJoin | Youtube-API-Analysis_documentation.py:25 | For a non-empty list of ids, none containing a comma, splitting the comma-joined id parameter on `,` gives back exactly the ids. An empty list joins to `""`, which splits to `[""]`, so the lemma requires at least one id. The joined request therefore loses no id. |
| ChannelStats.ChannelRecordOf | Youtube-API-Analysis_documentation.py:31-36 | The record of an item exists exactly when all five nested paths exist. Each field is then the value found there, copied verbatim with no numeric coercion. A missing path raises a key or type error, never a transport failure. |
| ChannelStats.ChannelRecordsOk | Youtube-API-Analysis_documentation.py:30-38 | The loop over `response['items']` completes exactly when every item has all five paths. There is no `None` fallback. |
| ChannelStats.ChannelRecordsValues | Youtube-API-Analysis_documentation.py:30-38 | On success there is exactly one record per returned item, in response order, and record `k` is the record of item `k`. |
| ChannelStats.GetChannelStats | Youtube-API-Analysis_documentation.py:21-40 | Exactly one request is sent, its `id` parameter is the ids joined with `,`, and the result is the records of that request's answer. A failed request passes through. |
| PlaylistItems.IssuerFrom | Youtube-API-Analysis_documentation.py:84-91 | It finds the first page at or after `from` whose cursor is `t`, or reports that no such page exists. |
| PlaylistItems.ServeNext | Youtube-API-Analysis_documentation.py:84-91 | With distinct cursors, a request carrying page `c`'s `nextPageToken` is answered by page `c + 1`. If page `c` is the last, the request fails. |
| PlaylistItems.PageIdsSpec | Youtube-API-Analysis_documentation.py:81-82 | A page's loop succeeds exactly when every item has `contentDetails.videoId`. It then yields one id per item, in item order. |
| PlaylistItems.PageIdsAll | Youtube-API-Analysis_documentation.py:93-94 | When every item has an id, the page contributes exactly those ids. |
| PlaylistItems.AllIdsLength | Youtube-API-Analysis_documentation.py:72-98 | The collected ids number exactly the items over all pages. No id is dropped or merged. |
| PlaylistItems.CollectComplete | Youtube-API-Analysis_documentation.py:79-96 | From any page of a complete chain whose items all carry an id, collection yields the ids of that page and all later pages, page by page and item by item, with duplicates kept. |
| PlaylistItems.CollectChained | Youtube-API-Analysis_documentation.py:72-98 | On a listing where every page but the last carries a cursor, the last carries none and every item has an id, `get_video_ids` returns every id in page-then-item order, one per item. |
| PlaylistItems.ChainedVisitsAll | Youtube-API-Analysis_documentation.py:84-96 | On such a listing, a walk that stops at the first page without a cursor has visited every page. |
| PlaylistItems.AppendVideoIds | Youtube-API-Analysis_documentation.py:81-82 | The per-page loop appends that page's ids to the accumulator. It fails with the first item's error when an item lacks the path. |
| PlaylistItems.GetVideoIds | Youtube-API-Analysis_documentation.py:72-98 | The result equals the specification `Collect`. The first request has no token. Request `k` carries the cursor of page `k - 1`. Every page before the last one requested had all its ids read and carried a cursor. A failure comes from the last request: either no page answers it, or one of its page's items lacks an id. On success, the last visited page carried no cursor and no request was sent after it. On a complete listing, one request is sent per page. |
| VideoDetails.Slice | Youtube-API-Analysis_documentation.py:108 | `xs[lo:hi]` clamps both bounds to the length and yields the elements in order from `lo`. |
| VideoDetails.ChunksSpec | Youtube-API-Analysis_documentation.py:105-108 | The windows concatenate back to the input, in order. Each window holds 1 to 50 ids, and only the last may hold fewer. |
| VideoDetails.BatchCount | Youtube-API-Analysis_documentation.py:105 | `range(0, len(video_ids), 50)` yields ceil(len / 50) windows. |
| VideoDetails.StatsToKeepFields | Youtube-API-Analysis_documentation.py:113-121 | The nested loops over `stats_to_keep` perform exactly the twelve lookups of the flat field table, in dict order and then list order. |
| VideoDetails.VideoFieldsOk | Youtube-API-Analysis_documentation.py:113-118 | The twelve field names are pairwise distinct, and none of them is `video_id`. |
| VideoDetails.VideoFieldNames | Youtube-API-Analysis_documentation.py:113-116 | The record takes exactly the twelve names of `stats_to_keep` as keys. |
| VideoDetails.FillKeys | Youtube-API-Analysis_documentation.py:120-125 | The assignments `video_info[v] = ...` add exactly the assigned names to the dict's keys. |
| VideoDetails.FillSize | Youtube-API-Analysis_documentation.py:120-125 | When the names are distinct and new, each assignment adds a key and none overwrites another. |
| VideoDetails.FillValues | Youtube-API-Analysis_documentation.py:120-125 | When the names are distinct and new, every earlier key keeps its value and each name holds its own lookup's value. |
| VideoDetails.RecordKeys | Youtube-API-Analysis_documentation.py:117-125 | For any valid field table, the record's keys are `video_id` and the table's names, with one key per field plus one. |
| VideoDetails.RecordValues | Youtube-API-Analysis_documentation.py:117-125 | For any valid field table, `video_id` keeps its value and each field holds its lookup, or `None` when the lookup fails. |
| VideoDetails.VideoRecordKeys | Youtube-API-Analysis_documentation.py:117-125 | Every video record has exactly 13 keys: `video_id` and the twelve field names. |
| VideoDetails.VideoRecordValues | Youtube-API-Analysis_documentation.py:117-125 | `video_id` holds `video['id']`. Each field holds `video[group][field]` when both subscripts succeed and `None` otherwise, whatever happens to the other fields. |
| VideoDetails.AssignGroup | Youtube-API-Analysis_documentation.py:121-125 | The inner loop assigns one group's fields in list order, as the field table specifies. |
| VideoDetails.AssignGroups | Youtube-API-Analysis_documentation.py:120-125 | The outer loop assigns the groups' fields group after group, as the flattened table specifies. |
| VideoDetails.BuildVideoInfo | Youtube-API-Analysis_documentation.py:117-125 | Building `video_info` key by key gives exactly the specified record of the item. |
| VideoDetails.RecordsOfSpec | Youtube-API-Analysis_documentation.py:112-127 | A response gives exactly one record per returned item, in response order. A requested id that the service omits gives no record. The response fails only through an item without `id`. |
| VideoDetails.AppendVideoInfos | Youtube-API-Analysis_documentation.py:112-127 | The per-response loop appends one record per item to the accumulator. It raises on the first item without `id`. |
| VideoDetails.DetailsSpec | Youtube-API-Analysis_documentation.py:101-129 | The call succeeds exactly when every window's request and records succeed. Its records are then those of the windows, concatenated in window order. |
| VideoDetails.RequestBatch | Youtube-API-Analysis_documentation.py:106-127 | One window's turn sends the comma-joined window as `id` and appends the records of the answer. |
| VideoDetails.GetVideoDetails | Youtube-API-Analysis_documentation.py:101-129 | The result equals the specification `Details` over the 50-wide windows. Request `k` carries the comma-joined window `k`. Every window before the last one requested gave its records. A failure comes from the last window requested, and no request follows it. On success, exactly one request is sent per window. |

## Left out

- The API client and `request.execute()` are network I/O. They are replaced by the endpoint parameters above. Authentication, quota and retries belong to the client and are not modelled.
- The `part=` selector strings and `maxResults = 50` are request parameters that the local logic never reads, so they are not modelled. The first playlist request's `part` also differs from the later ones'. Only the 50 that drives the slicing at `range(0, len(video_ids), 50)` is modelled.
- The `playlistId` parameter is not modelled: the page sequence is the listing of one playlist.
- `pd.DataFrame(...)` is a foreign tabular library. The model returns the list of records that would be passed to it, so column order and dtype inference are not captured.
- Each video record is a map, so the insertion order of its keys is not modelled.
- JSON numbers are modelled as integers. The API returns counts as strings, and the model copies every value verbatim whatever its kind.
- A response is modelled by its `items` list, plus `nextPageToken` for playlist pages. A response without `items` would raise `KeyError` in Python; here it cannot occur, because the endpoint parameter always yields a list of items or a failure.
- PlaylistItems.GetVideoIds: requires pairwise distinct cursors. If a listing repeats a cursor, the source's `while` loop can revisit pages forever, and a terminating method cannot express that. The requirement also covers pages after the first page without a cursor, which the loop never reaches. So a listing such as `[Page(xs, None), Page([], Some("a")), Page([], Some("a"))]` is excluded, although the source stops there after one request.
- The docstring of `get_channel_stats` describes `get_video_ids` instead. No property is derived from it.
- As written, the file does not parse. The docstring at line 3 is indented by five spaces, but the body continues at four on line 21, so importing it raises `IndentationError`. The model reads line 3 as indented like line 21.
