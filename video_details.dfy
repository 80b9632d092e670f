/** `get_video_details`: cut the video ids into consecutive windows of 50, issue
    one lookup request per window, and flatten every returned item into a record
    of 13 keys: `video_id` from the item's own `id`, and twelve fixed
    (group, field) lookups, each of which falls back to None on any failure.
 */
module VideoDetails {
  import opened Responses
  import opened Text

  /** The window width of `range(0, len(video_ids), 50)` and `video_ids[i:i+50]`. */
  const BatchSize: nat := 50

  // ---------------------------------------------------------------------------
  // Fixed-window batching

  /** Python's `xs[lo:hi]` for `0 <= lo <= hi`: both bounds are clamped to the length. */
  function Slice<T>(xs: seq<T>, lo: nat, hi: nat): (r: seq<T>)
    requires lo <= hi
    ensures |r| == (if hi <= |xs| then hi - lo else if lo <= |xs| then |xs| - lo else 0)
    ensures forall k :: 0 <= k < |r| ==> r[k] == xs[lo + k]
  {
    if |xs| <= lo then [] else if |xs| <= hi then xs[lo..] else xs[lo..hi]
  }

  /** Python's `xs[i:]`. */
  function Drop<T>(xs: seq<T>, i: nat): (r: seq<T>)
    ensures |r| == (if i <= |xs| then |xs| - i else 0)
    ensures forall k :: 0 <= k < |r| ==> r[k] == xs[i + k]
  {
    if i <= |xs| then xs[i..] else []
  }

  /** The windows `xs[0:n], xs[n:2n], ...` that the batching loop visits. */
  function Chunks<T>(xs: seq<T>, n: nat): seq<seq<T>>
    requires n > 0
    decreases |xs|
  {
    if |xs| == 0 then []
    else if |xs| <= n then [xs]
    else [xs[..n]] + Chunks(xs[n..], n)
  }

  function Flatten<T>(xss: seq<seq<T>>): seq<T>
    decreases |xss|
  {
    if |xss| == 0 then [] else xss[0] + Flatten(xss[1..])
  }

  /** Each window holds 1 to n elements, only the last may hold fewer than n, and
      together, in order, the windows are exactly `xs`. */
  lemma {:induction false} ChunksSpec<T>(xs: seq<T>, n: nat)
    requires n > 0
    ensures Flatten(Chunks(xs, n)) == xs
    ensures forall k :: 0 <= k < |Chunks(xs, n)| ==> 1 <= |Chunks(xs, n)[k]| <= n
    ensures forall k :: 0 <= k < |Chunks(xs, n)| - 1 ==> |Chunks(xs, n)[k]| == n
    decreases |xs|
  {
    var cs := Chunks(xs, n);
    if |xs| == 0 {
    } else if |xs| <= n {
      assert Flatten(cs) == xs + [];
    } else {
      var rest := Chunks(xs[n..], n);
      ChunksSpec(xs[n..], n);
      assert cs == [xs[..n]] + rest;
      assert cs[1..] == rest;
      assert xs[..n] + xs[n..] == xs;
      forall k | 0 < k < |cs|
        ensures 1 <= |cs[k]| <= n
        ensures k < |cs| - 1 ==> |cs[k]| == n
      {
        assert cs[k] == rest[k - 1];
      }
    }
  }

  /** The loop issues ceil(len(video_ids) / 50) requests. */
  lemma {:induction false} BatchCount<T>(xs: seq<T>)
    ensures |Chunks(xs, BatchSize)| == (|xs| + BatchSize - 1) / BatchSize
    decreases |xs|
  {
    if |xs| > BatchSize {
      BatchCount(xs[BatchSize..]);
    }
  }

  /** One turn of the batching loop: the window at `i` is `xs[i:i+n]` and the
      remaining windows are those of `xs[i+n:]`. */
  lemma ChunksStep<T>(xs: seq<T>, i: nat, n: nat)
    requires n > 0 && i < |xs|
    ensures Chunks(xs[i..], n) == [Slice(xs, i, i + n)] + Chunks(Drop(xs, i + n), n)
  {
    if |xs| - i <= n {
      assert Slice(xs, i, i + n) == xs[i..];
      assert Drop(xs, i + n) == [];
    } else {
      assert xs[i..][..n] == Slice(xs, i, i + n);
      assert xs[i..][n..] == Drop(xs, i + n);
    }
  }

  // ---------------------------------------------------------------------------
  // Flattening one item

  /** One (group, field) lookup of the record. */
  datatype Field = Field(group: string, name: string)

  /** `stats_to_keep`, in its dict order: group name and the fields read from it. */
  const StatsToKeep: seq<(string, seq<string>)> := [
    ("snippet", ["channelTitle", "title", "description", "tags", "publishedAt"]),
    ("statistics", ["viewCount", "likeCount", "favouriteCount", "commentCount"]),
    ("contentDetails", ["duration", "definition", "caption"])
  ]

  /** The same twelve lookups as one table, in the order the loops perform them. */
  const VideoFields: seq<Field> := [
    Field("snippet", "channelTitle"), Field("snippet", "title"),
    Field("snippet", "description"), Field("snippet", "tags"),
    Field("snippet", "publishedAt"),
    Field("statistics", "viewCount"), Field("statistics", "likeCount"),
    Field("statistics", "favouriteCount"), Field("statistics", "commentCount"),
    Field("contentDetails", "duration"), Field("contentDetails", "definition"),
    Field("contentDetails", "caption")
  ]

  function GroupFields(group: string, names: seq<string>): (r: seq<Field>)
    ensures |r| == |names|
    ensures forall j :: 0 <= j < |names| ==> r[j] == Field(group, names[j])
  {
    seq(|names|, j requires 0 <= j < |names| => Field(group, names[j]))
  }

  /** The lookups of the groups `gs`, group after group. */
  function FlattenGroups(gs: seq<(string, seq<string>)>): seq<Field>
    decreases |gs|
  {
    if |gs| == 0 then []
    else FlattenGroups(gs[..|gs| - 1]) + GroupFields(gs[|gs| - 1].0, gs[|gs| - 1].1)
  }

  /** The two nested loops over `stats_to_keep` perform exactly the twelve lookups of
      the table, in the table's order. */
  lemma StatsToKeepFields()
    ensures FlattenGroups(StatsToKeep) == VideoFields
  {
    var s := StatsToKeep;
    assert s[..0] == [] && s[..3] == s;
    FlattenGroupsSnoc(s, 0);
    FlattenGroupsSnoc(s, 1);
    FlattenGroupsSnoc(s, 2);
    GroupWindow(0, 0, 5);
    GroupWindow(1, 5, 9);
    GroupWindow(2, 9, 12);
    assert VideoFields == VideoFields[..5] + VideoFields[5..9] + VideoFields[9..];
  }

  /** Group `g` of `stats_to_keep` is the window `lo..hi` of the table. */
  lemma GroupWindow(g: nat, lo: nat, hi: nat)
    requires (g, lo, hi) in {(0, 0, 5), (1, 5, 9), (2, 9, 12)}
    ensures GroupFields(StatsToKeep[g].0, StatsToKeep[g].1) == VideoFields[lo..hi]
  {
  }

  /** The value the record gets for one lookup: `video[group][field]`, or None on failure. */
  function FieldValue(video: Json, f: Field): Json {
    TryLookup(video, f.group, f.name).GetOr(JNull)
  }

  type VideoInfo = map<string, Json>

  /** `video_info` after the assignments `video_info[f.name] = ...` for the fields `fs`,
      in order, starting from `info`. */
  function Fill(info: VideoInfo, video: Json, fs: seq<Field>): VideoInfo
    decreases |fs|
  {
    if |fs| == 0 then info
    else Fill(info, video, fs[..|fs| - 1])[fs[|fs| - 1].name := FieldValue(video, fs[|fs| - 1])]
  }

  /** The record for one returned item whose `id` is `id`. */
  function VideoRecord(video: Json, id: Json): VideoInfo {
    Fill(map["video_id" := id], video, VideoFields)
  }

  predicate NamesDistinct(fs: seq<Field>) {
    forall i, j :: 0 <= i < j < |fs| ==> fs[i].name != fs[j].name
  }

  function Names(fs: seq<Field>): set<string> {
    set f | f in fs :: f.name
  }

  /** The last field's name differs from every earlier one. */
  lemma LastNameFresh(fs: seq<Field>)
    requires |fs| > 0 && NamesDistinct(fs)
    ensures NamesDistinct(fs[..|fs| - 1])
    ensures fs[|fs| - 1].name !in Names(fs[..|fs| - 1])
  {
    var init := fs[..|fs| - 1];
    forall f | f in init
      ensures f.name != fs[|fs| - 1].name
    {
      var i :| 0 <= i < |init| && init[i] == f;
      assert fs[i] == f;
    }
  }

  /** One more assignment at the end of the table. */
  lemma FillSnoc(info: VideoInfo, video: Json, fs: seq<Field>, f: Field)
    ensures Fill(info, video, fs + [f]) == Fill(info, video, fs)[f.name := FieldValue(video, f)]
  {
    assert (fs + [f])[..|fs|] == fs;
  }

  /** One more group at the end of the groups. */
  lemma FlattenGroupsSnoc(gs: seq<(string, seq<string>)>, g: nat)
    requires g < |gs|
    ensures FlattenGroups(gs[..g + 1]) == FlattenGroups(gs[..g]) + GroupFields(gs[g].0, gs[g].1)
  {
    assert gs[..g + 1][..g] == gs[..g];
  }

  /** The names of `fs` are those of all but its last field, plus the last one's. */
  lemma NamesSnoc(fs: seq<Field>)
    requires |fs| > 0
    ensures Names(fs) == Names(fs[..|fs| - 1]) + {fs[|fs| - 1].name}
  {
    var init, last := fs[..|fs| - 1], fs[|fs| - 1];
    assert fs == init + [last];
    forall x | x in Names(fs) ensures x in Names(init) + {last.name} {
      var f :| f in fs && f.name == x;
      var i :| 0 <= i < |fs| && fs[i] == f;
      if i < |fs| - 1 {
        assert init[i] == f;
      }
    }
    forall x | x in Names(init) ensures x in Names(fs) {
      var f :| f in init && f.name == x;
      var i :| 0 <= i < |init| && init[i] == f;
      assert fs[i] == f;
    }
  }

  /** The assignments add exactly the names of `fs` to the keys. */
  lemma {:induction false} FillKeys(info: VideoInfo, video: Json, fs: seq<Field>)
    ensures Fill(info, video, fs).Keys == info.Keys + Names(fs)
    decreases |fs|
  {
    if |fs| > 0 {
      NamesSnoc(fs);
      FillKeys(info, video, fs[..|fs| - 1]);
    } else {
      assert Names(fs) == {};
    }
  }

  /** With distinct names, every assignment adds a key of its own and none overwrites. */
  lemma {:induction false} FillSize(info: VideoInfo, video: Json, fs: seq<Field>)
    requires NamesDistinct(fs)
    requires info.Keys !! Names(fs)
    ensures |Fill(info, video, fs)| == |info| + |fs|
    decreases |fs|
  {
    if |fs| > 0 {
      var init, last := fs[..|fs| - 1], fs[|fs| - 1];
      var before := Fill(info, video, init);
      assert last.name !in before.Keys by {
        LastNameFresh(fs);
        NamesSnoc(fs);
        FillKeys(info, video, init);
      }
      assert |before| == |info| + |init| by {
        LastNameFresh(fs);
        NamesSnoc(fs);
        FillSize(info, video, init);
      }
    }
  }

  /** Each assigned key holds its own field's value, and the starting keys keep theirs. */
  lemma {:induction false} FillValues(info: VideoInfo, video: Json, fs: seq<Field>)
    requires NamesDistinct(fs)
    requires info.Keys !! Names(fs)
    ensures forall k :: k in info ==> k in Fill(info, video, fs) && Fill(info, video, fs)[k] == info[k]
    ensures forall f :: f in fs ==>
      f.name in Fill(info, video, fs) && Fill(info, video, fs)[f.name] == FieldValue(video, f)
    decreases |fs|
  {
    if |fs| > 0 {
      var init, last := fs[..|fs| - 1], fs[|fs| - 1];
      LastNameFresh(fs);
      FillValues(info, video, init);
      forall f | f in fs
        ensures f.name in Fill(info, video, fs) && Fill(info, video, fs)[f.name] == FieldValue(video, f)
      {
        if f != last {
          var i :| 0 <= i < |fs| && fs[i] == f;
          assert i < |fs| - 1 && init[i] == f;
        }
      }
    }
  }

  /** A field table whose names are pairwise distinct and never `video_id`. */
  predicate TableOk(fs: seq<Field>) {
    NamesDistinct(fs) && "video_id" !in Names(fs)
  }

  lemma VideoFieldsOk()
    ensures TableOk(VideoFields)
  {
  }

  /** The twelve names the record takes from the table. */
  lemma VideoFieldNames()
    ensures Names(VideoFields) == {
      "channelTitle", "title", "description", "tags", "publishedAt",
      "viewCount", "likeCount", "favouriteCount", "commentCount",
      "duration", "definition", "caption" }
  {
    NamesWithin();
    NamesCover();
  }

  lemma NamesWithin()
    ensures Names(VideoFields) <= {
      "channelTitle", "title", "description", "tags", "publishedAt",
      "viewCount", "likeCount", "favouriteCount", "commentCount",
      "duration", "definition", "caption" }
  {
  }

  lemma NamesCover()
    ensures {
      "channelTitle", "title", "description", "tags", "publishedAt",
      "viewCount", "likeCount", "favouriteCount", "commentCount",
      "duration", "definition", "caption" } <= Names(VideoFields)
  {
    var fs := VideoFields;
    assert fs[0] in fs && fs[1] in fs && fs[2] in fs && fs[3] in fs;
    assert fs[4] in fs && fs[5] in fs && fs[6] in fs && fs[7] in fs;
    assert fs[8] in fs && fs[9] in fs && fs[10] in fs && fs[11] in fs;
  }

  /** Starting from `video_id` alone, a valid table adds one key per field. */
  lemma RecordKeys(video: Json, id: Json, fs: seq<Field>)
    requires TableOk(fs)
    ensures Fill(map["video_id" := id], video, fs).Keys == {"video_id"} + Names(fs)
    ensures |Fill(map["video_id" := id], video, fs)| == 1 + |fs|
  {
    FillKeys(map["video_id" := id], video, fs);
    FillSize(map["video_id" := id], video, fs);
  }

  /** Starting from `video_id` alone, a valid table keeps the id and gives each field
      its lookup or None. */
  lemma RecordValues(video: Json, id: Json, fs: seq<Field>)
    requires TableOk(fs)
    ensures "video_id" in Fill(map["video_id" := id], video, fs)
    ensures Fill(map["video_id" := id], video, fs)["video_id"] == id
    ensures forall f :: f in fs ==>
      && f.name in Fill(map["video_id" := id], video, fs)
      && Fill(map["video_id" := id], video, fs)[f.name] ==
           if HasKey(video, f.group) && HasKey(video.fields[f.group], f.name)
           then video.fields[f.group].fields[f.name]
           else JNull
  {
    FillValues(map["video_id" := id], video, fs);
  }

  /** Every record has exactly 13 keys: `video_id` and the twelve field names, which do
      not collide, so no assignment overwrites another. */
  lemma VideoRecordKeys(video: Json, id: Json)
    ensures VideoRecord(video, id).Keys == {"video_id"} + Names(VideoFields)
    ensures |VideoRecord(video, id)| == 13
  {
    VideoFieldsOk();
    RecordKeys(video, id, VideoFields);
  }

  /** `video_id` holds the item's own id, and each field name holds `video[group][field]`
      when that lookup succeeds and None otherwise, independently of every other field. */
  lemma VideoRecordValues(video: Json, id: Json)
    ensures "video_id" in VideoRecord(video, id) && VideoRecord(video, id)["video_id"] == id
    ensures forall f :: f in VideoFields ==>
      && f.name in VideoRecord(video, id)
      && VideoRecord(video, id)[f.name] ==
           if HasKey(video, f.group) && HasKey(video.fields[f.group], f.name)
           then video.fields[f.group].fields[f.name]
           else JNull
  {
    VideoFieldsOk();
    RecordValues(video, id, VideoFields);
  }

  /** Assigning `fs` and then `gs` is assigning `fs + gs`. */
  lemma {:induction false} FillAppend(info: VideoInfo, video: Json, fs: seq<Field>, gs: seq<Field>)
    ensures Fill(info, video, fs + gs) == Fill(Fill(info, video, fs), video, gs)
    decreases |gs|
  {
    if |gs| == 0 {
      assert fs + gs == fs;
    } else {
      var init, last := gs[..|gs| - 1], gs[|gs| - 1];
      assert fs + gs == (fs + init) + [last];
      assert gs == init + [last];
      FillAppend(info, video, fs, init);
      FillSnoc(info, video, fs + init, last);
      FillSnoc(Fill(info, video, fs), video, init, last);
    }
  }

  /** The inner loop `for v in stats_to_keep[k]:` over one group's field names. */
  method AssignGroup(start: VideoInfo, video: Json, group: string, names: seq<string>)
    returns (info: VideoInfo)
    ensures info == Fill(start, video, GroupFields(group, names))
  {
    info := start;
    var j := 0;
    assert GroupFields(group, names)[..0] == [];
    while j < |names|
      invariant 0 <= j <= |names|
      invariant info == Fill(start, video, GroupFields(group, names)[..j])
    {
      assert GroupFields(group, names)[..j + 1]
          == GroupFields(group, names)[..j] + [Field(group, names[j])];
      FillSnoc(start, video, GroupFields(group, names)[..j], Field(group, names[j]));
      info := info[names[j] := TryLookup(video, group, names[j]).GetOr(JNull)];
      j := j + 1;
    }
    assert GroupFields(group, names)[..j] == GroupFields(group, names);
  }

  /** The outer loop `for k in stats_to_keep.keys():`, which assigns the fields of each
      group in turn. */
  method AssignGroups(start: VideoInfo, video: Json, groups: seq<(string, seq<string>)>)
    returns (info: VideoInfo)
    ensures info == Fill(start, video, FlattenGroups(groups))
  {
    info := start;
    var g := 0;
    assert groups[..0] == [];
    while g < |groups|
      invariant 0 <= g <= |groups|
      invariant info == Fill(start, video, FlattenGroups(groups[..g]))
    {
      FlattenGroupsSnoc(groups, g);
      FillAppend(start, video, FlattenGroups(groups[..g]), GroupFields(groups[g].0, groups[g].1));
      info := AssignGroup(info, video, groups[g].0, groups[g].1);
      g := g + 1;
    }
    assert groups[..g] == groups;
  }

  /** Builds `video_info`: `video_id` first, then the lookups of `stats_to_keep`. */
  method BuildVideoInfo(video: Json, id: Json) returns (info: VideoInfo)
    ensures info == VideoRecord(video, id)
  {
    info := map[];
    info := info["video_id" := id];
    info := AssignGroups(info, video, StatsToKeep);
    StatsToKeepFields();
  }

  // ---------------------------------------------------------------------------
  // Records of a response and of the whole call

  /** `video['id']` (outside the try: a missing id raises), then the record. */
  function VideoInfoOf(video: Json): Result<VideoInfo> {
    var id :- Subscript(video, "id");
    Ok(VideoRecord(video, id))
  }

  /** The records of one response's items, in order, or the first item's error. */
  function RecordsOf(items: seq<Json>): Result<seq<VideoInfo>>
    decreases |items|
  {
    if |items| == 0 then Ok([])
    else
      var info :- VideoInfoOf(items[0]);
      var rest :- RecordsOf(items[1..]);
      Ok([info] + rest)
  }

  /** Exactly one record per returned item, in response order; the response fails only
      through an item without a usable `id`. */
  lemma {:induction false} RecordsOfSpec(items: seq<Json>)
    ensures RecordsOf(items).Ok? <==> forall k :: 0 <= k < |items| ==> HasKey(items[k], "id")
    ensures RecordsOf(items).Ok? ==>
      && |RecordsOf(items).value| == |items|
      && forall k :: 0 <= k < |items| ==>
           RecordsOf(items).value[k] == VideoRecord(items[k], items[k].fields["id"])
    decreases |items|
  {
    if |items| > 0 {
      RecordsOfSpec(items[1..]);
      if HasKey(items[0], "id") && RecordsOf(items[1..]).Ok? {
        forall k | 0 < k < |items|
          ensures RecordsOf(items).value[k] == VideoRecord(items[k], items[k].fields["id"])
        {
          assert items[1..][k - 1] == items[k];
        }
      } else if HasKey(items[0], "id") {
        var k :| 0 <= k < |items[1..]| && !HasKey(items[1..][k], "id");
        assert items[k + 1] == items[1..][k];
      }
    }
  }

  /** The records for one window: the service's answer to its comma-joined ids. */
  function BatchRecords(videos: string -> Result<seq<Json>>, batch: seq<string>): Result<seq<VideoInfo>> {
    var items :- videos(Join(",", batch));
    RecordsOf(items)
  }

  /** The records of all windows, window after window, or the first failure. */
  function Details(videos: string -> Result<seq<Json>>, batches: seq<seq<string>>): Result<seq<VideoInfo>>
    decreases |batches|
  {
    if |batches| == 0 then Ok([])
    else
      var infos :- BatchRecords(videos, batches[0]);
      var rest :- Details(videos, batches[1..]);
      Ok(infos + rest)
  }

  /** The call succeeds exactly when every window does, and then its records are those of
      the windows concatenated in window order. */
  lemma {:induction false} DetailsSpec(videos: string -> Result<seq<Json>>, batches: seq<seq<string>>)
    ensures Details(videos, batches).Ok? <==>
      forall k :: 0 <= k < |batches| ==> BatchRecords(videos, batches[k]).Ok?
    ensures Details(videos, batches).Ok? ==>
      Details(videos, batches).value ==
        Flatten(seq(|batches|, k requires 0 <= k < |batches| && BatchRecords(videos, batches[k]).Ok? =>
          BatchRecords(videos, batches[k]).value))
    decreases |batches|
  {
    if |batches| > 0 {
      DetailsSpec(videos, batches[1..]);
      if BatchRecords(videos, batches[0]).Ok? && Details(videos, batches[1..]).Ok? {
        var whole := seq(|batches|, k requires 0 <= k < |batches| && BatchRecords(videos, batches[k]).Ok? =>
          BatchRecords(videos, batches[k]).value);
        var tail := seq(|batches[1..]|, k requires 0 <= k < |batches[1..]| && BatchRecords(videos, batches[1..][k]).Ok? =>
          BatchRecords(videos, batches[1..][k]).value);
        assert whole[1..] == tail;
      } else if BatchRecords(videos, batches[0]).Ok? {
        var k :| 0 <= k < |batches[1..]| && !BatchRecords(videos, batches[1..][k]).Ok?;
        assert batches[k + 1] == batches[1..][k];
      }
    }
  }

  /** Reading item `k` either raises or moves its record into the accumulator. */
  lemma RecordsStep(acc: seq<VideoInfo>, items: seq<Json>, k: nat)
    requires k < |items|
    ensures AppendOk(acc, RecordsOf(items[k..])) ==
      match VideoInfoOf(items[k])
      case Err(e) => Err(e)
      case Ok(info) => AppendOk(acc + [info], RecordsOf(items[k + 1..]))
  {
    assert items[k..][1..] == items[k + 1..];
    var rest := RecordsOf(items[k + 1..]);
    if VideoInfoOf(items[k]).Ok? && rest.Ok? {
      assert acc + ([VideoInfoOf(items[k]).value] + rest.value)
          == (acc + [VideoInfoOf(items[k]).value]) + rest.value;
    }
  }

  /** `for video in response['items']: ... all_video_info.append(video_info)`. */
  method AppendVideoInfos(acc: seq<VideoInfo>, items: seq<Json>) returns (r: Result<seq<VideoInfo>>)
    ensures r == AppendOk(acc, RecordsOf(items))
  {
    var allVideoInfo := acc;
    var k := 0;
    assert items[k..] == items;
    while k < |items|
      invariant 0 <= k <= |items|
      invariant AppendOk(acc, RecordsOf(items)) == AppendOk(allVideoInfo, RecordsOf(items[k..]))
    {
      RecordsStep(allVideoInfo, items, k);
      var video := items[k];
      var id := Subscript(video, "id");
      if id.Err? {
        return Err(id.error);
      }
      var videoInfo := BuildVideoInfo(video, id.value);
      allVideoInfo := allVideoInfo + [videoInfo];
      k := k + 1;
    }
    assert items[k..] == [];
    assert allVideoInfo + [] == allVideoInfo;
    r := Ok(allVideoInfo);
  }

  /** Handling window `k` either fails or moves its records into the accumulator. */
  lemma DetailsStep(videos: string -> Result<seq<Json>>, acc: seq<VideoInfo>, batches: seq<seq<string>>, k: nat)
    requires k < |batches|
    ensures AppendOk(acc, Details(videos, batches[k..])) ==
      match AppendOk(acc, BatchRecords(videos, batches[k]))
      case Err(e) => Err(e)
      case Ok(more) => AppendOk(more, Details(videos, batches[k + 1..]))
  {
    assert batches[k..][1..] == batches[k + 1..];
    var first := BatchRecords(videos, batches[k]);
    var rest := Details(videos, batches[k + 1..]);
    if first.Ok? && rest.Ok? {
      assert acc + (first.value + rest.value) == (acc + first.value) + rest.value;
    }
  }

  /** The body of the batching loop for one window: join its ids, issue the request,
      and append a record per returned item. */
  method RequestBatch(videos: string -> Result<seq<Json>>, acc: seq<VideoInfo>, batch: seq<string>)
    returns (r: Result<seq<VideoInfo>>, id: string)
    ensures id == Join(",", batch)
    ensures r == AppendOk(acc, BatchRecords(videos, batch))
  {
    id := Join(",", batch);
    var response := videos(id);
    if response.Err? {
      return Err(response.error), id;
    }
    r := AppendVideoInfos(acc, response.value);
  }

  /** One turn of the batching loop, seen from the windows still to be visited. */
  lemma WindowStep(xs: seq<string>, i: nat, batches: seq<seq<string>>, s: nat)
    requires i < |xs| && s <= |batches|
    requires batches[s..] == Chunks(Drop(xs, i), BatchSize)
    ensures s < |batches| && batches[s] == Slice(xs, i, i + BatchSize)
    ensures batches[s + 1..] == Chunks(Drop(xs, i + BatchSize), BatchSize)
  {
    ChunksStep(xs, i, BatchSize);
    assert Drop(xs, i) == xs[i..];
    assert batches[s..][1..] == batches[s + 1..];
  }

  /** The requests issued so far are the joins of the first windows, in order. */
  ghost predicate Sent(batches: seq<seq<string>>, sent: seq<string>) {
    && |sent| <= |batches|
    && forall k :: 0 <= k < |sent| ==> sent[k] == Join(",", batches[k])
  }

  /** The batching loop's invariant: `|sent|` windows handled, the next starting at id
      `i`, and the records gathered so far followed by those of the remaining windows
      make up the whole answer. */
  ghost predicate Progress(videos: string -> Result<seq<Json>>, xs: seq<string>,
                           batches: seq<seq<string>>, i: nat, sent: seq<string>, acc: seq<VideoInfo>)
  {
    && Sent(batches, sent)
    && batches[|sent|..] == Chunks(Drop(xs, i), BatchSize)
    && Details(videos, batches) == AppendOk(acc, Details(videos, batches[|sent|..]))
  }

  lemma ProgressInit(videos: string -> Result<seq<Json>>, xs: seq<string>)
    ensures Progress(videos, xs, Chunks(xs, BatchSize), 0, [], [])
  {
    var batches := Chunks(xs, BatchSize);
    assert Drop(xs, 0) == xs;
    assert batches[0..] == batches;
    AppendOkEmpty(Details(videos, batches));
  }

  /** One turn of the loop: the window at `i` is the next one; its request extends the
      trace, and its records either fail the whole call or extend the accumulator. */
  lemma ProgressStep(videos: string -> Result<seq<Json>>, xs: seq<string>,
                     batches: seq<seq<string>>, i: nat, sent: seq<string>, acc: seq<VideoInfo>)
    requires i < |xs| && Progress(videos, xs, batches, i, sent, acc)
    ensures Sent(batches, sent + [Join(",", Slice(xs, i, i + BatchSize))])
    ensures match AppendOk(acc, BatchRecords(videos, Slice(xs, i, i + BatchSize)))
      case Err(e) => Details(videos, batches) == Err(e)
      case Ok(more) =>
        Progress(videos, xs, batches, i + BatchSize, sent + [Join(",", Slice(xs, i, i + BatchSize))], more)
  {
    WindowStep(xs, i, batches, |sent|);
    DetailsStep(videos, acc, batches, |sent|);
  }

  /** When no id is left, every window has been handled and the accumulator is the answer. */
  lemma ProgressDone(videos: string -> Result<seq<Json>>, xs: seq<string>,
                     batches: seq<seq<string>>, i: nat, sent: seq<string>, acc: seq<VideoInfo>)
    requires |xs| <= i && Progress(videos, xs, batches, i, sent, acc)
    ensures |sent| == |batches|
    ensures Details(videos, batches) == Ok(acc)
  {
    assert Drop(xs, i) == [];
    assert batches[|sent|..] == [];
    assert acc + [] == acc;
  }

  /** `get_video_details(youtube, video_ids)`.  `videos` answers a video lookup request,
      given its comma-joined `id` parameter, with the response's items.  `sent` lists the
      `id` parameter of every request issued, in order. */
  method GetVideoDetails(videos: string -> Result<seq<Json>>, videoIds: seq<string>)
    returns (r: Result<seq<VideoInfo>>, sent: seq<string>)
    ensures r == Details(videos, Chunks(videoIds, BatchSize))
    ensures |sent| <= |Chunks(videoIds, BatchSize)|
    ensures forall k :: 0 <= k < |sent| ==> sent[k] == Join(",", Chunks(videoIds, BatchSize)[k])
    ensures r.Ok? ==> |sent| == |Chunks(videoIds, BatchSize)|
    ensures forall k :: 0 <= k < |sent| - 1 ==> BatchRecords(videos, Chunks(videoIds, BatchSize)[k]).Ok?
    ensures r.Err? ==> 0 < |sent| && BatchRecords(videos, Chunks(videoIds, BatchSize)[|sent| - 1]).Err?
  {
    ghost var batches := Chunks(videoIds, BatchSize);
    var allVideoInfo: seq<VideoInfo> := [];
    sent := [];
    var i := 0;
    ProgressInit(videos, videoIds);
    while i < |videoIds|
      invariant Progress(videos, videoIds, batches, i, sent, allVideoInfo)
      invariant forall k :: 0 <= k < |sent| ==> BatchRecords(videos, batches[k]).Ok?
      decreases |videoIds| - i
    {
      var batch := Slice(videoIds, i, i + BatchSize);
      WindowStep(videoIds, i, batches, |sent|);
      ProgressStep(videos, videoIds, batches, i, sent, allVideoInfo);
      var appended, id := RequestBatch(videos, allVideoInfo, batch);
      sent := sent + [id];
      if appended.Err? {
        return Err(appended.error), sent;
      }
      allVideoInfo := appended.value;
      i := i + BatchSize;
    }
    ProgressDone(videos, videoIds, batches, i, sent, allVideoInfo);
    r := Ok(allVideoInfo);
  }
}
