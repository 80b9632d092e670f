/** `get_channel_stats`: one lookup request for all channel ids, comma-joined,
    and one flat record per returned item, read from five fixed nested paths.
    A missing key anywhere raises: there is no fallback here.
 */
module ChannelStats {
  import opened Responses
  import opened Text

  /** The dict built per item; every value is copied as returned (counts stay strings). */
  datatype ChannelRecord = ChannelRecord(
    channelName: Json,
    subscribers: Json,
    views: Json,
    totalVideos: Json,
    playlistId: Json)

  const TitlePath: seq<string> := ["snippet", "title"]
  const SubscribersPath: seq<string> := ["statistics", "subscriberCount"]
  const ViewsPath: seq<string> := ["statistics", "viewCount"]
  const VideosPath: seq<string> := ["statistics", "videoCount"]
  const UploadsPath: seq<string> := ["contentDetails", "relatedPlaylists", "uploads"]

  /** The dict display for one item: its values are evaluated left to right and the
      first missing path raises. */
  function ChannelRecordOf(item: Json): (r: Result<ChannelRecord>)
    ensures r.Ok? <==>
      && HasKey(item, "snippet") && HasKey(item.fields["snippet"], "title")
      && HasKey(item, "statistics")
      && HasKey(item.fields["statistics"], "subscriberCount")
      && HasKey(item.fields["statistics"], "viewCount")
      && HasKey(item.fields["statistics"], "videoCount")
      && HasKey(item, "contentDetails")
      && HasKey(item.fields["contentDetails"], "relatedPlaylists")
      && HasKey(item.fields["contentDetails"].fields["relatedPlaylists"], "uploads")
    ensures r.Ok? ==>
      && r.value.channelName == item.fields["snippet"].fields["title"]
      && r.value.subscribers == item.fields["statistics"].fields["subscriberCount"]
      && r.value.views == item.fields["statistics"].fields["viewCount"]
      && r.value.totalVideos == item.fields["statistics"].fields["videoCount"]
      && r.value.playlistId == item.fields["contentDetails"].fields["relatedPlaylists"].fields["uploads"]
    ensures r.Err? ==> r.error != TransportFailure
  {
    var name :- Lookup(item, TitlePath);
    var subscribers :- Lookup(item, SubscribersPath);
    var views :- Lookup(item, ViewsPath);
    var total :- Lookup(item, VideosPath);
    var uploads :- Lookup(item, UploadsPath);
    Ok(ChannelRecord(name, subscribers, views, total, uploads))
  }

  /** The records of a response's items, in order, or the error of the first bad item. */
  function ChannelRecords(items: seq<Json>): Result<seq<ChannelRecord>>
    decreases |items|
  {
    if |items| == 0 then Ok([])
    else
      var first :- ChannelRecordOf(items[0]);
      var rest :- ChannelRecords(items[1..]);
      Ok([first] + rest)
  }

  /** The whole call for the service's answer `response` to the one request it issues. */
  function ChannelStatsOf(response: Result<seq<Json>>): Result<seq<ChannelRecord>> {
    var items :- response;
    ChannelRecords(items)
  }

  /** The call fails exactly when some item lacks one of the five paths. */
  lemma {:induction false} ChannelRecordsOk(items: seq<Json>)
    ensures ChannelRecords(items).Ok? <==>
      forall k :: 0 <= k < |items| ==> ChannelRecordOf(items[k]).Ok?
    decreases |items|
  {
    if |items| > 0 {
      ChannelRecordsOk(items[1..]);
      if ChannelRecordOf(items[0]).Ok? && !ChannelRecords(items[1..]).Ok? {
        var k :| 0 <= k < |items[1..]| && !ChannelRecordOf(items[1..][k]).Ok?;
        assert items[k + 1] == items[1..][k];
      } else if ChannelRecordOf(items[0]).Ok? {
        forall k | 0 < k < |items| ensures ChannelRecordOf(items[k]).Ok? {
          assert items[1..][k - 1] == items[k];
        }
      }
    }
  }

  /** On success there is one record per item, in item order. */
  lemma {:induction false} ChannelRecordsValues(items: seq<Json>)
    requires ChannelRecords(items).Ok?
    ensures |ChannelRecords(items).value| == |items|
    ensures forall k :: 0 <= k < |items| ==>
      && ChannelRecordOf(items[k]).Ok?
      && ChannelRecords(items).value[k] == ChannelRecordOf(items[k]).value
    decreases |items|
  {
    if |items| > 0 {
      ChannelRecordsValues(items[1..]);
      forall k | 0 < k < |items|
        ensures ChannelRecordOf(items[k]).Ok?
        ensures ChannelRecords(items).value[k] == ChannelRecordOf(items[k]).value
      {
        assert items[1..][k - 1] == items[k];
      }
    }
  }

  /** Reading item `k` either raises or moves its record into the accumulator. */
  lemma ChannelRecordsStep(acc: seq<ChannelRecord>, items: seq<Json>, k: nat)
    requires k < |items|
    ensures AppendOk(acc, ChannelRecords(items[k..])) ==
      match ChannelRecordOf(items[k])
      case Err(e) => Err(e)
      case Ok(d) => AppendOk(acc + [d], ChannelRecords(items[k + 1..]))
  {
    assert items[k..][1..] == items[k + 1..];
    var rest := ChannelRecords(items[k + 1..]);
    if ChannelRecordOf(items[k]).Ok? && rest.Ok? {
      assert acc + ([ChannelRecordOf(items[k]).value] + rest.value)
          == (acc + [ChannelRecordOf(items[k]).value]) + rest.value;
    }
  }

  /** `get_channel_stats(youtube, channel_ids)`.  `channels` answers a channel lookup
      request, given its comma-joined `id` parameter, with the response's items.
      `sent` lists the `id` parameter of every request issued. */
  method GetChannelStats(channels: string -> Result<seq<Json>>, channelIds: seq<string>)
    returns (r: Result<seq<ChannelRecord>>, sent: seq<string>)
    ensures sent == [Join(",", channelIds)]
    ensures r == ChannelStatsOf(channels(Join(",", channelIds)))
  {
    var allData: seq<ChannelRecord> := [];
    var id := Join(",", channelIds);
    sent := [id];
    var response := channels(id);
    if response.Err? {
      return Err(response.error), sent;
    }
    var items := response.value;
    assert ChannelStatsOf(response) == ChannelRecords(items);
    var k := 0;
    assert items[k..] == items;
    AppendOkEmpty(ChannelRecords(items));
    while k < |items|
      invariant 0 <= k <= |items|
      invariant ChannelRecords(items) == AppendOk(allData, ChannelRecords(items[k..]))
    {
      ChannelRecordsStep(allData, items, k);
      var data := ChannelRecordOf(items[k]);
      if data.Err? {
        assert ChannelRecords(items) == Err(data.error);
        return Err(data.error), sent;
      }
      allData := allData + [data.value];
      k := k + 1;
    }
    assert items[k..] == [];
    assert ChannelRecords(items) == Ok(allData + []);
    assert allData + [] == allData;
    r := Ok(allData);
  }
}
