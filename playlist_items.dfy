/** `get_video_ids`: collect every item's `contentDetails.videoId` from a
    cursor-paginated playlist listing, following `nextPageToken` until a page
    comes back without one.

    The remote listing is modelled as a finite sequence of pages.  A request
    without a page token is answered by the first page; a request carrying a
    token is answered by the page after the first page that issued that token.
    A request the listing cannot answer (no pages at all, or a token that no
    page is followed by) is a transport failure and passes through.
 */
module PlaylistItems {
  import opened Responses

  type Token = string

  /** One response of the listing: its items and its continuation cursor. */
  datatype Page = Page(items: seq<Json>, nextPageToken: Option<Token>)

  /** No two pages issue the same cursor, so every cursor names one page. */
  predicate DistinctTokens(pages: seq<Page>) {
    forall i, j :: 0 <= i < j < |pages| && pages[i].nextPageToken.Some? ==>
      pages[i].nextPageToken != pages[j].nextPageToken
  }

  /** Index of the first page at or after `from` whose cursor is `t`. */
  function IssuerFrom(pages: seq<Page>, t: Token, from: nat): (r: Option<nat>)
    requires from <= |pages|
    ensures r.Some? ==>
      && from <= r.value < |pages|
      && pages[r.value].nextPageToken == Some(t)
      && forall k :: from <= k < r.value ==> pages[k].nextPageToken != Some(t)
    ensures r.None? ==> forall k :: from <= k < |pages| ==> pages[k].nextPageToken != Some(t)
    decreases |pages| - from
  {
    if from == |pages| then None
    else if pages[from].nextPageToken == Some(t) then Some(from)
    else IssuerFrom(pages, t, from + 1)
  }

  /** The listing's answer to one request (`request.execute()`). */
  function Serve(pages: seq<Page>, pageToken: Option<Token>): Result<Page> {
    match pageToken
    case None => if |pages| == 0 then Err(TransportFailure) else Ok(pages[0])
    case Some(t) =>
      match IssuerFrom(pages, t, 0)
      case Some(j) => if j + 1 < |pages| then Ok(pages[j + 1]) else Err(TransportFailure)
      case None => Err(TransportFailure)
  }

  /** With distinct cursors, the cursor of page `c` is answered by page `c + 1`. */
  lemma ServeNext(pages: seq<Page>, c: nat)
    requires DistinctTokens(pages)
    requires c < |pages| && pages[c].nextPageToken.Some?
    ensures Serve(pages, pages[c].nextPageToken) ==
      if c + 1 < |pages| then Ok(pages[c + 1]) else Err(TransportFailure)
  {
    var found := IssuerFrom(pages, pages[c].nextPageToken.value, 0);
    assert found == Some(c);
  }

  /** `item['contentDetails']['videoId']`. */
  function VideoIdOf(item: Json): Result<Json> {
    Lookup(item, ["contentDetails", "videoId"])
  }

  /** The ids of one page's items, in order, or the error of the first bad item. */
  function PageIds(items: seq<Json>): Result<seq<Json>>
    decreases |items|
  {
    if |items| == 0 then Ok([])
    else
      var id :- VideoIdOf(items[0]);
      var rest :- PageIds(items[1..]);
      Ok([id] + rest)
  }

  /** The ids from page `c` on: the page's own, then those its cursor leads to. */
  function CollectFrom(pages: seq<Page>, c: nat): Result<seq<Json>>
    requires c < |pages|
    decreases |pages| - c, 1
  {
    var ids :- PageIds(pages[c].items);
    var rest :- Continue(pages, c);
    Ok(ids + rest)
  }

  /** The ids that follow page `c`: none when it has no cursor, otherwise those from
      the next page, and a failure when the cursor leads nowhere. */
  function Continue(pages: seq<Page>, c: nat): Result<seq<Json>>
    requires c < |pages|
    decreases |pages| - c, 0
  {
    match pages[c].nextPageToken
    case None => Ok([])
    case Some(_) => if c + 1 < |pages| then CollectFrom(pages, c + 1) else Err(TransportFailure)
  }

  /** What `get_video_ids` returns, stated over page positions. */
  function Collect(pages: seq<Page>): Result<seq<Json>> {
    if |pages| == 0 then Err(TransportFailure) else CollectFrom(pages, 0)
  }

  /** A complete listing: every page but the last has a cursor, the last has none. */
  predicate Chained(pages: seq<Page>) {
    && |pages| > 0
    && (forall k :: 0 <= k < |pages| - 1 ==> pages[k].nextPageToken.Some?)
    && pages[|pages| - 1].nextPageToken.None?
  }

  /** Every item of every page has a `contentDetails.videoId`. */
  predicate AllHaveIds(pages: seq<Page>) {
    forall k, j :: 0 <= k < |pages| && 0 <= j < |pages[k].items| ==>
      VideoIdOf(pages[k].items[j]).Ok?
  }

  /** The ids of the pages' items, page after page and item after item. */
  function AllIds(pages: seq<Page>): seq<Json>
    requires AllHaveIds(pages)
    decreases |pages|
  {
    if |pages| == 0 then []
    else IdsOf(pages[0].items) + AllIds(pages[1..])
  }

  /** The ids of items that all carry one, item by item. */
  function IdsOf(items: seq<Json>): (r: seq<Json>)
    requires forall j :: 0 <= j < |items| ==> VideoIdOf(items[j]).Ok?
    ensures |r| == |items|
    ensures forall j :: 0 <= j < |items| ==> r[j] == VideoIdOf(items[j]).value
  {
    seq(|items|, j requires 0 <= j < |items| => VideoIdOf(items[j]).value)
  }

  /** Every suffix of a listing whose items carry ids has the same property. */
  lemma AllHaveIdsSuffix(pages: seq<Page>, c: nat)
    requires AllHaveIds(pages) && c <= |pages|
    ensures AllHaveIds(pages[c..])
  {
    forall k, j | 0 <= k < |pages[c..]| && 0 <= j < |pages[c..][k].items|
      ensures VideoIdOf(pages[c..][k].items[j]).Ok?
    {
      assert pages[c..][k] == pages[c + k];
    }
  }

  /** The number of items over all pages. */
  function ItemCount(pages: seq<Page>): nat
    decreases |pages|
  {
    if |pages| == 0 then 0 else |pages[0].items| + ItemCount(pages[1..])
  }

  /** A page yields one id per item, in item order, and fails exactly when an item has none. */
  lemma {:induction false} PageIdsSpec(items: seq<Json>)
    ensures PageIds(items).Ok? <==> forall j :: 0 <= j < |items| ==> VideoIdOf(items[j]).Ok?
    ensures PageIds(items).Ok? ==>
      && |PageIds(items).value| == |items|
      && forall j :: 0 <= j < |items| ==> PageIds(items).value[j] == VideoIdOf(items[j]).value
    decreases |items|
  {
    if |items| > 0 {
      PageIdsSpec(items[1..]);
      if VideoIdOf(items[0]).Ok? && PageIds(items[1..]).Ok? {
        forall j | 0 < j < |items|
          ensures PageIds(items).value[j] == VideoIdOf(items[j]).value
        {
          assert items[1..][j - 1] == items[j];
        }
      } else if VideoIdOf(items[0]).Ok? {
        var j :| 0 <= j < |items[1..]| && !VideoIdOf(items[1..][j]).Ok?;
        assert items[j + 1] == items[1..][j];
      }
    }
  }

  /** A page whose items all carry ids yields exactly those ids. */
  lemma {:induction false} PageIdsAll(items: seq<Json>)
    requires forall j :: 0 <= j < |items| ==> VideoIdOf(items[j]).Ok?
    ensures PageIds(items) == Ok(IdsOf(items))
    decreases |items|
  {
    if |items| > 0 {
      var rest := items[1..];
      assert forall j :: 0 <= j < |rest| ==> rest[j] == items[j + 1];
      PageIdsAll(rest);
      assert IdsOf(items) == [VideoIdOf(items[0]).value] + IdsOf(rest);
    }
  }

  lemma {:induction false} AllIdsLength(pages: seq<Page>)
    requires AllHaveIds(pages)
    ensures |AllIds(pages)| == ItemCount(pages)
    decreases |pages|
  {
    if |pages| > 0 {
      AllHaveIdsSuffix(pages, 1);
      AllIdsLength(pages[1..]);
    }
  }

  /** On a complete listing whose items all carry ids, collection returns every id,
      page by page and item by item, with nothing dropped or merged. */
  lemma {:induction false} CollectComplete(pages: seq<Page>, c: nat)
    requires Chained(pages) && AllHaveIds(pages)
    requires c < |pages|
    ensures AllHaveIds(pages[c..])
    ensures CollectFrom(pages, c) == Ok(AllIds(pages[c..]))
    decreases |pages| - c
  {
    AllHaveIdsSuffix(pages, c);
    var items := pages[c].items;
    assert forall j :: 0 <= j < |items| ==> VideoIdOf(items[j]).Ok?;
    PageIdsAll(items);
    assert pages[c..][0] == pages[c] && pages[c..][1..] == pages[c + 1..];
    AllHaveIdsSuffix(pages, c + 1);
    assert AllIds(pages[c..]) == IdsOf(items) + AllIds(pages[c + 1..]);
    if c + 1 < |pages| {
      CollectComplete(pages, c + 1);
      assert Continue(pages, c) == CollectFrom(pages, c + 1);
    } else {
      assert AllIds(pages[c + 1..]) == [];
      assert Continue(pages, c) == Ok([]);
      assert IdsOf(items) + [] == IdsOf(items);
    }
  }

  /** Appends the ids of `items` to `acc`, one item at a time
      (`for item in response['items']: video_ids.append(...)`). */
  method AppendVideoIds(acc: seq<Json>, items: seq<Json>) returns (r: Result<seq<Json>>)
    ensures r == AppendOk(acc, PageIds(items))
  {
    var videoIds := acc;
    var j := 0;
    assert items[j..] == items;
    while j < |items|
      invariant 0 <= j <= |items|
      invariant AppendOk(acc, PageIds(items)) == AppendOk(videoIds, PageIds(items[j..]))
    {
      assert items[j..][1..] == items[j + 1..];
      var id := VideoIdOf(items[j]);
      if id.Err? {
        return Err(id.error);
      }
      assert PageIds(items[j..]) == AppendOk([id.value], PageIds(items[j + 1..]));
      if PageIds(items[j + 1..]).Ok? {
        assert videoIds + ([id.value] + PageIds(items[j + 1..]).value)
            == (videoIds + [id.value]) + PageIds(items[j + 1..]).value;
      }
      videoIds := videoIds + [id.value];
      j := j + 1;
    }
    assert items[j..] == [];
    assert videoIds + [] == videoIds;
    r := Ok(videoIds);
  }

  /** On a complete listing whose items all carry ids, `get_video_ids` returns one id
      per item, page after page. */
  lemma CollectChained(pages: seq<Page>)
    requires Chained(pages) && AllHaveIds(pages)
    ensures Collect(pages) == Ok(AllIds(pages))
    ensures |AllIds(pages)| == ItemCount(pages)
  {
    CollectComplete(pages, 0);
    assert pages[0..] == pages;
    AllIdsLength(pages);
  }

  /** On a complete listing, the only page without a cursor is the last, so a walk that
      stops at the first page without one has visited every page. */
  lemma ChainedVisitsAll(pages: seq<Page>, n: nat)
    requires Chained(pages)
    requires 1 <= n <= |pages|
    requires pages[n - 1].nextPageToken.None?
    ensures n == |pages|
  {
  }

  /** Collecting from page `c` after `acc`: the page's ids join the accumulator, or
      the first bad item fails the call. */
  lemma CollectStep(pages: seq<Page>, c: nat, acc: seq<Json>)
    requires c < |pages|
    ensures AppendOk(acc, CollectFrom(pages, c)) ==
      match AppendOk(acc, PageIds(pages[c].items))
      case Err(e) => Err(e)
      case Ok(more) => AppendOk(more, Continue(pages, c))
  {
    var ids := PageIds(pages[c].items);
    var rest := Continue(pages, c);
    if ids.Ok? && rest.Ok? {
      assert acc + (ids.value + rest.value) == (acc + ids.value) + rest.value;
    }
  }

  /** Following the cursor of page `c` to page `c + 1`. */
  lemma FollowStep(pages: seq<Page>, c: nat, acc: seq<Json>)
    requires c + 1 < |pages| && pages[c].nextPageToken.Some?
    ensures AppendOk(acc, Continue(pages, c)) ==
      match AppendOk(acc, PageIds(pages[c + 1].items))
      case Err(e) => Err(e)
      case Ok(more) => AppendOk(more, Continue(pages, c + 1))
  {
    assert Continue(pages, c) == CollectFrom(pages, c + 1);
    CollectStep(pages, c + 1, acc);
  }

  /** The requests of a walk over the listing: the first carries no token, request `k`
      carries the cursor of page `k - 1`, and every page before the last one requested had
      all its ids read and carried a cursor. */
  ghost predicate Walked(pages: seq<Page>, sent: seq<Option<Token>>) {
    && 1 <= |sent| <= |pages| + 1
    && sent[0] == None
    && (forall k :: 1 <= k < |sent| ==> sent[k] == pages[k - 1].nextPageToken)
    && (forall k :: 0 <= k < |sent| - 1 ==> PageIds(pages[k].items).Ok? && pages[k].nextPageToken.Some?)
  }

  /** Following the cursor of the last page requested extends the walk. */
  lemma WalkedStep(pages: seq<Page>, sent: seq<Option<Token>>)
    requires Walked(pages, sent) && |sent| <= |pages|
    requires PageIds(pages[|sent| - 1].items).Ok? && pages[|sent| - 1].nextPageToken.Some?
    ensures Walked(pages, sent + [pages[|sent| - 1].nextPageToken])
  {
    var next := sent + [pages[|sent| - 1].nextPageToken];
    forall k | 1 <= k < |next| ensures next[k] == pages[k - 1].nextPageToken {
      if k < |sent| {
        assert next[k] == sent[k];
      }
    }
  }

  /** `get_video_ids(youtube, playlist_id)` against the listing `pages`.  `sent` lists
      the `pageToken` of every request issued, in order. */
  method GetVideoIds(pages: seq<Page>) returns (r: Result<seq<Json>>, sent: seq<Option<Token>>)
    requires DistinctTokens(pages)
    ensures r == Collect(pages)
    ensures Walked(pages, sent)
    ensures r.Ok? ==> |sent| <= |pages| && pages[|sent| - 1].nextPageToken.None?
    ensures r.Err? ==> |sent| == |pages| + 1 || PageIds(pages[|sent| - 1].items).Err?
    ensures Chained(pages) && r.Ok? ==> |sent| == |pages|
  {
    sent := [None];
    var first := Serve(pages, None);
    if first.Err? {
      return Err(first.error), sent;
    }
    var response := first.value;
    ghost var c := 0;
    AppendOkEmpty(PageIds(response.items));
    CollectStep(pages, 0, []);
    AppendOkEmpty(CollectFrom(pages, 0));
    var appended := AppendVideoIds([], response.items);
    if appended.Err? {
      return appended, sent;
    }
    var videoIds := appended.value;
    var nextPageToken := response.nextPageToken;
    while nextPageToken.Some?
      invariant c < |pages| && |sent| == c + 1 && Walked(pages, sent)
      invariant nextPageToken == pages[c].nextPageToken && PageIds(pages[c].items).Ok?
      invariant Collect(pages) == AppendOk(videoIds, Continue(pages, c))
      decreases |pages| - c
    {
      WalkedStep(pages, sent);
      sent := sent + [nextPageToken];
      ServeNext(pages, c);
      var next := Serve(pages, nextPageToken);
      if next.Err? {
        return Err(next.error), sent;
      }
      response := next.value;
      FollowStep(pages, c, videoIds);
      c := c + 1;
      appended := AppendVideoIds(videoIds, response.items);
      if appended.Err? {
        return appended, sent;
      }
      videoIds := appended.value;
      nextPageToken := response.nextPageToken;
    }
    if Chained(pages) {
      ChainedVisitsAll(pages, |sent|);
    }
    assert videoIds + [] == videoIds;
    r := Ok(videoIds);
  }
}
