/** The home feed's interleaving and its pages (src/services/youtube/trendingService.ts). */
module HomeFeed {
  /** `payload` stands for everything but the id. */
  datatype Video = Video(id: string, payload: int)

  type Batches = seq<seq<Video>>

  // ---------------------------------------------------------------------------
  // Round robin
  // ---------------------------------------------------------------------------

  /** What one batch has at place `i`, if anything. */
  function At(batch: seq<Video>, i: nat): seq<Video> {
    if i < |batch| then [batch[i]] else []
  }

  /** The `i`-th videos of the batches that have one, in batch order. */
  function Round(batches: Batches, i: nat): seq<Video>
    decreases |batches|
  {
    if batches == [] then [] else At(batches[0], i) + Round(batches[1..], i)
  }

  function Rounds(batches: Batches, n: nat): seq<Video> {
    if n == 0 then [] else Rounds(batches, n - 1) + Round(batches, n - 1)
  }

  function Longer(a: nat, b: nat): nat {
    if a > b then a else b
  }

  function MaxLength(batches: Batches): nat
    decreases |batches|
  {
    if batches == [] then 0 else Longer(|batches[0]|, MaxLength(batches[1..]))
  }

  function RoundRobin(batches: Batches): seq<Video> {
    Rounds(batches, MaxLength(batches))
  }

  function Head(batch: seq<Video>, n: nat): seq<Video> {
    if n < |batch| then batch[..n] else batch
  }

  function Times(videos: seq<Video>, v: Video): nat {
    multiset(videos)[v]
  }

  /** How often `v` is in the first `n` places of the batches. */
  function Upto(batches: Batches, n: nat, v: Video): nat
    decreases |batches|
  {
    if batches == [] then 0 else Times(Head(batches[0], n), v) + Upto(batches[1..], n, v)
  }

  function AllVideos(batches: Batches): multiset<Video>
    decreases |batches|
  {
    if batches == [] then multiset{} else multiset(batches[0]) + AllVideos(batches[1..])
  }

  lemma TimesInParts(a: seq<Video>, b: seq<Video>, v: Video)
    ensures Times(a + b, v) == Times(a, v) + Times(b, v)
  {
  }

  lemma HeadNext(batch: seq<Video>, n: nat, v: Video)
    ensures Times(Head(batch, n + 1), v) == Times(Head(batch, n), v) + Times(At(batch, n), v)
  {
    assert Head(batch, n + 1) == Head(batch, n) + At(batch, n);
    TimesInParts(Head(batch, n), At(batch, n), v);
  }

  lemma {:induction false} UptoNext(batches: Batches, n: nat, v: Video)
    ensures Upto(batches, n + 1, v) == Upto(batches, n, v) + Times(Round(batches, n), v)
    decreases |batches|
  {
    if batches != [] {
      UptoNext(batches[1..], n, v);
      HeadNext(batches[0], n, v);
      TimesInParts(At(batches[0], n), Round(batches[1..], n), v);
    }
  }

  lemma {:induction false} UptoNothing(batches: Batches, v: Video)
    ensures Upto(batches, 0, v) == 0
    decreases |batches|
  {
    if batches != [] {
      UptoNothing(batches[1..], v);
      assert Head(batches[0], 0) == [];
    }
  }

  lemma RoundsNext(batches: Batches, n: nat, v: Video)
    ensures Times(Rounds(batches, n + 1), v) == Times(Rounds(batches, n), v) + Times(Round(batches, n), v)
  {
    TimesInParts(Rounds(batches, n), Round(batches, n), v);
  }

  lemma {:induction false} RoundsHoldUpto(batches: Batches, n: nat, v: Video)
    ensures Times(Rounds(batches, n), v) == Upto(batches, n, v)
  {
    if n == 0 {
      UptoNothing(batches, v);
    } else {
      var m := n - 1;
      RoundsHoldUpto(batches, m, v);
      assert Upto(batches, n, v) == Upto(batches, m, v) + Times(Round(batches, m), v) by {
        UptoNext(batches, m, v);
      }
      assert Times(Rounds(batches, n), v) == Times(Rounds(batches, m), v) + Times(Round(batches, m), v) by {
        RoundsNext(batches, m, v);
      }
    }
  }

  lemma {:induction false} UptoAll(batches: Batches, n: nat, v: Video)
    requires MaxLength(batches) <= n
    ensures Upto(batches, n, v) == AllVideos(batches)[v]
    decreases |batches|
  {
    if batches != [] {
      UptoAll(batches[1..], n, v);
      assert Head(batches[0], n) == batches[0];
    }
  }

  /** Round robin loses and repeats nothing. */
  lemma RoundRobinConserves(batches: Batches)
    ensures multiset(RoundRobin(batches)) == AllVideos(batches)
  {
    forall v ensures multiset(RoundRobin(batches))[v] == AllVideos(batches)[v] {
      RoundsHoldUpto(batches, MaxLength(batches), v);
      UptoAll(batches, MaxLength(batches), v);
    }
  }

  // ---------------------------------------------------------------------------
  // First of each id
  // ---------------------------------------------------------------------------

  function Ids(videos: seq<Video>): set<string> {
    set v | v in videos :: v.id
  }

  /** Every video whose id did not come before. */
  function FirstOfEachId(videos: seq<Video>): seq<Video> {
    if videos == [] then []
    else
      var before, last := videos[..|videos| - 1], videos[|videos| - 1];
      FirstOfEachId(before) + if last.id in Ids(before) then [] else [last]
  }

  predicate DistinctIds(videos: seq<Video>) {
    forall i, j :: 0 <= i < j < |videos| ==> videos[i].id != videos[j].id
  }

  /** `v` is at some position of `videos` and its id is at none before. */
  ghost predicate FirstOfItsId(videos: seq<Video>, v: Video) {
    exists k :: 0 <= k < |videos| && videos[k] == v && forall j :: 0 <= j < k ==> videos[j].id != v.id
  }

  lemma IdsOfAppend(videos: seq<Video>, v: Video)
    ensures Ids(videos + [v]) == Ids(videos) + {v.id}
  {
    forall id | id in Ids(videos) + {v.id} ensures id in Ids(videos + [v]) {
      if id in Ids(videos) {
        var w :| w in videos && w.id == id;
        assert w in videos + [v];
      } else {
        assert v in videos + [v];
      }
    }
  }

  lemma FirstOfItsIdLater(videos: seq<Video>, last: Video, v: Video)
    requires FirstOfItsId(videos, v) || (v == last && last.id !in Ids(videos))
    ensures FirstOfItsId(videos + [last], v)
  {
    var longer := videos + [last];
    if FirstOfItsId(videos, v) {
      var k :| 0 <= k < |videos| && videos[k] == v && forall j :: 0 <= j < k ==> videos[j].id != v.id;
      assert longer[k] == v;
    } else {
      assert longer[|videos|] == v;
      forall j | 0 <= j < |videos| ensures longer[j].id != v.id {
        assert videos[j] in videos;
      }
    }
  }

  lemma DistinctAppend(videos: seq<Video>, last: Video)
    requires DistinctIds(videos) && last.id !in Ids(videos)
    ensures DistinctIds(videos + [last])
  {
    forall i | 0 <= i < |videos| ensures videos[i].id != last.id {
      assert videos[i] in videos;
    }
  }

  lemma {:induction false} FirstsAreFirst(videos: seq<Video>)
    ensures Ids(FirstOfEachId(videos)) == Ids(videos) && DistinctIds(FirstOfEachId(videos))
    ensures forall v :: v in FirstOfEachId(videos) ==> FirstOfItsId(videos, v)
  {
    if videos != [] {
      var before, last := videos[..|videos| - 1], videos[|videos| - 1];
      var kept := FirstOfEachId(before);
      FirstsAreFirst(before);
      assert videos == before + [last];
      IdsOfAppend(before, last);
      if last.id in Ids(before) {
        assert FirstOfEachId(videos) == kept;
      } else {
        assert FirstOfEachId(videos) == kept + [last];
        IdsOfAppend(kept, last);
        DistinctAppend(kept, last);
      }
      forall v | v in FirstOfEachId(videos) ensures FirstOfItsId(videos, v) {
        FirstOfItsIdLater(before, last, v);
      }
    }
  }

  /** The whole mix: each id of any batch once, as the first of it in round-robin order. */
  function Mix(batches: Batches): seq<Video> {
    FirstOfEachId(RoundRobin(batches))
  }

  lemma MixKeepsEveryId(batches: Batches)
    ensures DistinctIds(Mix(batches))
    ensures forall v :: v in Mix(batches) ==> v in AllVideos(batches) && FirstOfItsId(RoundRobin(batches), v)
    ensures forall v :: v in AllVideos(batches) ==> v.id in Ids(Mix(batches))
  {
    RoundRobinConserves(batches);
    FirstsAreFirst(RoundRobin(batches));
    forall v | v in Mix(batches) ensures v in AllVideos(batches) {
      assert v in multiset(RoundRobin(batches));
    }
    forall v | v in AllVideos(batches) ensures v.id in Ids(Mix(batches)) {
      assert v in RoundRobin(batches);
    }
  }

  // ---------------------------------------------------------------------------
  // The loops
  // ---------------------------------------------------------------------------

  method MaxLengthOf(batches: Batches) returns (n: nat)
    ensures n == MaxLength(batches)
  {
    n := 0;
    assert batches[0..] == batches;
    for i := 0 to |batches|
      invariant MaxLength(batches) == Longer(n, MaxLength(batches[i..]))
    {
      assert batches[i..][1..] == batches[i + 1..];
      if |batches[i]| > n {
        n := |batches[i]|;
      }
    }
  }

  /** The loops' two collections, after the videos `met`. */
  ghost predicate Mixed(met: seq<Video>, interleaved: seq<Video>, seen: set<string>) {
    interleaved == FirstOfEachId(met) && seen == Ids(met)
  }

  /** One more video met: kept if its id is new. */
  lemma MeetOne(met: seq<Video>, v: Video, interleaved: seq<Video>, seen: set<string>)
    requires Mixed(met, interleaved, seen)
    ensures Mixed(met + [v], if v.id in seen then interleaved else interleaved + [v], seen + {v.id})
  {
    assert (met + [v])[..|met|] == met;
    IdsOfAppend(met, v);
  }

  /** `through` is what has been met once the rest of round `i` has. */
  ghost predicate RoundAhead(batches: Batches, i: nat, j: nat, met: seq<Video>, through: seq<Video>) {
    j <= |batches| && through == met + Round(batches[j..], i)
  }

  lemma RoundOpens(batches: Batches, i: nat)
    ensures RoundAhead(batches, i, 0, Rounds(batches, i), Rounds(batches, i + 1))
  {
    assert batches[0..] == batches;
  }

  lemma RoundNext(batches: Batches, i: nat, j: nat, met: seq<Video>, through: seq<Video>)
    requires j < |batches| && RoundAhead(batches, i, j, met, through)
    ensures RoundAhead(batches, i, j + 1, if i < |batches[j]| then met + [batches[j][i]] else met, through)
  {
    assert batches[j..][1..] == batches[j + 1..];
    assert met + Round(batches[j..], i) == (met + At(batches[j], i)) + Round(batches[j + 1..], i);
  }

  lemma RoundCloses(batches: Batches, i: nat, met: seq<Video>, through: seq<Video>)
    requires RoundAhead(batches, i, |batches|, met, through)
    ensures met == through
  {
  }

  /** The nested loops over positions and batches. */
  method LoadHomeBatch(batches: Batches, homeBatchSize: nat) returns (feed: seq<Video>)
    ensures feed == if homeBatchSize < |Mix(batches)| then Mix(batches)[..homeBatchSize] else Mix(batches)
  {
    var interleaved: seq<Video> := [];
    var seen: set<string> := {};
    ghost var met: seq<Video> := [];
    var maxLen := MaxLengthOf(batches);
    for i := 0 to maxLen
      invariant met == Rounds(batches, i) && Mixed(met, interleaved, seen)
    {
      ghost var through := Rounds(batches, i + 1);
      RoundOpens(batches, i);
      for j := 0 to |batches|
        invariant RoundAhead(batches, i, j, met, through) && Mixed(met, interleaved, seen)
      {
        RoundNext(batches, i, j, met, through);
        if i < |batches[j]| {
          var video := batches[j][i];
          MeetOne(met, video, interleaved, seen);
          met := met + [video];
          if video.id !in seen {
            seen := seen + {video.id};
            interleaved := interleaved + [video];
          } else {
            assert seen + {video.id} == seen;
          }
        }
      }
      RoundCloses(batches, i, met, through);
    }
    feed := if homeBatchSize < |interleaved| then interleaved[..homeBatchSize] else interleaved;
  }

  // ---------------------------------------------------------------------------
  // Pages
  // ---------------------------------------------------------------------------

  datatype FeedPage = FeedPage(videos: seq<Video>, page: int, limit: int, offset: int, hasMore: bool)

  function Slice(batch: seq<Video>, from: nat, to: nat): seq<Video>
    requires from <= |batch| && from <= to
  {
    batch[from..if to < |batch| then to else |batch|]
  }

  function SlicePage(batch: seq<Video>, page: int, limit: int): FeedPage
    requires page >= 1 && limit >= 1
  {
    var offset := (page - 1) * limit;
    var videos := if offset >= |batch| then [] else Slice(batch, offset, offset + limit);
    FeedPage(videos, page, limit, offset, offset + |videos| < |batch| && |videos| > 0)
  }

  lemma NextOffset(page: int, limit: int)
    requires page >= 1 && limit >= 1
    ensures page * limit == (page - 1) * limit + limit && (page - 1) * limit >= 0
  {
  }

  /** What a page says about its place in the list. */
  lemma PageInPlace(batch: seq<Video>, page: int, limit: int)
    requires page >= 1 && limit >= 1
    ensures var p := SlicePage(batch, page, limit);
      && (p.videos == [] <==> |batch| <= p.offset)
      && (p.hasMore <==> page * limit < |batch|)
      && (p.hasMore ==> |p.videos| == limit && p.offset + limit == page * limit)
      && (p.offset <= |batch| && !p.hasMore ==> p.videos == batch[p.offset..])
  {
    NextOffset(page, limit);
  }

  /** The pages read from `page` on, for as long as each says there are more. */
  function PagesFrom(batch: seq<Video>, page: int, limit: int): seq<FeedPage>
    requires page >= 1 && limit >= 1
    decreases if (page - 1) * limit < |batch| then |batch| - (page - 1) * limit else 0
  {
    PageInPlace(batch, page, limit);
    NextOffset(page, limit);
    var p := SlicePage(batch, page, limit);
    if p.hasMore then [p] + PagesFrom(batch, page + 1, limit) else [p]
  }

  function VideosOf(pages: seq<FeedPage>): seq<Video> {
    if pages == [] then [] else pages[0].videos + VideosOf(pages[1..])
  }

  /** Pages that give `list`, all full but the last, which is not empty. */
  predicate FullPages(pages: seq<FeedPage>, list: seq<Video>, limit: int) {
    && VideosOf(pages) == list
    && (forall i :: 0 <= i < |pages| - 1 ==> |pages[i].videos| == limit)
    && |pages| >= 1 && (list != [] ==> pages[|pages| - 1].videos != [])
  }

  lemma OnePageMore(p: FeedPage, rest: seq<FeedPage>, batch: seq<Video>, from: nat, to: nat)
    requires from <= to < |batch| && p.videos == batch[from..to] && FullPages(rest, batch[to..], to - from)
    ensures FullPages([p] + rest, batch[from..], to - from)
  {
    assert ([p] + rest)[1..] == rest;
    assert batch[from..] == batch[from..to] + batch[to..];
  }

  lemma {:induction false} PagesRebuild(batch: seq<Video>, page: int, limit: int, from: nat)
    requires page >= 1 && limit >= 1 && from == (page - 1) * limit <= |batch|
    ensures FullPages(PagesFrom(batch, page, limit), batch[from..], limit)
    decreases |batch| - from
  {
    var p := SlicePage(batch, page, limit);
    var to := page * limit;
    PageInPlace(batch, page, limit);
    NextOffset(page, limit);
    if p.hasMore {
      PagesRebuild(batch, page + 1, limit, to);
      OnePageMore(p, PagesFrom(batch, page + 1, limit), batch, from, to);
    } else {
      assert PagesFrom(batch, page, limit) == [p] && [p][1..] == [];
    }
  }

  /**
   * Reading pages from the first while there are more gives back the list exactly once; every
   * page but the last is full, and the last is empty only for an empty list.
   */
  lemma WalkRebuildsList(batch: seq<Video>, limit: int)
    requires limit >= 1
    ensures var pages := PagesFrom(batch, 1, limit);
      && VideosOf(pages) == batch
      && (forall i :: 0 <= i < |pages| - 1 ==> |pages[i].videos| == limit)
      && (batch != [] ==> forall i :: 0 <= i < |pages| ==> pages[i].videos != [])
  {
    PagesRebuild(batch, 1, limit, 0);
    assert batch[0..] == batch;
  }
}
