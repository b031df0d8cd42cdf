/** The order of the home feed, and what each of its pages holds. */
module FeedOrder {
  import opened HomeFeed

  // ---------------------------------------------------------------------------
  // Round robin
  // ---------------------------------------------------------------------------

  /** How many videos the first `n` rounds take. */
  function TakenBy(batches: Batches, n: nat): nat
    decreases |batches|
  {
    if batches == [] then 0 else (if n < |batches[0]| then n else |batches[0]|) + TakenBy(batches[1..], n)
  }

  /** How many batches have a video at place `i`. */
  function Having(batches: Batches, i: nat): nat
    decreases |batches|
  {
    if batches == [] then 0 else (if i < |batches[0]| then 1 else 0) + Having(batches[1..], i)
  }

  lemma {:induction false} RoundSize(batches: Batches, i: nat)
    ensures |Round(batches, i)| == Having(batches, i)
    decreases |batches|
  {
    if batches != [] {
      RoundSize(batches[1..], i);
    }
  }

  lemma {:induction false} TakenByNext(batches: Batches, n: nat)
    ensures TakenBy(batches, n + 1) == TakenBy(batches, n) + Having(batches, n)
    decreases |batches|
  {
    if batches != [] {
      TakenByNext(batches[1..], n);
    }
  }

  lemma {:induction false} TakenByNone(batches: Batches)
    ensures TakenBy(batches, 0) == 0
    decreases |batches|
  {
    if batches != [] {
      TakenByNone(batches[1..]);
    }
  }

  lemma OneMoreRound(batches: Batches, n: nat)
    ensures |Rounds(batches, n + 1)| == |Rounds(batches, n)| + Having(batches, n)
  {
    RoundSize(batches, n);
  }

  lemma {:induction false} RoundsSize(batches: Batches, n: nat)
    ensures |Rounds(batches, n)| == TakenBy(batches, n)
  {
    if n == 0 {
      TakenByNone(batches);
    } else {
      var m := n - 1;
      RoundsSize(batches, m);
      OneMoreRound(batches, m);
      TakenByNext(batches, m);
    }
  }

  lemma {:induction false} PlaceInRound(batches: Batches, i: nat, j: nat)
    requires j < |batches| && i < |batches[j]|
    ensures Having(batches[..j], i) < |Round(batches, i)| && Round(batches, i)[Having(batches[..j], i)] == batches[j][i]
    decreases |batches|
  {
    if j == 0 {
      assert batches[..0] == [];
    } else {
      PlaceInRound(batches[1..], i, j - 1);
      assert batches[..j][1..] == batches[1..][..j - 1];
    }
  }

  lemma {:induction false} RoundsGrow(batches: Batches, n: nat, m: nat)
    requires n <= m
    ensures Rounds(batches, n) <= Rounds(batches, m)
  {
    if n < m {
      RoundsGrow(batches, n, m - 1);
    }
  }

  lemma {:induction false} WithinLongest(batches: Batches, j: nat)
    requires j < |batches|
    ensures |batches[j]| <= MaxLength(batches)
    decreases |batches|
  {
    if j > 0 {
      WithinLongest(batches[1..], j - 1);
    }
  }

  /** How many videos come before video `i` of batch `j`: all of earlier rounds, and in its round the batches before. */
  function Place(batches: Batches, i: nat, j: nat): nat
    requires j <= |batches|
  {
    TakenBy(batches, i) + Having(batches[..j], i)
  }

  /** Round robin goes by place first and by batch second. */
  lemma RoundRobinOrder(batches: Batches, i: nat, j: nat)
    requires j < |batches| && i < |batches[j]|
    ensures Place(batches, i, j) < |RoundRobin(batches)| && RoundRobin(batches)[Place(batches, i, j)] == batches[j][i]
  {
    PlaceInRounds(batches, i, j);
    WithinLongest(batches, j);
    RoundsGrow(batches, i + 1, MaxLength(batches));
  }

  lemma PlaceInRounds(batches: Batches, i: nat, j: nat)
    requires j < |batches| && i < |batches[j]|
    ensures Place(batches, i, j) < |Rounds(batches, i + 1)|
    ensures Rounds(batches, i + 1)[Place(batches, i, j)] == batches[j][i]
  {
    var before, round, at := Rounds(batches, i), Round(batches, i), Having(batches[..j], i);
    RoundsSize(batches, i);
    PlaceInRound(batches, i, j);
    assert Rounds(batches, i + 1) == before + round;
    assert (before + round)[|before| + at] == round[at];
  }

  // ---------------------------------------------------------------------------
  // First of each id
  // ---------------------------------------------------------------------------

  ghost predicate Ascending(ks: seq<nat>) {
    forall i, j :: 0 <= i < j < |ks| ==> ks[i] < ks[j]
  }

  /** No video before place `k` has its id. */
  ghost predicate FirstAt(videos: seq<Video>, k: nat) {
    k < |videos| && forall j :: 0 <= j < k ==> videos[j].id != videos[k].id
  }

  /** `ks` are the places of the first videos of each id, in order, and `kept` are those videos. */
  ghost predicate Firsts(videos: seq<Video>, ks: seq<nat>, kept: seq<Video>) {
    && |ks| == |kept| && Ascending(ks)
    && (forall m :: 0 <= m < |ks| ==> FirstAt(videos, ks[m]) && kept[m] == videos[ks[m]])
    && forall k: nat :: FirstAt(videos, k) ==> k in ks
  }

  lemma FirstsWithout(videos: seq<Video>, n: nat, ks: seq<nat>, kept: seq<Video>)
    requires n + 1 == |videos| && Firsts(videos[..n], ks, kept) && !FirstAt(videos, n)
    ensures Firsts(videos, ks, kept)
  {
    FirstsOfMore(videos, n);
  }

  lemma FirstsWith(videos: seq<Video>, n: nat, ks: seq<nat>, kept: seq<Video>)
    requires n + 1 == |videos| && Firsts(videos[..n], ks, kept) && FirstAt(videos, n)
    ensures Firsts(videos, ks + [n], kept + [videos[n]])
  {
    FirstsOfMore(videos, n);
    forall m | 0 <= m < |ks| ensures ks[m] < n {
      assert FirstAt(videos[..n], ks[m]);
    }
  }

  /** What is kept is the first video of each id, in the order of the list. */
  lemma {:induction false} KeepsOrder(videos: seq<Video>) returns (ks: seq<nat>)
    ensures Firsts(videos, ks, FirstOfEachId(videos))
  {
    ks := [];
    if videos != [] {
      var n := |videos| - 1;
      ks := KeepsOrder(videos[..n]);
      LastIsFirstIff(videos);
      if videos[n].id in Ids(videos[..n]) {
        FirstsWithout(videos, n, ks, FirstOfEachId(videos[..n]));
      } else {
        FirstsWith(videos, n, ks, FirstOfEachId(videos[..n]));
        ks := ks + [n];
      }
    }
  }

  lemma FirstsOfMore(videos: seq<Video>, n: nat)
    requires n + 1 == |videos|
    ensures forall k :: FirstAt(videos, k) <==> FirstAt(videos[..n], k) || (k == n && FirstAt(videos, n))
  {
    forall k: nat
      ensures FirstAt(videos, k) <==> FirstAt(videos[..n], k) || (k == n && FirstAt(videos, n))
    {
    }
  }

  lemma LastIsFirstIff(videos: seq<Video>)
    requires videos != []
    ensures FirstAt(videos, |videos| - 1) <==> videos[|videos| - 1].id !in Ids(videos[..|videos| - 1])
  {
    var n := |videos| - 1;
    var before := videos[..n];
    if j :| 0 <= j < n && videos[j].id == videos[n].id {
      assert before[j] in before && before[j].id == videos[n].id;
    }
    if videos[n].id in Ids(before) {
      var v :| v in before && v.id == videos[n].id;
      var j :| 0 <= j < n && before[j] == v;
      assert videos[j].id == videos[n].id;
    }
  }

  /** The feed before it is cut: the videos of the round robin that are first of their id, in its order. */
  lemma MixKeepsOrder(batches: Batches) returns (ks: seq<nat>)
    ensures Firsts(RoundRobin(batches), ks, Mix(batches))
  {
    ks := KeepsOrder(RoundRobin(batches));
  }

  // ---------------------------------------------------------------------------
  // Pages
  // ---------------------------------------------------------------------------

  /**
   * Page `page` holds places `(page - 1) * limit` up to `page * limit` of the list, as far as it
   * goes, says which page it is, and says that there is more exactly when the list goes on.
   */
  lemma PageHolds(batch: seq<Video>, page: int, limit: int)
    requires page >= 1 && limit >= 1
    ensures var p := SlicePage(batch, page, limit);
      && p.page == page && p.limit == limit && p.offset == (page - 1) * limit
      && p.offset + |p.videos| <= (if p.videos == [] then p.offset else |batch|)
      && (forall i :: 0 <= i < |p.videos| ==> p.videos[i] == batch[p.offset + i])
      && |p.videos| <= limit
      && (|p.videos| < limit ==> p.offset + |p.videos| == |batch| || (p.videos == [] && |batch| <= p.offset))
      && (p.hasMore <==> page * limit < |batch|)
  {
    NextOffset(page, limit);
    PageInPlace(batch, page, limit);
  }
}
