/**
 * Durable ownership of one video's download over any interleaving of browser contexts
 * (src/frontend/js/services/offlineService.js).  Every transaction is one atomic step; a
 * context that crashes takes no further step, and its reload is a new context.
 */
module Ownership {
  import opened Common
  import opened OfflineStore

  datatype Action =
    | ReadOwner(readable: bool)
    | Claim
    | Heartbeat
    | Release
    | Chunk(meta: Meta, row: Row)
    | Reset(meta: Meta)
    | VideoRow(meta: Meta)
    | Repair(cut: int)
    | Delete

  /** `who` attempts `action` at `now`; a transaction that does not commit leaves no trace. */
  datatype Event = Event(who: Context, action: Action, now: int, commits: bool)

  /** `cleared` holds the contexts whose last look at the record lets them write a claim. */
  datatype State = State(store: Store, cleared: set<Context>)

  const Initial := State(EmptyStore, {})

  /** What the event's transaction makes of the store; `None` where a check inside it refuses. */
  function Outcome(s: State, e: Event): Option<Store> {
    match e.action
    case ReadOwner(readable) => if readable && IsForeignOwner(s.store.owner, e.who, e.now) then None else Some(s.store)
    case Claim => if e.who in s.cleared then Some(PutClaim(s.store, e.who, e.now)) else None
    case Heartbeat => Some(Touch(s.store, e.who, e.now))
    case Release => Some(ReleaseClaim(s.store, e.who))
    case Chunk(meta, row) => WriteOwnedChunk(s.store, e.who, meta, row)
    case Reset(meta) => ResetForNewRepresentation(s.store, e.who, meta)
    case VideoRow(meta) => Some(PutVideo(s.store, meta))
    case Repair(cut) => Some(RepairTrailing(s.store, cut))
    case Delete => DeleteVideoData(s.store, e.who, e.now)
  }

  /** The event takes effect: nothing refuses it and its transaction commits. */
  predicate Takes(s: State, e: Event) {
    e.commits && Outcome(s, e).Some?
  }

  function Step(s: State, e: Event): State {
    State(
      if Takes(s, e) then Outcome(s, e).value else s.store,
      if e.action.ReadOwner? && Takes(s, e) then s.cleared + {e.who}
      else if e.action.ReadOwner? || (e.action.Claim? && Takes(s, e)) then s.cleared - {e.who}
      else s.cleared)
  }

  /** The state after all of `es`. */
  function After(es: seq<Event>): State {
    if es == [] then Initial else Step(After(es[..|es| - 1]), es[|es| - 1])
  }

  /** Event `i` of the run takes effect. */
  predicate Took(es: seq<Event>, i: int) {
    0 <= i < |es| && Takes(After(es[..i]), es[i])
  }

  ghost predicate ClockRuns(es: seq<Event>) {
    forall i, j :: 0 <= i < j < |es| ==> es[i].now <= es[j].now
  }

  lemma AfterNext(es: seq<Event>, n: nat)
    requires n < |es|
    ensures After(es[..n + 1]) == Step(After(es[..n]), es[n])
  {
    assert es[..n + 1][..n] == es[..n];
  }

  // ---------------------------------------------------------------------------
  // Who holds the claim, told by the run alone
  // ---------------------------------------------------------------------------

  /** Event `i` ends a claim of `c`: another's claim, a deletion, or `c`'s own release. */
  predicate Ends(es: seq<Event>, i: int, c: Context) {
    && Took(es, i)
    && (|| es[i].action.Delete?
        || (es[i].action.Claim? && es[i].who != c)
        || (es[i].action.Release? && es[i].who == c))
  }

  predicate Claims(es: seq<Event>, i: int, c: Context) {
    Took(es, i) && es[i].action.Claim? && es[i].who == c
  }

  ghost predicate HoldsSince(es: seq<Event>, j: int, n: int, c: Context) {
    0 <= j < n && Claims(es, j, c) && forall i :: j < i < n ==> !Ends(es, i, c)
  }

  /** `c` wrote a claim before event `n` and nothing since has ended it. */
  ghost predicate HoldsClaim(es: seq<Event>, n: int, c: Context) {
    exists j :: HoldsSince(es, j, n, c)
  }

  lemma HoldsNext(es: seq<Event>, n: nat, c: Context)
    requires n < |es|
    ensures HoldsClaim(es, n + 1, c) <==> Claims(es, n, c) || (HoldsClaim(es, n, c) && !Ends(es, n, c))
  {
    var m := n + 1;
    if Claims(es, n, c) {
      assert HoldsSince(es, n, m, c);
    }
    forall j | HoldsSince(es, j, n, c) && !Ends(es, n, c) ensures HoldsClaim(es, n + 1, c) {
      assert HoldsSince(es, j, m, c);
    }
    forall j | HoldsSince(es, j, m, c) && j != n ensures HoldsClaim(es, n, c) && !Ends(es, n, c) {
      assert HoldsSince(es, j, n, c);
    }
  }

  /** The record names a context exactly when that context holds the claim. */
  lemma {:induction false} OwnerIsClaimHolder(es: seq<Event>, n: nat, c: Context)
    requires n <= |es|
    ensures Owns(After(es[..n]).store, c) <==> HoldsClaim(es, n, c)
  {
    if n > 0 {
      OwnerIsClaimHolder(es, n - 1, c);
      AfterNext(es, n - 1);
      HoldsNext(es, n - 1, c);
    }
  }

  /** A chunk or a reset is written exactly by the context that holds the claim at that moment. */
  lemma WritesAreOwned(es: seq<Event>, n: nat)
    requires n < |es| && (es[n].action.Chunk? || es[n].action.Reset?)
    ensures Took(es, n) <==> es[n].commits && HoldsClaim(es, n, es[n].who)
  {
    OwnerIsClaimHolder(es, n, es[n].who);
  }

  predicate Writes(es: seq<Event>, i: int, c: Context) {
    Took(es, i) && (es[i].action.Chunk? || es[i].action.Reset?) && es[i].who == c
  }

  /** Two contexts never interleave their writes: the later writer has claimed in between. */
  lemma ClaimBetweenWriters(es: seq<Event>, i: nat, n: nat) returns (j: nat)
    requires i < n < |es| && es[i].who != es[n].who
    requires Writes(es, i, es[i].who) && Writes(es, n, es[n].who)
    ensures i < j < n && Claims(es, j, es[n].who)
  {
    WritesAreOwned(es, n);
    WritesAreOwned(es, i);
    var a :| HoldsSince(es, a, n, es[n].who);
    var b :| HoldsSince(es, b, i, es[i].who);
    if a <= i {
      if a < b {
        assert Ends(es, b, es[n].who);
      } else {
        assert a != b && a != i;
        assert Ends(es, a, es[i].who);
      }
    }
    j := a;
  }

  // ---------------------------------------------------------------------------
  // Liveness of the owner
  // ---------------------------------------------------------------------------

  /** A sign of life of `c`: its claim or a heartbeat. */
  predicate Signs(es: seq<Event>, i: int, c: Context) {
    Took(es, i) && es[i].who == c && (es[i].action.Claim? || es[i].action.Heartbeat?)
  }

  /** The record's heartbeat is the latest sign of the context it names. */
  lemma {:induction false} HeartbeatIsLatest(es: seq<Event>, n: nat)
    requires n <= |es| && ClockRuns(es) && After(es[..n]).store.owner.Some?
    ensures var o := After(es[..n]).store.owner.value;
      && (forall i :: 0 <= i < n && Signs(es, i, o.context) ==> es[i].now <= o.heartbeatAt)
      && (exists i :: 0 <= i < n && Signs(es, i, o.context) && es[i].now == o.heartbeatAt)
  {
    AfterNext(es, n - 1);
    var before, now := After(es[..n - 1]).store.owner, After(es[..n]).store.owner;
    var o := now.value;
    if before == now && !Signs(es, n - 1, o.context) {
      HeartbeatIsLatest(es, n - 1);
    } else {
      assert Signs(es, n - 1, o.context) && es[n - 1].now == o.heartbeatAt;
    }
  }

  /** Another context holds the claim and has shown itself less than the liveness window ago. */
  ghost predicate LiveForeigner(es: seq<Event>, n: int, me: Context, now: int) {
    exists c: Context, i ::
      c != me && 0 <= i < n && HoldsClaim(es, n, c) && Signs(es, i, c) && now - es[i].now < OWNER_LIVENESS_MS
  }

  lemma ForeignIsLive(es: seq<Event>, n: nat, me: Context, now: int)
    requires n <= |es| && ClockRuns(es)
    ensures IsForeignOwner(After(es[..n]).store.owner, me, now) <==> LiveForeigner(es, n, me, now)
  {
    var owner := After(es[..n]).store.owner;
    if owner.Some? {
      HeartbeatIsLatest(es, n);
      OwnerIsClaimHolder(es, n, owner.value.context);
    }
    forall c: Context | HoldsClaim(es, n, c) ensures owner.Some? && owner.value.context == c {
      OwnerIsClaimHolder(es, n, c);
    }
  }

  /** A deletion goes through exactly when no other live context holds the claim. */
  lemma DeletesUnlessForeign(es: seq<Event>, n: nat)
    requires n < |es| && es[n].action.Delete? && ClockRuns(es)
    ensures Took(es, n) <==> es[n].commits && !LiveForeigner(es, n, es[n].who, es[n].now)
  {
    ForeignIsLive(es, n, es[n].who, es[n].now);
  }

  // ---------------------------------------------------------------------------
  // After a deletion
  // ---------------------------------------------------------------------------

  /** After a deletion no chunk is stored and nobody owns the video until a later claim is written. */
  lemma {:induction false} NothingReappears(es: seq<Event>, d: nat, n: nat)
    requires d < n <= |es| && es[d].action.Delete? && Took(es, d)
    requires forall j, c :: d < j < n ==> !Claims(es, j, c)
    ensures After(es[..n]).store.rows == [] && After(es[..n]).store.owner == None
  {
    AfterNext(es, n - 1);
    if d < n - 1 {
      NothingReappears(es, d, n - 1);
      assert !Claims(es, n - 1, es[n - 1].who);
    }
  }

  /** Event `i` stores a metadata row. */
  predicate PutsRow(es: seq<Event>, i: int) {
    Took(es, i) && (es[i].action.VideoRow? || es[i].action.Chunk? || es[i].action.Reset?)
  }

  predicate Deletes(es: seq<Event>, i: int) {
    Took(es, i) && es[i].action.Delete?
  }

  /** A row put by event `i` is not deleted before event `n`. */
  ghost predicate RowSince(es: seq<Event>, i: int, n: int) {
    0 <= i < n && PutsRow(es, i) && forall j :: i < j < n ==> !Deletes(es, j)
  }

  ghost predicate RowKept(es: seq<Event>, n: int) {
    exists i :: RowSince(es, i, n)
  }

  lemma RowKeptNext(es: seq<Event>, n: nat)
    requires n < |es|
    ensures RowKept(es, n + 1) <==> PutsRow(es, n) || (RowKept(es, n) && !Deletes(es, n))
  {
    var m := n + 1;
    if PutsRow(es, n) {
      assert RowSince(es, n, m);
    }
    forall i | RowSince(es, i, n) && !Deletes(es, n) ensures RowKept(es, m) {
      assert RowSince(es, i, m);
    }
    forall i | RowSince(es, i, m) && i != n ensures RowKept(es, n) && !Deletes(es, n) {
      assert RowSince(es, i, n);
    }
  }

  /** In every run a metadata row is stored exactly when some event has put one that none has deleted since. */
  lemma {:induction false} RowStoredIff(es: seq<Event>, n: nat)
    requires n <= |es|
    ensures After(es[..n]).store.video.Some? <==> RowKept(es, n)
  {
    if n > 0 {
      RowStoredIff(es, n - 1);
      AfterNext(es, n - 1);
      RowKeptNext(es, n - 1);
    }
  }

  /** An unfenced metadata put after event `d` that no later deletion undoes. */
  ghost predicate UnfencedRow(es: seq<Event>, d: int, i: int, n: int) {
    d < i < n && Took(es, i) && es[i].action.VideoRow? && forall j :: i < j < n ==> !Deletes(es, j)
  }

  /**
   * The metadata row is not fenced.  Until a later claim is written, a deleted video's row is
   * back exactly when some context has put it since, without the claim, and no deletion followed.
   */
  lemma RowReappearsIff(es: seq<Event>, d: nat, n: nat)
    requires d < n <= |es| && es[d].action.Delete? && Took(es, d)
    requires forall j, c :: d < j < n ==> !Claims(es, j, c)
    ensures After(es[..n]).store.video.Some? <==> exists i :: UnfencedRow(es, d, i, n)
  {
    RowStoredIff(es, n);
    forall i | RowSince(es, i, n) ensures UnfencedRow(es, d, i, n) {
      assert Deletes(es, d);
      if i < d {
        assert false;
      }
      assert i != d;
      NothingReappears(es, d, i);
    }
    forall i | UnfencedRow(es, d, i, n) ensures RowSince(es, i, n) {
    }
  }

  /** An instance: a context that slept through a deletion brings the row back. */
  lemma RowReappears(meta: Meta)
    ensures var es := [
        Event(1, ReadOwner(true), 0, true), Event(1, Claim, 0, true),
        Event(2, Delete, OWNER_LIVENESS_MS, true), Event(1, VideoRow(meta), OWNER_LIVENESS_MS, true)];
      Took(es, 2) && After(es).store == Store(Some(meta), [], None)
  {
    var es := [
      Event(1, ReadOwner(true), 0, true), Event(1, Claim, 0, true),
      Event(2, Delete, OWNER_LIVENESS_MS, true), Event(1, VideoRow(meta), OWNER_LIVENESS_MS, true)];
    assert es[..4] == es && es[..0] == [];
    AfterNext(es, 0);
    AfterNext(es, 1);
    AfterNext(es, 2);
    AfterNext(es, 3);
  }

  // ---------------------------------------------------------------------------
  // Claiming over a live owner
  // ---------------------------------------------------------------------------

  /** The look at the record that cleared `c`: the record was unreadable, or named no live other context. */
  predicate Clears(es: seq<Event>, r: int, c: Context) {
    Took(es, r) && es[r].action.ReadOwner? && es[r].who == c
  }

  lemma {:induction false} ClearedByLook(es: seq<Event>, n: nat, c: Context) returns (r: nat)
    requires n <= |es| && c in After(es[..n]).cleared
    ensures r < n && Clears(es, r, c)
  {
    AfterNext(es, n - 1);
    if Clears(es, n - 1, c) {
      r := n - 1;
    } else {
      r := ClearedByLook(es, n - 1, c);
    }
  }

  /** A look that commits clears its context, unless it can be read and another live context holds the claim. */
  lemma LookClearsIff(es: seq<Event>, n: nat)
    requires n < |es| && es[n].action.ReadOwner? && ClockRuns(es)
    ensures Took(es, n) <==>
      es[n].commits && !(es[n].action.readable && LiveForeigner(es, n, es[n].who, es[n].now))
  {
    ForeignIsLive(es, n, es[n].who, es[n].now);
  }

  /** `c` uses its clearance up: it looks again, or writes its claim. */
  predicate UsesUp(es: seq<Event>, i: int, c: Context) {
    0 <= i < |es| && es[i].who == c && (es[i].action.ReadOwner? || (es[i].action.Claim? && Took(es, i)))
  }

  ghost predicate ClearedSince(es: seq<Event>, r: int, n: int, c: Context) {
    0 <= r < n && Clears(es, r, c) && forall i :: r < i < n ==> !UsesUp(es, i, c)
  }

  lemma {:induction false} ClearedIff(es: seq<Event>, n: nat, c: Context)
    requires n <= |es|
    ensures c in After(es[..n]).cleared <==> exists r :: ClearedSince(es, r, n, c)
  {
    if n > 0 {
      var m := n - 1;
      ClearedIff(es, m, c);
      AfterNext(es, m);
      if Clears(es, m, c) {
        assert ClearedSince(es, m, n, c);
      }
      forall r | ClearedSince(es, r, m, c) && !UsesUp(es, m, c) ensures ClearedSince(es, r, n, c) {
      }
      forall r | ClearedSince(es, r, n, c) && r != m ensures ClearedSince(es, r, m, c) && !UsesUp(es, m, c) {
      }
    }
  }

  /** A claim is written exactly when it commits and its context has a clearance that it has not used up. */
  lemma ClaimTakesIff(es: seq<Event>, n: nat)
    requires n < |es| && es[n].action.Claim?
    ensures Took(es, n) <==> es[n].commits && exists r :: ClearedSince(es, r, n, es[n].who)
  {
    ClearedIff(es, n, es[n].who);
  }

  /** Another context that holds the claim at `n` has shown itself after the look `r`, and within the window. */
  ghost predicate LiveSince(es: seq<Event>, r: int, n: int, me: Context, now: int) {
    exists c: Context, i ::
      c != me && r < i < n && HoldsClaim(es, n, c) && Signs(es, i, c) && now - es[i].now < OWNER_LIVENESS_MS
  }

  /** A holder that showed itself before the look and holds on was already live at the look, or claimed after it. */
  lemma SignedLater(es: seq<Event>, r: nat, n: nat, me: Context, now: int, c: Context, i: nat)
    requires r < n < |es| && ClockRuns(es) && Clears(es, r, me) && es[r].action.readable && es[n].now == now
    requires c != me && i < n && HoldsClaim(es, n, c) && Signs(es, i, c) && now - es[i].now < OWNER_LIVENESS_MS
    ensures LiveSince(es, r, n, me, now)
  {
    if i <= r {
      var j :| HoldsSince(es, j, n, c);
      if j > r {
        assert Signs(es, j, c) && es[i].now <= es[j].now;
      } else {
        assert HoldsSince(es, j, r, c);
        assert LiveForeigner(es, r, me, es[r].now);
        ForeignIsLive(es, r, me, es[r].now);
        assert false;
      }
    }
  }

  /** After a readable look, a live owner stands in the way exactly when it has shown itself since. */
  lemma LiveSinceLookIff(es: seq<Event>, r: nat, n: nat, c: Context)
    requires r < n < |es| && ClockRuns(es) && Clears(es, r, c) && es[r].action.readable
    ensures LiveForeigner(es, n, c, es[n].now) <==> LiveSince(es, r, n, c, es[n].now)
  {
    forall o: Context, i |
      o != c && 0 <= i < n && HoldsClaim(es, n, o) && Signs(es, i, o) && es[n].now - es[i].now < OWNER_LIVENESS_MS
      ensures LiveSince(es, r, n, c, es[n].now)
    {
      SignedLater(es, r, n, c, es[n].now, o, i);
    }
  }

  /**
   * The claim is written without looking again.  After a readable look it replaces a live owner
   * exactly when the owner it replaces has shown itself between the look and the claim.
   */
  lemma ReplacesLiveOwnerIff(es: seq<Event>, n: nat, c: Context) returns (r: nat)
    requires n < |es| && ClockRuns(es) && Claims(es, n, c)
    ensures r < n && Clears(es, r, c)
    ensures es[r].action.readable ==>
      (LiveForeigner(es, n, c, es[n].now) <==> LiveSince(es, r, n, c, es[n].now))
  {
    r := ClearedByLook(es, n, c);
    if es[r].action.readable {
      LiveSinceLookIff(es, r, n, c);
    }
  }

  /** An unreadable look clears its context whoever owns the video, and the claim after it takes the video over. */
  lemma UnreadableLookTakesOver(es: seq<Event>, me: Context, now: int)
    ensures var run := es + [Event(me, ReadOwner(false), now, true)] + [Event(me, Claim, now, true)];
      && Clears(run, |es|, me) && Claims(run, |es| + 1, me)
      && After(run).store.owner == Some(Owner(me, now))
      && (IsForeignOwner(After(es).store.owner, me, now) <==>
        IsForeignOwner(After(run[..|es| + 1]).store.owner, me, now))
  {
    var run := es + [Event(me, ReadOwner(false), now, true)] + [Event(me, Claim, now, true)];
    assert run[..|es|] == es && run[..|run|] == run;
    AfterNext(run, |es|);
    AfterNext(run, |es| + 1);
  }

  /** Two contexts that look before either writes both claim; the loser's chunks are refused from then on. */
  lemma LiveOwnerCanBeReplaced(meta: Meta, row: Row)
    ensures var es := [
        Event(1, ReadOwner(true), 0, true), Event(2, ReadOwner(true), 0, true),
        Event(1, Claim, 0, true), Event(2, Claim, 0, true), Event(1, Chunk(meta, row), 0, true)];
      Claims(es, 3, 2) && LiveForeigner(es, 3, 2, 0) && !Took(es, 4)
  {
    var es := [
      Event(1, ReadOwner(true), 0, true), Event(2, ReadOwner(true), 0, true),
      Event(1, Claim, 0, true), Event(2, Claim, 0, true), Event(1, Chunk(meta, row), 0, true)];
    assert es[..0] == [];
    AfterNext(es, 0);
    AfterNext(es, 1);
    AfterNext(es, 2);
    AfterNext(es, 3);
    assert After(es[..3]).store.owner == Some(Owner(1, 0));
    ForeignIsLive(es, 3, 2, 0);
  }

  // ---------------------------------------------------------------------------
  // The transactions
  // ---------------------------------------------------------------------------

  /** The record store shared by all contexts, for one video; `events` is the run so far. */
  class SharedStore {
    var video: Option<Meta>
    var rows: seq<Row>
    var owner: Option<Owner>
    var cleared: set<Context>
    ghost var events: seq<Event>

    ghost function Now(): State
      reads this
    {
      State(Store(video, rows, owner), cleared)
    }

    ghost predicate Valid()
      reads this
    {
      Now() == After(events)
    }

    constructor ()
      ensures Valid() && events == []
    {
      video, rows, owner, cleared, events := None, [], None, {}, [];
    }

    /** The run after one more event. */
    lemma Extended(before: seq<Event>, e: Event)
      ensures After(before + [e]) == Step(After(before), e)
    {
      assert (before + [e])[..|before|] == before;
    }

    method IsForeign(me: Context, now: int) returns (foreign: bool)
      ensures foreign == IsForeignOwner(owner, me, now)
      ensures Valid() && ClockRuns(events) ==> (foreign <==> LiveForeigner(events, |events|, me, now))
    {
      if Valid() && ClockRuns(events) {
        assert events[..|events|] == events;
        ForeignIsLive(events, |events|, me, now);
      }
      if owner.None? || owner.value.context == me {
        return false;
      }
      return now - owner.value.heartbeatAt < OWNER_LIVENESS_MS;
    }

    /** The look before a claim; true when the caller may go on to write one. */
    method LookAtOwner(me: Context, readable: bool, now: int, commits: bool) returns (clear: bool)
      requires Valid()
      modifies this
      ensures Valid() && events == old(events) + [Event(me, ReadOwner(readable), now, commits)]
      ensures clear == Takes(old(Now()), Event(me, ReadOwner(readable), now, commits))
    {
      ghost var e := Event(me, ReadOwner(readable), now, commits);
      var foreign := IsForeign(me, now);
      clear := commits && !(readable && foreign);
      cleared := if clear then cleared + {me} else cleared - {me};
      Extended(events, e);
      events := events + [e];
    }

    /** Overwrites whatever record is there. */
    method WriteClaim(me: Context, now: int, commits: bool) returns (ok: bool)
      requires Valid()
      modifies this
      ensures Valid() && events == old(events) + [Event(me, Claim, now, commits)]
      ensures ok == Takes(old(Now()), Event(me, Claim, now, commits))
    {
      ghost var e := Event(me, Claim, now, commits);
      ok := commits && me in cleared;
      if ok {
        owner := Some(Owner(me, now));
        cleared := cleared - {me};
      }
      Extended(events, e);
      events := events + [e];
    }

    method TouchOwner(me: Context, now: int, commits: bool)
      requires Valid()
      modifies this
      ensures Valid() && events == old(events) + [Event(me, Heartbeat, now, commits)]
    {
      ghost var e := Event(me, Heartbeat, now, commits);
      if commits && owner.Some? && owner.value.context == me {
        owner := Some(owner.value.(heartbeatAt := now));
      }
      Extended(events, e);
      events := events + [e];
    }

    method ReleaseOwnership(me: Context, now: int, commits: bool)
      requires Valid()
      modifies this
      ensures Valid() && events == old(events) + [Event(me, Release, now, commits)]
    {
      ghost var e := Event(me, Release, now, commits);
      if commits && owner.Some? && owner.value.context == me {
        owner := None;
      }
      Extended(events, e);
      events := events + [e];
    }

    /** The fence and the two puts, or nothing. */
    method WriteChunk(me: Context, meta: Meta, row: Row, now: int, commits: bool) returns (ok: bool)
      requires Valid()
      modifies this
      ensures Valid() && events == old(events) + [Event(me, Chunk(meta, row), now, commits)]
      ensures ok == Takes(old(Now()), Event(me, Chunk(meta, row), now, commits))
    {
      ghost var e := Event(me, Chunk(meta, row), now, commits);
      ok := commits && owner.Some? && owner.value.context == me;
      if ok {
        video := Some(meta);
        rows := PutRow(rows, row);
      }
      Extended(events, e);
      events := events + [e];
    }

    method ResetRepresentation(me: Context, meta: Meta, now: int, commits: bool) returns (ok: bool)
      requires Valid()
      modifies this
      ensures Valid() && events == old(events) + [Event(me, Reset(meta), now, commits)]
      ensures ok == Takes(old(Now()), Event(me, Reset(meta), now, commits))
    {
      ghost var e := Event(me, Reset(meta), now, commits);
      ok := commits && owner.Some? && owner.value.context == me;
      if ok {
        rows := [];
        video := Some(meta);
      }
      Extended(events, e);
      events := events + [e];
    }

    /** False when a live foreign owner refuses the deletion, or the transaction fails. */
    method DeleteFenced(me: Context, now: int, commits: bool) returns (ok: bool)
      requires Valid()
      modifies this
      ensures Valid() && events == old(events) + [Event(me, Delete, now, commits)]
      ensures ok == Takes(old(Now()), Event(me, Delete, now, commits))
    {
      ghost var e := Event(me, Delete, now, commits);
      var foreign := IsForeign(me, now);
      ok := commits && !foreign;
      if ok {
        video, rows, owner := None, [], None;
      }
      Extended(events, e);
      events := events + [e];
    }

    /** Unfenced. */
    method PutVideoRow(me: Context, meta: Meta, now: int, commits: bool)
      requires Valid()
      modifies this
      ensures Valid() && events == old(events) + [Event(me, VideoRow(meta), now, commits)]
    {
      ghost var e := Event(me, VideoRow(meta), now, commits);
      ghost var next := Step(Now(), e);
      if commits {
        video := Some(meta);
      }
      assert Now() == next;
      Extended(events, e);
      events := events + [e];
    }

    /** Unfenced. */
    method RepairRows(me: Context, cut: int, now: int, commits: bool)
      requires Valid()
      modifies this
      ensures Valid() && events == old(events) + [Event(me, Repair(cut), now, commits)]
    {
      ghost var e := Event(me, Repair(cut), now, commits);
      ghost var next := Step(Now(), e);
      if commits {
        rows := DropFrom(rows, cut);
      }
      assert Now() == next;
      Extended(events, e);
      events := events + [e];
    }
  }
}
