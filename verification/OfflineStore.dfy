/**
 * What the offline downloader keeps for one video (src/frontend/js/services/offlineService.js):
 * its metadata row, its chunk rows and its ownership record, and the transactions over them.
 */
module OfflineStore {
  import opened Common
  import opened Text
  import opened RangeBody

  datatype Status = Downloading | Paused | Ready

  /** The metadata row; an absent counter is 0, an absent validator `None`. */
  datatype Meta = Meta(
    status: Status,
    totalBytes: int,
    completedBytes: int,
    chunkCount: int,
    etag: Option<string>,
    etagStrong: bool,
    lastModified: Option<string>)

  /** A chunk row; `None` stands for a bound that is no safe integer, or for no blob. */
  datatype Row = Row(index: nat, start: Option<int>, end: Option<int>, blob: Option<Bytes>)

  type Context = nat

  datatype Owner = Owner(context: Context, heartbeatAt: int)

  /** `rows` are in key order. */
  datatype Store = Store(video: Option<Meta>, rows: seq<Row>, owner: Option<Owner>)

  const OWNER_LIVENESS_MS := 15000

  const EmptyStore := Store(None, [], None)

  // ---------------------------------------------------------------------------
  // Keys
  // ---------------------------------------------------------------------------

  function PadStart(s: string): string
    decreases 6 - |s|
  {
    if |s| >= 6 then s else PadStart("0" + s)
  }

  function ChunkKey(index: nat): string {
    PadStart(Print(index))
  }

  function Position(rows: seq<Row>, index: nat): (i: nat)
    ensures i <= |rows|
    ensures i < |rows| ==> rows[i].index == index
    ensures i == |rows| ==> forall j :: 0 <= j < |rows| ==> rows[j].index != index
  {
    if rows == [] || rows[0].index == index then 0 else 1 + Position(rows[1..], index)
  }

  function InsertRow(rows: seq<Row>, row: Row): seq<Row> {
    if rows == [] || StringLess(ChunkKey(row.index), ChunkKey(rows[0].index)) then [row] + rows
    else [rows[0]] + InsertRow(rows[1..], row)
  }

  function PutRow(rows: seq<Row>, row: Row): seq<Row> {
    var i := Position(rows, row.index);
    if i < |rows| then rows[i := row] else InsertRow(rows, row)
  }

  // ---------------------------------------------------------------------------
  // Transactions; `None` is an aborted one
  // ---------------------------------------------------------------------------

  predicate IsForeignOwner(owner: Option<Owner>, me: Context, now: int) {
    owner.Some? && owner.value.context != me && now - owner.value.heartbeatAt < OWNER_LIVENESS_MS
  }

  predicate Owns(s: Store, me: Context) {
    s.owner.Some? && s.owner.value.context == me
  }

  function PutVideo(s: Store, meta: Meta): Store {
    s.(video := Some(meta))
  }

  function DropFrom(rows: seq<Row>, cut: int): seq<Row> {
    if rows == [] then []
    else if rows[0].start.Some? && rows[0].start.value >= cut then DropFrom(rows[1..], cut)
    else [rows[0]] + DropFrom(rows[1..], cut)
  }

  function RepairTrailing(s: Store, cut: int): Store {
    s.(rows := DropFrom(s.rows, cut))
  }

  function WriteOwnedChunk(s: Store, me: Context, meta: Meta, row: Row): Option<Store> {
    if !Owns(s, me) then None else Some(s.(video := Some(meta), rows := PutRow(s.rows, row)))
  }

  function ResetForNewRepresentation(s: Store, me: Context, reset: Meta): Option<Store> {
    if !Owns(s, me) then None else Some(s.(video := Some(reset), rows := []))
  }

  function DeleteVideoData(s: Store, me: Context, now: int): Option<Store> {
    if IsForeignOwner(s.owner, me, now) then None else Some(EmptyStore)
  }

  function PutClaim(s: Store, me: Context, now: int): Store {
    s.(owner := Some(Owner(me, now)))
  }

  function Touch(s: Store, me: Context, now: int): Store {
    if Owns(s, me) then s.(owner := Some(Owner(me, now))) else s
  }

  function ReleaseClaim(s: Store, me: Context): Store {
    if Owns(s, me) then s.(owner := None) else s
  }

  /**
   * The database as one video sees it; `history` holds every state a transaction of the
   * current session has committed, from the one it found on, `commits` is how many they are,
   * and `earlier` holds the states of the sessions before.
   */
  class Database {
    var store: Store
    var commits: nat
    ghost var history: seq<Store>
    ghost var earlier: seq<Store>

    ghost predicate Valid()
      reads this
    {
      commits == |history| && history != [] && history[|history| - 1] == store
    }

    constructor (s: Store)
      ensures Valid() && history == [s] && earlier == []
    {
      store := s;
      commits := 1;
      history := [s];
      earlier := [];
    }

    /** A new session finds the database as the last one left it. */
    method Begin()
      requires Valid()
      modifies this
      ensures Valid() && history == [store] && store == old(store)
      ensures earlier + history == old(earlier + history)
    {
      earlier := earlier + history[..|history| - 1];
      history := [store];
      commits := 1;
    }

    /** A transaction that ends in `next`, or leaves no trace when it aborts. */
    method Transact(next: Option<Store>, succeeds: bool) returns (ok: bool)
      requires Valid()
      modifies this`store, this`commits, this`history
      ensures Valid() && ok == (succeeds && next.Some?)
      ensures history == if ok then old(history) + [next.value] else old(history)
    {
      ok := succeeds && next.Some?;
      if ok {
        store := next.value;
        commits := commits + 1;
        history := history + [store];
      }
    }
  }
}
