/** The keys of chunk records, and that the records stay in key order. */
module KeyOrder {
  import opened Common
  import opened Text
  import opened SessionDocument
  import opened OfflineStore
  import opened DownloadModel

  // ---------------------------------------------------------------------------
  // Padded numbers
  // ---------------------------------------------------------------------------

  lemma {:induction false} FirstDigit(c: char, s: string)
    requires IsDigit(c) && AllDigits(s)
    ensures ParseDigits([c] + s) == DigitValue(c) * Power10(|s|) + ParseDigits(s)
  {
    if s == [] {
      assert ([c] + s)[..0] == [];
    } else {
      var n := |s| - 1;
      assert ([c] + s)[..|[c] + s| - 1] == [c] + s[..n];
      FirstDigit(c, s[..n]);
      assert ParseDigits([c] + s) == 10 * ParseDigits([c] + s[..n]) + DigitValue(s[n]);
      assert DigitValue(c) * Power10(n + 1) == 10 * (DigitValue(c) * Power10(n));
    }
  }

  lemma {:induction false} DigitsBelow(s: string)
    requires AllDigits(s)
    ensures ParseDigits(s) < Power10(|s|)
  {
    if s != [] {
      DigitsBelow(s[..|s| - 1]);
    }
  }

  /** Digit strings of one length stand in the order of their numbers. */
  lemma {:induction false} SameLengthOrder(a: string, b: string)
    requires AllDigits(a) && AllDigits(b) && |a| == |b|
    ensures StringLess(a, b) <==> ParseDigits(a) < ParseDigits(b)
  {
    if a != [] {
      assert a == [a[0]] + a[1..] && b == [b[0]] + b[1..];
      FirstDigit(a[0], a[1..]);
      FirstDigit(b[0], b[1..]);
      DigitsBelow(a[1..]);
      DigitsBelow(b[1..]);
      SameLengthOrder(a[1..], b[1..]);
      if a[0] != b[0] {
        var x, y, p := DigitValue(a[0]), DigitValue(b[0]), Power10(|a[1..]|);
        if x < y {
          SmallerDigit(x, y, p, ParseDigits(a[1..]));
        } else {
          SmallerDigit(y, x, p, ParseDigits(b[1..]));
        }
      }
    }
  }

  lemma SmallerDigit(x: nat, y: nat, p: nat, rest: nat)
    requires x < y && rest < p
    ensures x * p + rest < y * p
  {
    assert (y - x - 1) * p >= 0;
    assert y * p == x * p + p + (y - x - 1) * p;
  }

  lemma {:induction false} PadKeepsNumber(s: string)
    requires AllDigits(s)
    ensures AllDigits(PadStart(s)) && ParseDigits(PadStart(s)) == ParseDigits(s)
    ensures |PadStart(s)| == if |s| >= 6 then |s| else 6
    decreases 6 - |s|
  {
    if |s| < 6 {
      FirstDigit('0', s);
      assert "0" + s == ['0'] + s;
      PadKeepsNumber("0" + s);
    }
  }

  /** A key says which record it is, in any number of digits. */
  lemma KeyTellsIndex(a: nat)
    ensures AllDigits(ChunkKey(a)) && ParseDigits(ChunkKey(a)) == a
  {
    PadKeepsNumber(Print(a));
    ParsePrint(a);
  }

  lemma KeysDiffer(a: nat, b: nat)
    ensures ChunkKey(a) == ChunkKey(b) <==> a == b
  {
    KeyTellsIndex(a);
    KeyTellsIndex(b);
  }

  lemma SixDigits(a: nat)
    requires a < 1000000
    ensures |ChunkKey(a)| == 6
  {
    PadKeepsNumber(Print(a));
    assert Power10(6) == 1000000 by {
      assert Power10(3) == 1000;
      assert Power10(6) == 1000 * Power10(3);
    }
    PrintLength(a, 6);
  }

  /** Below a million, keys stand in the order of their numbers. */
  lemma KeysInNumberOrder(a: nat, b: nat)
    requires a < 1000000 && b < 1000000
    ensures StringLess(ChunkKey(a), ChunkKey(b)) <==> a < b
  {
    SixDigits(a);
    SixDigits(b);
    KeyTellsIndex(a);
    KeyTellsIndex(b);
    SameLengthOrder(ChunkKey(a), ChunkKey(b));
  }

  /** From a million on they do not. */
  lemma MillionComesEarly()
    ensures StringLess(ChunkKey(1000000), ChunkKey(999999))
  {
    var million, before := "1000000", "999999";
    assert Print(100) == "100" by { assert Print(10) == "10"; }
    assert Print(100000) == "100000" by { assert Print(10000) == "10000" by { assert Print(1000) == "1000"; } }
    assert Print(1000000) == million;
    assert Print(999) == "999" by { assert Print(99) == "99"; }
    assert Print(99999) == "99999" by { assert Print(9999) == "9999"; }
    assert Print(999999) == before;
    assert StringLess(million, before);
  }

  // ---------------------------------------------------------------------------
  // Records in key order
  // ---------------------------------------------------------------------------

  /** As a cursor goes through them: by key, no key twice. */
  predicate InKeyOrder(rows: seq<Row>) {
    forall i, j :: 0 <= i < j < |rows| ==> StringLess(ChunkKey(rows[i].index), ChunkKey(rows[j].index))
  }

  lemma {:induction false} InsertedMembers(rows: seq<Row>, row: Row)
    ensures forall r :: r in InsertRow(rows, row) <==> r == row || r in rows
  {
    if !(rows == [] || StringLess(ChunkKey(row.index), ChunkKey(rows[0].index))) {
      InsertedMembers(rows[1..], row);
      assert rows == [rows[0]] + rows[1..];
    }
  }

  lemma {:induction false} InsertKeepsOrder(rows: seq<Row>, row: Row)
    requires InKeyOrder(rows) && forall i :: 0 <= i < |rows| ==> rows[i].index != row.index
    ensures InKeyOrder(InsertRow(rows, row))
  {
    var out := InsertRow(rows, row);
    if rows == [] {
    } else if StringLess(ChunkKey(row.index), ChunkKey(rows[0].index)) {
      forall j | 0 < j < |out| ensures StringLess(ChunkKey(row.index), ChunkKey(out[j].index)) {
        if j > 1 {
          LessTransitive(ChunkKey(row.index), ChunkKey(rows[0].index), ChunkKey(rows[j - 1].index));
        }
      }
    } else {
      KeysDiffer(row.index, rows[0].index);
      LessTotal(ChunkKey(row.index), ChunkKey(rows[0].index));
      var rest := InsertRow(rows[1..], row);
      InsertKeepsOrder(rows[1..], row);
      InsertedMembers(rows[1..], row);
      forall j | 0 < j < |out| ensures StringLess(ChunkKey(rows[0].index), ChunkKey(out[j].index)) {
        assert out[j] == rest[j - 1] && rest[j - 1] in rest;
      }
      forall i, j | 0 < i < j < |out| ensures StringLess(ChunkKey(out[i].index), ChunkKey(out[j].index)) {
        assert out[i] == rest[i - 1] && out[j] == rest[j - 1];
      }
    }
  }

  lemma ReplacedMembers(rows: seq<Row>, i: nat, row: Row)
    requires InKeyOrder(rows) && i < |rows| && rows[i].index == row.index
    ensures forall r :: r in rows[i := row] <==> r == row || (r in rows && r.index != row.index)
  {
    var put := rows[i := row];
    forall j | 0 <= j < |rows| && j != i ensures rows[j].index != row.index {
      LessIrreflexive(ChunkKey(row.index));
    }
    forall r | r == row || (r in rows && r.index != row.index) ensures r in put {
      if r == row {
        assert put[i] == row;
      } else {
        var j :| 0 <= j < |rows| && rows[j] == r;
        assert put[j] == r;
      }
    }
  }

  /** A put replaces the record with its key, or goes to its place by key, and touches no other record. */
  lemma PutKeepsKeyOrder(rows: seq<Row>, row: Row)
    requires InKeyOrder(rows)
    ensures InKeyOrder(PutRow(rows, row))
    ensures forall r :: r in PutRow(rows, row) <==> r == row || (r in rows && r.index != row.index)
  {
    var i := Position(rows, row.index);
    if i < |rows| {
      ReplacedMembers(rows, i, row);
    } else {
      InsertKeepsOrder(rows, row);
      InsertedMembers(rows, row);
    }
  }

  lemma {:induction false} DropKeepsKeyOrder(rows: seq<Row>, cut: int)
    requires InKeyOrder(rows)
    ensures InKeyOrder(DropFrom(rows, cut)) && forall r :: r in DropFrom(rows, cut) ==> r in rows
  {
    if rows != [] {
      var rest := DropFrom(rows[1..], cut);
      DropKeepsKeyOrder(rows[1..], cut);
      assert rows == [rows[0]] + rows[1..];
      forall j | 0 <= j < |rest| ensures StringLess(ChunkKey(rows[0].index), ChunkKey(rest[j].index)) {
        assert rest[j] in rest;
      }
    }
  }

  ghost predicate AllInKeyOrder(h: seq<Store>) {
    forall i :: 0 <= i < |h| ==> InKeyOrder(h[i].rows)
  }

  lemma {:induction false} LoopKeepsKeyOrder(env: Env, h: History, k: Known, i: nat)
    requires AllInKeyOrder(h)
    ensures AllInKeyOrder(Loop(env, h, k, i).history)
    decreases RestartsLeft(k), k.total.None?, Left(k)
  {
    PassLeadsTo(env, h, k, i);
    match OnePass(env, h, k, i)
    case Halt(run) =>
    case Last(h1, k1) =>
      PassKeepsKeyOrder(env, h, k, i, h1);
    case More(h1, k1) =>
      PassKeepsKeyOrder(env, h, k, i, h1);
      LoopKeepsKeyOrder(env, h1, k1, i + 1);
  }

  /** The states that a pass may lead to. */
  ghost predicate PassStates(env: Env, h: History, k: Known, i: nat, h1: History) {
    var c := Ask(env, k, i);
    || h1 == h
    || (|h1| == |h| + 1 && h <= h1 && Now(h1).rows == [])
    || (|h1| == |h| + 1 && h <= h1 && c.Chunk? && Now(h1).rows == PutRow(Now(h).rows, RowOf(k, c)))
  }

  lemma PassLeadsTo(env: Env, h: History, k: Known, i: nat)
    ensures match OnePass(env, h, k, i)
      case Halt(run) => run.history == h
      case Last(h1, _) => PassStates(env, h, k, i, h1)
      case More(h1, _) => PassStates(env, h, k, i, h1)
  {
  }

  lemma PassKeepsKeyOrder(env: Env, h: History, k: Known, i: nat, h1: History)
    requires AllInKeyOrder(h) && PassStates(env, h, k, i, h1)
    ensures AllInKeyOrder(h1)
  {
    var c := Ask(env, k, i);
    if c.Chunk? {
      PutKeepsKeyOrder(Now(h).rows, RowOf(k, c));
    }
    forall j | 0 <= j < |h1| ensures InKeyOrder(h1[j].rows) {
      assert j < |h| ==> h1[j] == h[j];
    }
  }

  lemma RepairKeepsKeyOrder(env: Env, h: History, cut: Option<int>)
    requires AllInKeyOrder(h)
    ensures Repair(env, h, cut).Some? ==> AllInKeyOrder(Repair(env, h, cut).value)
  {
    if cut.Some? {
      DropKeepsKeyOrder(Now(h).rows, cut.value);
    }
  }

  lemma PrepareKeepsKeyOrder(env: Env, h: History)
    requires AllInKeyOrder(h)
    ensures match Prepare(env, h)
      case Stop(run) => AllInKeyOrder(run.history)
      case Resume(h1, _) => AllInKeyOrder(h1)
  {
    if Now(h).video.Some? {
      var cut := RepairCut(Now(h).video.value, Now(h).rows);
      RepairKeepsKeyOrder(env, h, cut);
      var h1 := Repair(env, h, cut);
      if h1.Some? {
        RepairKeepsKeyOrder(env, h1.value, Some(0));
      }
    }
  }

  lemma SameRowsInOrder(h: History, s: Store)
    requires AllInKeyOrder(h) && s.rows == Now(h).rows
    ensures AllInKeyOrder(h + [s])
  {
  }

  lemma RunKeepsKeyOrder(env: Env, h: History)
    requires AllInKeyOrder(h)
    ensures AllInKeyOrder(RunDownload(env, h).history)
  {
    PrepareKeepsKeyOrder(env, h);
    match Prepare(env, h)
    case Stop(run) =>
    case Resume(h1, meta) =>
      SameRowsInOrder(h1, PutVideo(Now(h1), meta));
      LoopKeepsKeyOrder(env, h1 + [PutVideo(Now(h1), meta)], InitialKnown(meta), 0);
  }

  lemma SettlingKeepsKeyOrder(env: Env, run: Run)
    requires AllInKeyOrder(run.history)
    ensures AllInKeyOrder(Settle(env, run).history)
  {
    var paused := PauseWithError(env, run.history);
    assert Now(paused).rows == Now(run.history).rows && AllInKeyOrder(paused);
    SameRowsInOrder(paused, ReleaseClaim(Now(paused), env.me));
    SameRowsInOrder(run.history, ReleaseClaim(Now(run.history), env.me));
  }

  /** Every state of every session keeps its records in key order, each key once. */
  lemma SessionKeepsKeyOrder(env: Env, s: Store)
    requires InKeyOrder(s.rows)
    ensures AllInKeyOrder(StartDownload(env, s).history)
  {
    var h := [s] + [PutClaim(s, env.me, env.now)];
    assert AllInKeyOrder(h);
    SameRowsInOrder(h, ReleaseClaim(Now(h), env.me));
    RunKeepsKeyOrder(env, h);
    SettlingKeepsKeyOrder(env, RunDownload(env, h));
  }
}
