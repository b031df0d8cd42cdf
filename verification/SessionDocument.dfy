/**
 * The persisted allowlist document of src/services/sessionStore.ts: what the store
 * writes, what it accepts when it loads, and that the two are inverse.
 */
module SessionDocument {
  import opened Common
  import opened Text

  /** A parsed JSON value; `JInteger` is a number with no fraction, of any size. */
  datatype Json =
    | JNull
    | JBool(flag: bool)
    | JInteger(number: int)
    | JFraction
    | JString(text: string)
    | JArray(items: seq<Json>)
    | JObject(fields: map<string, Json>)

  datatype Record = Record(sid: string, exp: int)

  type Allowlist = map<string, int>

  datatype LoadError =
    | NotAnObject
    | UnsupportedVersion
    | MalformedEpoch
    | MalformedSessions
    | MalformedRecord
    | MalformedSid
    | MalformedExpiry
    | DuplicateSid

  predicate SidChar(c: char) {
    'A' <= c <= 'Z' || 'a' <= c <= 'z' || '0' <= c <= '9' || c == '_' || c == '-'
  }

  predicate IsValidSid(sid: string) {
    8 <= |sid| <= 128 && forall i :: 0 <= i < |sid| ==> SidChar(sid[i])
  }

  predicate HexChar(c: char) {
    '0' <= c <= '9' || 'a' <= c <= 'f'
  }

  predicate IsValidEpoch(epoch: string) {
    |epoch| == 64 && forall i :: 0 <= i < |epoch| ==> HexChar(epoch[i])
  }

  predicate IsValidExpiry(exp: int) {
    0 < exp <= MAX_SAFE_INTEGER
  }

  predicate IsValidRecord(r: Record) {
    IsValidSid(r.sid) && IsValidExpiry(r.exp)
  }

  // ---------------------------------------------------------------------------
  // Loading
  // ---------------------------------------------------------------------------

  /** Property access: `None` is `undefined`. */
  function Field(j: Json, name: string): Option<Json> {
    if j.JObject? && name in j.fields then Some(j.fields[name]) else None
  }

  predicate IsObject(j: Json) {
    j.JObject? || j.JArray?
  }

  function LoadRecord(entry: Json): Result<Record, LoadError> {
    if !IsObject(entry) then Err(MalformedRecord)
    else
      var sid, exp := Field(entry, "sid"), Field(entry, "exp");
      if !(sid.Some? && sid.value.JString? && IsValidSid(sid.value.text)) then Err(MalformedSid)
      else if !(exp.Some? && exp.value.JInteger? && IsValidExpiry(exp.value.number)) then Err(MalformedExpiry)
      else Ok(Record(sid.value.text, exp.value.number))
  }

  function LoadRecords(items: seq<Json>, loaded: Allowlist): Result<Allowlist, LoadError> {
    if items == [] then Ok(loaded)
    else
      match LoadRecord(items[0])
      case Err(e) => Err(e)
      case Ok(r) =>
        if r.sid in loaded then Err(DuplicateSid)
        else LoadRecords(items[1..], loaded[r.sid := r.exp])
  }

  /** `applyDocument`: the epoch and allowlist, or the first check that fails. */
  function Load(j: Json): Result<(string, Allowlist), LoadError> {
    if !IsObject(j) then Err(NotAnObject)
    else
      var version, epoch, sessions := Field(j, "version"), Field(j, "epoch"), Field(j, "sessions");
      if version != Some(JInteger(1)) then Err(UnsupportedVersion)
      else if !(epoch.Some? && epoch.value.JString? && IsValidEpoch(epoch.value.text)) then Err(MalformedEpoch)
      else if !(sessions.Some? && sessions.value.JArray?) then Err(MalformedSessions)
      else
        match LoadRecords(sessions.value.items, map[])
        case Err(e) => Err(e)
        case Ok(m) => Ok((epoch.value.text, m))
  }

  /** The same loader as the source writes it: one loop over the entries. */
  method ApplyDocument(j: Json) returns (r: Result<(string, Allowlist), LoadError>)
    ensures r == Load(j)
  {
    if !IsObject(j) {
      return Err(NotAnObject);
    }
    var version, epoch, entries := Field(j, "version"), Field(j, "epoch"), Field(j, "sessions");
    if version != Some(JInteger(1)) {
      return Err(UnsupportedVersion);
    }
    if !(epoch.Some? && epoch.value.JString? && IsValidEpoch(epoch.value.text)) {
      return Err(MalformedEpoch);
    }
    if !(entries.Some? && entries.value.JArray?) {
      return Err(MalformedSessions);
    }
    var items := entries.value.items;
    var sessions: Allowlist := map[];
    var seen: set<string> := {};
    var i := 0;
    assert items[0..] == items;
    while i < |items|
      invariant 0 <= i <= |items|
      invariant seen == sessions.Keys
      invariant LoadRecords(items[i..], sessions) == LoadRecords(items, map[])
    {
      assert items[i..][1..] == items[i + 1..];
      match LoadRecord(items[i]) {
        case Err(e) => return Err(e);
        case Ok(rec) =>
          if rec.sid in seen {
            return Err(DuplicateSid);
          }
          seen := seen + {rec.sid};
          sessions := sessions[rec.sid := rec.exp];
      }
      i := i + 1;
    }
    return Ok((epoch.value.text, sessions));
  }

  // ---------------------------------------------------------------------------
  // Writing
  // ---------------------------------------------------------------------------

  function RecordJson(r: Record): Json {
    JObject(map["sid" := JString(r.sid), "exp" := JInteger(r.exp)])
  }

  function DocumentOf(epoch: string, records: seq<Record>): Json {
    JObject(map["version" := JInteger(1), "epoch" := JString(epoch),
                "sessions" := JArray(seq(|records|, i requires 0 <= i < |records| => RecordJson(records[i])))])
  }

  ghost predicate SortedBySid(records: seq<Record>) {
    forall i, j :: 0 <= i < j < |records| ==> StringLess(records[i].sid, records[j].sid)
  }

  /** The entries of an allowlist, sorted by id. */
  ghost predicate IsSnapshot(records: seq<Record>, m: Allowlist) {
    && SortedBySid(records)
    && (forall i :: 0 <= i < |records| ==> records[i].sid in m && m[records[i].sid] == records[i].exp)
    && (forall sid :: sid in m ==> Record(sid, m[sid]) in records)
  }

  lemma {:induction false} LessIrreflexive(a: string)
    ensures !StringLess(a, a)
  {
    if a != [] {
      LessIrreflexive(a[1..]);
    }
  }

  lemma {:induction false} LessTransitive(a: string, b: string, c: string)
    requires StringLess(a, b) && StringLess(b, c)
    ensures StringLess(a, c)
  {
    if a != [] && a[0] == b[0] && b[0] == c[0] {
      LessTransitive(a[1..], b[1..], c[1..]);
    }
  }

  lemma {:induction false} LessTotal(a: string, b: string)
    requires a != b
    ensures StringLess(a, b) || StringLess(b, a)
  {
    if a != [] && b != [] && a[0] == b[0] {
      assert a == [a[0]] + a[1..] && b == [b[0]] + b[1..];
      LessTotal(a[1..], b[1..]);
    }
  }

  /** Put one entry at its place: the sort of the snapshot, one element at a time. */
  function Insert(r: Record, records: seq<Record>): seq<Record> {
    if records == [] || StringLess(r.sid, records[0].sid) then [r] + records
    else [records[0]] + Insert(r, records[1..])
  }

  lemma {:induction false} InsertContents(r: Record, records: seq<Record>)
    ensures forall x :: x in Insert(r, records) <==> x == r || x in records
  {
    if !(records == [] || StringLess(r.sid, records[0].sid)) {
      InsertContents(r, records[1..]);
      assert records == [records[0]] + records[1..];
    }
  }

  lemma {:induction false} InsertSorted(r: Record, records: seq<Record>)
    requires SortedBySid(records) && forall i :: 0 <= i < |records| ==> records[i].sid != r.sid
    ensures SortedBySid(Insert(r, records))
  {
    var out := Insert(r, records);
    if records == [] {
    } else if StringLess(r.sid, records[0].sid) {
      forall j | 0 < j < |out| ensures StringLess(r.sid, out[j].sid) {
        if j > 1 { LessTransitive(r.sid, records[0].sid, records[j - 1].sid); }
      }
    } else {
      LessTotal(r.sid, records[0].sid);
      var rest := Insert(r, records[1..]);
      InsertSorted(r, records[1..]);
      InsertContents(r, records[1..]);
      forall j | 0 < j < |out| ensures StringLess(records[0].sid, out[j].sid) {
        assert out[j] == rest[j - 1] && rest[j - 1] in rest;
      }
      forall i, j | 0 < i < j < |out| ensures StringLess(out[i].sid, out[j].sid) {
        assert out[i] == rest[i - 1] && out[j] == rest[j - 1];
      }
    }
  }

  /** Collect and sort the entries, as `persistSnapshot` does before it writes. */
  method Snapshot(m: Allowlist) returns (records: seq<Record>)
    ensures IsSnapshot(records, m)
  {
    records := [];
    var rest := m.Keys;
    while rest != {}
      invariant rest <= m.Keys
      invariant SortedBySid(records)
      invariant forall x :: x in records <==> x.sid in m && x.sid !in rest && m[x.sid] == x.exp
      decreases rest
    {
      var sid :| sid in rest;
      var r := Record(sid, m[sid]);
      InsertContents(r, records);
      forall i | 0 <= i < |records| ensures records[i].sid != sid { assert records[i] in records; }
      InsertSorted(r, records);
      records := Insert(r, records);
      rest := rest - {sid};
    }
    forall i | 0 <= i < |records| ensures records[i].sid in m && m[records[i].sid] == records[i].exp {
      assert records[i] in records;
    }
  }

  // ---------------------------------------------------------------------------
  // Persist, then load
  // ---------------------------------------------------------------------------

  ghost predicate ValidAllowlist(m: Allowlist) {
    forall sid :: sid in m ==> IsValidSid(sid) && IsValidExpiry(m[sid])
  }

  /** `m` is `loaded` with the records added. */
  ghost predicate Gathered(m: Allowlist, records: seq<Record>, loaded: Allowlist) {
    && (forall sid :: sid in m <==> sid in loaded || exists i :: 0 <= i < |records| && records[i].sid == sid)
    && (forall sid :: sid in loaded ==> sid in m && m[sid] == loaded[sid])
    && (forall i :: 0 <= i < |records| ==> records[i].sid in m && m[records[i].sid] == records[i].exp)
  }

  lemma GatheredOneMore(m: Allowlist, records: seq<Record>, loaded: Allowlist)
    requires records != [] && records[0].sid !in loaded
    requires Gathered(m, records[1..], loaded[records[0].sid := records[0].exp])
    ensures Gathered(m, records, loaded)
  {
    var rest := records[1..];
    forall sid ensures sid in m <==> sid in loaded || exists i :: 0 <= i < |records| && records[i].sid == sid {
      if i :| 0 <= i < |records| && records[i].sid == sid {
        assert i > 0 ==> rest[i - 1].sid == sid;
      }
      if i :| 0 <= i < |rest| && rest[i].sid == sid {
        assert records[i + 1].sid == sid;
      }
    }
    forall i | 0 <= i < |records| ensures records[i].sid in m && m[records[i].sid] == records[i].exp {
      assert i > 0 ==> rest[i - 1] == records[i];
    }
  }

  lemma RestIsNew(records: seq<Record>, loaded: Allowlist)
    requires records != [] && SortedBySid(records)
    requires forall i :: 0 <= i < |records| ==> records[i].sid !in loaded
    ensures forall i :: 0 <= i < |records[1..]| ==> records[1..][i].sid !in loaded[records[0].sid := records[0].exp]
  {
    forall i | 0 <= i < |records[1..]|
      ensures records[1..][i].sid !in loaded[records[0].sid := records[0].exp]
    {
      assert StringLess(records[0].sid, records[i + 1].sid);
      LessIrreflexive(records[0].sid);
    }
  }

  lemma {:induction false} LoadRecordsGathers(records: seq<Record>, items: seq<Json>, loaded: Allowlist)
    requires |items| == |records|
    requires forall i :: 0 <= i < |records| ==> items[i] == RecordJson(records[i]) && IsValidRecord(records[i])
    requires SortedBySid(records)
    requires forall i :: 0 <= i < |records| ==> records[i].sid !in loaded
    ensures LoadRecords(items, loaded).Ok? && Gathered(LoadRecords(items, loaded).value, records, loaded)
  {
    if records != [] {
      var r, rest := records[0], records[1..];
      assert LoadRecord(items[0]) == Ok(r);
      RestIsNew(records, loaded);
      LoadRecordsGathers(rest, items[1..], loaded[r.sid := r.exp]);
      GatheredOneMore(LoadRecords(items[1..], loaded[r.sid := r.exp]).value, records, loaded);
    }
  }

  lemma SnapshotGathers(m: Allowlist, records: seq<Record>, loaded: Allowlist)
    requires IsSnapshot(records, m) && Gathered(loaded, records, map[])
    ensures loaded == m
  {
    forall sid ensures sid in loaded <==> sid in m {
      if sid in m {
        var i :| 0 <= i < |records| && records[i] == Record(sid, m[sid]);
        assert records[i].sid == sid;
      }
    }
    forall sid | sid in m ensures loaded[sid] == m[sid] {
      var i :| 0 <= i < |records| && records[i] == Record(sid, m[sid]);
    }
  }

  /** Every document the store writes passes its own checks and rebuilds the same state. */
  lemma PersistThenLoad(epoch: string, m: Allowlist, records: seq<Record>)
    requires IsValidEpoch(epoch) && ValidAllowlist(m) && IsSnapshot(records, m)
    ensures Load(DocumentOf(epoch, records)) == Ok((epoch, m))
  {
    var items := DocumentOf(epoch, records).fields["sessions"].items;
    LoadRecordsGathers(records, items, map[]);
    SnapshotGathers(m, records, LoadRecords(items, map[]).value);
  }

  /** Whatever loads is a valid epoch and allowlist. */
  lemma {:induction false} LoadIsValid(j: Json)
    requires Load(j).Ok?
    ensures IsValidEpoch(Load(j).value.0) && ValidAllowlist(Load(j).value.1)
  {
    LoadRecordsValid(Field(j, "sessions").value.items, map[]);
  }

  lemma {:induction false} LoadRecordsValid(items: seq<Json>, loaded: Allowlist)
    requires ValidAllowlist(loaded) && LoadRecords(items, loaded).Ok?
    ensures ValidAllowlist(LoadRecords(items, loaded).value)
  {
    if items != [] {
      var r := LoadRecord(items[0]).value;
      LoadRecordsValid(items[1..], loaded[r.sid := r.exp]);
    }
  }
}
