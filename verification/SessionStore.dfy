/**
 * The session store as the source has it: one object whose fields the queued
 * operations change in place, and a disk that holds one replaceable document.  Each
 * method is one step of `SessionModel`.
 */
module SessionStore {
  import opened Common
  import opened SessionDocument
  import opened SessionModel
  import SessionTheorems

  class Disk {
    var document: Option<Json>

    constructor ()
      ensures document == None
    {
      document := None;
    }
  }

  class SessionStore {
    const disk: Disk
    var epoch: Option<string>
    var sessions: Allowlist
    var initialized: bool
    var healthy: bool
    /** The chain of operations behind `writer`, and the one whose write is in flight. */
    var pending: seq<Op>
    var writing: Option<Writing>
    ghost var log: seq<Entry>

    ghost function State(): Process
      reads this
    {
      Process(epoch, sessions, initialized, healthy, pending, writing)
    }

    ghost function System(now: int): System
      reads this, disk
    {
      SessionModel.System(disk.document, State(), now, log)
    }

    /** A process that has just started on this disk, after what `history` records. */
    constructor (disk: Disk, ghost history: seq<Entry>)
      ensures this.disk == disk && State() == Booted && log == history
    {
      this.disk := disk;
      epoch, sessions, initialized, healthy, pending, writing := None, map[], false, false, [], None;
      log := history;
    }

    // -------------------------------------------------------------------------
    // Calls
    // -------------------------------------------------------------------------

    method Initialize(ghost now: int)
      modifies this`pending
      ensures System(now) == Step(old(System(now)), Calls(SessionModel.Initialize))
    {
      pending := pending + [SessionModel.Initialize];
    }

    /** `accepted` is false where the source throws or returns a rejected promise. */
    method Add(sid: string, exp: int, ghost now: int) returns (accepted: bool)
      modifies this`pending
      ensures System(now) == Step(old(System(now)), Calls(SessionModel.Add(sid, exp)))
      ensures accepted <==> !RejectedAtCall(old(State()), SessionModel.Add(sid, exp))
    {
      if !(initialized && healthy) {
        return false;
      }
      if !IsValidSid(sid) {
        return false;
      }
      if !IsValidExpiry(exp) {
        return false;
      }
      pending := pending + [SessionModel.Add(sid, exp)];
      return true;
    }

    method Remove(sid: string, ghost now: int) returns (accepted: bool)
      modifies this`pending
      ensures System(now) == Step(old(System(now)), Calls(SessionModel.Remove(sid)))
      ensures accepted <==> Usable(old(State()))
    {
      if !(initialized && healthy) {
        return false;
      }
      pending := pending + [SessionModel.Remove(sid)];
      return true;
    }

    method Has(sid: string, exp: int) returns (r: bool)
      ensures r <==> SessionModel.Has(State(), sid, exp)
      ensures forall now: int :: SessionTheorems.Reachable(System(now)) && writing.None? && exp > now ==>
        (r <==> Usable(State()) && sid in Fold(log) && Fold(log)[sid] == exp)
    {
      forall now: int | SessionTheorems.Reachable(System(now)) && Usable(State()) && writing.None? && exp > now
        ensures SessionModel.Has(State(), sid, exp) <==> sid in Fold(log) && Fold(log)[sid] == exp
      {
        SessionTheorems.IdleMembership(System(now), sid, exp);
      }
      if !initialized || !healthy {
        return false;
      }
      if sid !in sessions {
        return false;
      }
      return sessions[sid] == exp;
    }

    /** Number of records that have not expired. */
    method Size(now: int) returns (count: nat)
      ensures count == |Live(sessions, now)|
    {
      count := 0;
      var rest := sessions.Keys;
      ghost var counted: set<string> := {};
      while rest != {}
        invariant rest <= sessions.Keys
        invariant counted == set sid | sid in sessions && sid !in rest && sessions[sid] > now
        invariant count == |counted|
        decreases rest
      {
        var sid :| sid in rest;
        if sessions[sid] > now {
          count := count + 1;
          counted := counted + {sid};
        }
        rest := rest - {sid};
      }
      assert counted == Live(sessions, now).Keys;
      assert |Live(sessions, now)| == |Live(sessions, now).Keys|;
    }

    // -------------------------------------------------------------------------
    // The next operation of the chain
    // -------------------------------------------------------------------------

    /** Delete the entries that have expired. */
    method Prune(now: int)
      modifies this`sessions
      ensures sessions == Live(old(sessions), now)
    {
      var rest := sessions.Keys;
      while rest != {}
        invariant rest <= old(sessions).Keys
        invariant forall sid :: sid in rest ==> sid in sessions
        invariant forall sid :: sid in sessions <==> sid in old(sessions) && (sid in rest || old(sessions)[sid] > now)
        invariant forall sid :: sid in sessions ==> sessions[sid] == old(sessions)[sid]
        decreases rest
      {
        var sid :| sid in rest;
        if sessions[sid] <= now {
          sessions := sessions - {sid};
        }
        rest := rest - {sid};
      }
    }

    /** `persistSnapshot` up to its first write; false where it throws for want of an epoch. */
    method WriteSnapshot(op: Op) returns (ok: bool, records: seq<Record>)
      modifies this`writing
      ensures ok <==> epoch.Some?
      ensures ok ==>
        && IsSnapshot(records, sessions)
        && writing == Some(Writing(op, DocumentOf(epoch.value, records), false))
      ensures !ok ==> writing == old(writing)
    {
      records := [];
      if epoch.None? {
        return false, [];
      }
      records := Snapshot(sessions);
      writing := Some(Writing(op, DocumentOf(epoch.value, records), false));
      return true, records;
    }

    /** Run the head of the chain until it settles or waits for its write. */
    method BeginNext(now: int, drawn: string) returns (records: seq<Record>)
      requires pending != [] && writing.None? && IsValidEpoch(drawn)
      modifies this
      ensures Enabled(old(System(now)), Begins(drawn, records))
      ensures System(now) == Step(old(System(now)), Begins(drawn, records))
    {
      records := [];
      var op := pending[0];
      pending := pending[1..];
      match op {
        case Initialize =>
          if disk.document.Some? {
            LoadFromDisk();
          } else {
            epoch, sessions := Some(drawn), map[];
            var ok, written := WriteSnapshot(op);
            records := written;
          }
        case Add(sid, exp) =>
          if initialized && healthy {
            Prune(now);
            if sid in sessions || |sessions| < MAX_ACTIVE_SESSIONS {
              sessions := sessions[sid := exp];
              var ok, written := WriteSnapshot(op);
              records := written;
            }
          }
        case Remove(sid) =>
          if initialized && healthy {
            if sid !in sessions {
              log := Note(log, Acknowledged(op));
              return;
            }
            sessions := sessions - {sid};
            var ok, written := WriteSnapshot(op);
            records := written;
          }
      }
    }

    method LoadFromDisk()
      requires disk.document.Some?
      modifies this`epoch, this`sessions, this`healthy, this`initialized
      ensures match Load(disk.document.value)
              case Ok(loaded) => epoch == Some(loaded.0) && sessions == loaded.1 && healthy && initialized
              case Err(_) =>
                && epoch == None && sessions == map[]
                && healthy == old(healthy) && initialized == old(initialized)
    {
      var loaded := ApplyDocument(disk.document.value);
      epoch, sessions := None, map[];
      match loaded {
        case Ok(v) => epoch, sessions, healthy, initialized := Some(v.0), v.1, true, true;
        case Err(_) =>
      }
    }

    method ReadFails(ghost now: int)
      requires pending != [] && pending[0] == SessionModel.Initialize
      modifies this`pending
      ensures System(now) == Step(old(System(now)), SessionModel.ReadFails)
    {
      pending := pending[1..];
    }

    // -------------------------------------------------------------------------
    // The write in flight
    // -------------------------------------------------------------------------

    /** The atomic replacement of the live document. */
    method Rename(ghost now: int)
      requires writing.Some?
      modifies this`writing, disk
      ensures System(now) == Step(old(System(now)), Renames)
    {
      disk.document := Some(writing.value.document);
      writing := Some(writing.value.(renamed := true));
    }

    method Complete(ghost now: int)
      requires writing.Some?
      modifies this
      ensures System(now) == Step(old(System(now)), Completes)
    {
      var op := writing.value.op;
      writing := None;
      if op == SessionModel.Initialize {
        healthy, initialized := true, true;
      }
      log := Note(log, Acknowledged(op));
    }

    method WriteFails(ghost now: int)
      modifies this`writing, this`healthy, this`initialized
      ensures System(now) == Step(old(System(now)), SessionModel.WriteFails)
    {
      writing, healthy, initialized := None, false, true;
    }
  }
}
