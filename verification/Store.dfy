/** The store object (internal/store): each method is one atomic transaction on the tables. `fault` is the
    outcome of the database call itself: when it is set the call fails and the tables stay as they are. */
module StoreObject {
  import opened Prelude
  import opened Database
  import opened Engine

  /** The outcome of an approve or reject. */
  datatype Resolution = Resolved | NotFound | NotPending(current: Status) | StoreFailed

  /** The outcome of a session lookup. */
  datatype Found = Row(row: Session) | NoRow | LookupFailed

  class Store {
    var db: Db

    constructor ()
      ensures Valid() && db == Db(map[], [], map[], map[])
    {
      db := Db(map[], [], map[], map[]);
    }

    /** Every row's seq is one more than the number of earlier rows of its session, and its session exists. */
    ghost predicate Valid()
      reads this
    {
      && SeqDense(db.events)
      && forall e :: e in db.events ==> e.session in db.sessions
    }

    method GetSession(sid: string, fault: bool) returns (r: Found)
      ensures r == if fault then LookupFailed else if sid in db.sessions then Row(db.sessions[sid]) else NoRow
    {
      if fault {
        return LookupFailed;
      }
      if sid !in db.sessions {
        return NoRow;
      }
      return Row(db.sessions[sid]);
    }

    method CreateSession(sid: string, agent: string, fingerprint: string, fault: bool) returns (ok: bool)
      requires Valid()
      modifies this
      ensures Valid()
      ensures ok <==> !fault && sid !in old(db).sessions
      ensures db == if ok then old(db).(sessions := old(db).sessions[sid := NewSession(agent, fingerprint)])
                    else old(db)
    {
      match InsertSession(db, sid, agent, fingerprint)
      case Error => return false;
      case Ok(after) =>
        if fault {
          return false;
        }
        db := after;
        return true;
    }

    /** SELECT MAX(seq) then INSERT, in one transaction. The row gets the number of rows its session has
        so far, plus one; no other row changes. */
    method AppendEvent(row: EventRow, fault: bool) returns (r: Result<nat>)
      requires Valid()
      modifies this
      ensures Valid()
      ensures r.Ok? <==> !fault && row.session in db.sessions
      ensures r.Ok? ==> r.value == Count(old(db).events, OfSession(row.session)) + 1
                        && db == old(db).(events := old(db).events + [row.(seqNo := r.value)])
      ensures r.Error? ==> db == old(db)
    {
      match InsertEvent(db, row)
      case Error => return Error;
      case Ok((after, n)) =>
        if fault {
          return Error;
        }
        MaxSeqIsCount(db.events, row.session);
        SeqDenseSnoc(db.events, row.(seqNo := n));
        db := after;
        return Ok(n);
    }

    /** ORDER BY seq is insertion order: the k-th row returned has seq k + 1. */
    method GetSessionEvents(sid: string, fault: bool) returns (r: Result<seq<EventRow>>)
      requires Valid()
      ensures r == if fault then Error else Ok(SessionRows(db.events, sid))
      ensures r.Ok? ==> forall k :: 0 <= k < |r.value| ==> r.value[k].seqNo == k + 1
    {
      if fault {
        return Error;
      }
      RowsAreOneToN(db.events, sid);
      return Ok(SessionRows(db.events, sid));
    }

    method UpdateSessionTaint(sid: string, tainted: bool, fault: bool) returns (ok: bool)
      requires Valid()
      modifies this
      ensures Valid()
      ensures ok <==> !fault && sid in old(db).sessions
      ensures ok ==> db == old(db).(sessions := old(db).sessions[sid := old(db).sessions[sid].(tainted := tainted)])
      ensures !ok ==> db == old(db)
    {
      match SetTaint(db, sid, tainted)
      case Error => return false;
      case Ok(after) =>
        if fault {
          return false;
        }
        db := after;
        return true;
    }

    method IncrementSessionCounters(sid: string, cost: nat, fault: bool) returns (ok: bool)
      requires Valid()
      modifies this
      ensures Valid()
      ensures ok <==> !fault && sid in old(db).sessions
      ensures ok ==>
        var row := old(db).sessions[sid];
        db == old(db).(sessions := old(db).sessions[sid := row.(calls := row.calls + 1, cost := row.cost + cost)])
      ensures !ok ==> db == old(db)
    {
      match AddCall(db, sid, cost)
      case Error => return false;
      case Ok(after) =>
        if fault {
          return false;
        }
        db := after;
        return true;
    }

    method TerminateSession(sid: string, fault: bool) returns (ok: bool)
      requires Valid()
      modifies this
      ensures Valid()
      ensures ok <==> !fault && sid in old(db).sessions
      ensures ok ==> db == old(db).(sessions := old(db).sessions[sid := old(db).sessions[sid].(terminated := true)])
      ensures !ok ==> db == old(db)
    {
      match EndSession(db, sid)
      case Error => return false;
      case Ok(after) =>
        if fault {
          return false;
        }
        db := after;
        return true;
    }

    method CreateEscalation(id: string, row: EscalationRow, fault: bool) returns (ok: bool)
      requires Valid()
      modifies this
      ensures Valid()
      ensures ok <==> !fault && id !in old(db).escalations
      ensures db == if ok then old(db).(escalations := old(db).escalations[id := row]) else old(db)
    {
      match InsertEscalation(db, id, row)
      case Error => return false;
      case Ok(after) =>
        if fault {
          return false;
        }
        db := after;
        return true;
    }

    /** UPDATE ... WHERE status = 'pending'; when no row matched, a second call looks the status up, and its
        failure is reported as "not found". Only a pending record changes, and a refusal that names a status
        names the one that stands. */
    method ResolveEscalation(id: string, verdict: Status, fault: bool, lookupFault: bool) returns (r: Resolution)
      requires Valid() && verdict != Pending
      modifies this
      ensures Valid()
      ensures r.Resolved? <==> !fault && id in old(db).escalations && old(db).escalations[id].status == Pending
      ensures r.Resolved? ==>
        db == old(db).(escalations := old(db).escalations[id := old(db).escalations[id].(status := verdict)])
      ensures !r.Resolved? ==> db == old(db)
      ensures r.StoreFailed? <==> fault
      ensures r.NotFound? <==>
        !fault && (id !in db.escalations || (old(db).escalations[id].status != Pending && lookupFault))
      ensures r.NotPending? ==> id in db.escalations && r.current == db.escalations[id].status != Pending
    {
      if fault {
        return StoreFailed;
      }
      var after := ResolvePending(db, id, verdict);
      if after.Some? {
        db := after.value;
        return Resolved;
      }
      if lookupFault || id !in db.escalations {
        return NotFound;
      }
      return NotPending(db.escalations[id].status);
    }

    /** Hashes the stored arguments of the session's approved records of the tool, in any order, until one matches. */
    method HasApprovedEscalation(lib: Library, sid: string, tool: string, hash: string, fault: bool)
      returns (r: Result<bool>)
      ensures r == HasApproval(lib, StoreBackend(db, fault), sid, tool, hash)
    {
      if fault {
        return Error;
      }
      var rows := set id | id in db.escalations && db.escalations[id].session == sid
        && db.escalations[id].tool == tool && db.escalations[id].status == Approved;
      while rows != {}
        invariant forall id :: id in db.escalations && IsApprovalOf(lib, db.escalations[id], sid, tool, hash) ==>
            id in rows
        invariant forall id :: id in rows ==> id in db.escalations && db.escalations[id].session == sid
                                              && db.escalations[id].tool == tool
                                              && db.escalations[id].status == Approved
        decreases rows
      {
        var id :| id in rows;
        if lib.sha256(db.escalations[id].args) == hash {
          assert IsApprovalOf(lib, db.escalations[id], sid, tool, hash);
          return Ok(true);
        }
        rows := rows - {id};
      }
      return Ok(false);
    }
  }
}
