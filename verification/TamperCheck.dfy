/**
 The writing and the reading side of the tamper check agree: whatever a run commits,
 complete or not, a script that was not edited never looks edited afterwards.
 */
module TamperCheck {
  import opened Prelude
  import opened Server
  import opened Units
  import opened Transitions
  import opened Modules
  import opened Objects
  import opened Execute
  import opened Filter
  import opened Protocol

  /** The newest applied row of `path` is as before, or carries `digest`. */
  ghost predicate Vouched(before: Database, after: Database, path: string, digest: nat) {
    || AppliedRow(after.history, path) == AppliedRow(before.history, path)
    || (AppliedRow(after.history, path).Some? && AppliedRow(after.history, path).value.checksum == Hex(digest))
  }

  /** Whenever the records list `path` as applied, they do it with `digest`. */
  ghost predicate Truthful(records: seq<Record>, path: string, digest: nat) {
    forall r :: r in records && Marks(r, path) ==> r.digest == digest
  }

  lemma {:induction false} AppliedOneMore(history: seq<Row>, seen: Database, records: seq<Record>, r: Record, path: string)
    ensures AppliedRow(history + CaptureAll(seen, records + [r]), path) ==
            if Marks(r, path) then Some(Capture(seen, r)) else AppliedRow(history + CaptureAll(seen, records), path)
  {
    var rows := history + CaptureAll(seen, records + [r]);
    assert rows[..|rows| - 1] == history + CaptureAll(seen, records);
  }

  lemma {:induction false} RecordsVouch(history: seq<Row>, seen: Database, records: seq<Record>, path: string, digest: nat)
    requires Truthful(records, path, digest)
    ensures var now := AppliedRow(history + CaptureAll(seen, records), path);
            now == AppliedRow(history, path) || (now.Some? && now.value.checksum == Hex(digest))
    decreases |records|
  {
    if records == [] {
      assert history + CaptureAll(seen, records) == history;
    } else {
      var init, last := records[..|records| - 1], records[|records| - 1];
      assert records == init + [last] && last in records && forall r :: r in init ==> r in records;
      RecordsVouch(history, seen, init, path, digest);
      AppliedOneMore(history, seen, init, last, path);
    }
  }

  lemma {:induction false} UnitVouches(db: Database, u: Unit, path: string, digest: nat)
    requires Truthful(u.records, path, digest)
    ensures Vouched(db, ApplyUnit(db, u), path, digest)
  {
    match u
    case Script(body, records) =>
      RecordsVouch(db.history, Install(db, BodyWork(body)), records, path, digest);
      assert db.history + [] == db.history;
    case Audit(records) => RecordsVouch(db.history, db, records, path, digest);
  }

  lemma {:induction false} UnitsVouch(db: Database, us: seq<Unit>, path: string, digest: nat)
    requires forall u :: u in us ==> Truthful(u.records, path, digest)
    ensures Vouched(db, ApplyUnits(db, us), path, digest)
    decreases |us|
  {
    if us != [] {
      var earlier, last := us[..|us| - 1], us[|us| - 1];
      assert last in us && forall u :: u in earlier ==> u in us;
      UnitsVouch(db, earlier, path, digest);
      UnitVouches(ApplyUnits(db, earlier), last, path, digest);
    }
  }

  /** The scan recorded `digest` for the file at `path`. */
  predicate Scanned(repo: Repository, path: string, digest: nat) {
    path in repo.scripts && repo.scripts[path] == Some(digest)
  }

  lemma {:induction false} TransitionIsTruthful(repo: Repository, o: PlannedObject, i: nat, path: string, digest: nat)
    requires i < |o.transitions| && VerifiedBody(repo, o.transitions[i], o.digest).Some? && Scanned(repo, path, digest)
    ensures Truthful(TransitionUnit(repo, o, i).records, path, digest)
  {
  }

  lemma {:induction false} ObjectIsTruthful(repo: Repository, o: PlannedObject, u: Unit, path: string, digest: nat)
    requires UnitFor(repo, o, u) && Scanned(repo, path, digest)
    ensures Truthful(u.records, path, digest)
  {
  }

  lemma {:induction false} AdoptionIsTruthful(objects: seq<PlannedObject>, path: string, digest: nat)
    ensures Truthful(AdoptRecords(objects), path, digest)
  {
    BatchMembers(objects);
  }

  lemma {:induction false} TransitionsVouch(repo: Repository, objects: seq<PlannedObject>, before: Database, middle: Database, ts: seq<Unit>, path: string, digest: nat)
    requires Leaves(repo, Steps(objects), ts, before, middle) && Scanned(repo, path, digest)
    ensures Vouched(before, middle, path, digest)
  {
    forall u | u in ts
      ensures Truthful(u.records, path, digest)
    {
      var k :| 0 <= k < |ts| && ts[k] == u;
      var s := Steps(objects)[k];
      TransitionIsTruthful(repo, s.0, s.1, path, digest);
    }
    UnitsVouch(before, ts, path, digest);
    var done := ApplyUnits(before, ts);
    if middle != done {
      assert done.history + [] == done.history;
    }
  }

  lemma {:induction false} ObjectsVouch(repo: Repository, objects: seq<PlannedObject>, middle: Database, us: seq<Unit>, path: string, digest: nat)
    requires InOrder(repo, objects, us) && Scanned(repo, path, digest)
    ensures Vouched(middle, ApplyUnits(middle, us), path, digest)
  {
    forall u | u in us
      ensures Truthful(u.records, path, digest)
    {
      var k :| 0 <= k < |us| && us[k] == u;
      if k == 0 {
        AdoptionIsTruthful(objects, path, digest);
      } else {
        assert u == us[1..][k - 1] && u in us[1..];
        var o :| o in Batch(objects, true) + Batch(objects, false) && UnitFor(repo, o, u);
        ObjectIsTruthful(repo, o, u, path, digest);
      }
    }
    UnitsVouch(middle, us, path, digest);
  }

  /**
   After any run, finished or not, a file that still has the digest of the scan is
   tampered with according to the history only if it already was before the run.
   */
  lemma {:induction false} NoRunTampers(repo: Repository, objects: seq<PlannedObject>, before: Database, middle: Database, after: Database,
                                        ts: seq<Unit>, us: seq<Unit>, path: string, digest: nat)
    requires RunLeaves(repo, objects, before, middle, after, ts, us) && Scanned(repo, path, digest)
    ensures Vouched(before, after, path, digest)
    ensures Tampered(path, AppliedMap(after.history), map[path := digest]) ==> Tampered(path, AppliedMap(before.history), map[path := digest])
  {
    TransitionsVouch(repo, objects, before, middle, ts, path, digest);
    ObjectsVouch(repo, objects, middle, us, path, digest);
    AppliedMapKeys(before.history);
    AppliedMapKeys(after.history);
  }
}
