/**
 The plan as the apply phase reads it, and the units of work it commits: a script
 together with its audit rows, or audit rows alone. What a run leaves behind is
 stated as `ApplyUnits` over the units it committed.
 */
module Units {
  import opened Prelude
  import opened Domain
  import opened Server
  import opened Client

  datatype PlannedObject = PlannedObject(
    key: string,
    kind: Kind,
    action: Action,
    digest: nat,
    script: string,
    transitions: seq<string>)

  /** No two objects share a key. */
  ghost predicate DistinctKeys(objects: seq<PlannedObject>) {
    forall i, j :: 0 <= i < j < |objects| ==> objects[i].key != objects[j].key
  }

  /** A file as it is on disk when it is about to be executed. */
  datatype File = File(digest: nat, body: Body)

  /**
   `scripts` holds the digests taken by the scan, `historical` the ordered
   transition paths of each table, `disk` the files at apply time.
   */
  datatype Repository = Repository(
    scripts: map<string, Option<nat>>,
    historical: map<string, seq<string>>,
    disk: map<string, File>)

  datatype Unit = Script(body: Body, records: seq<Record>) | Audit(records: seq<Record>)

  function ApplyUnit(db: Database, u: Unit): Database {
    match u
    case Script(body, records) => Recorded(db, body, records)
    case Audit(records) => Audited(db, records)
  }

  function ApplyUnits(db: Database, us: seq<Unit>): Database {
    if us == [] then db else ApplyUnit(ApplyUnits(db, us[..|us| - 1]), us[|us| - 1])
  }

  lemma {:induction false} ApplyOneMore(db: Database, us: seq<Unit>, u: Unit)
    ensures ApplyUnits(db, us + [u]) == ApplyUnit(ApplyUnits(db, us), u)
  {
  }

  lemma {:induction false} ApplyAppend(db: Database, us: seq<Unit>, vs: seq<Unit>)
    ensures ApplyUnits(db, us + vs) == ApplyUnits(ApplyUnits(db, us), vs)
    decreases |vs|
  {
    if vs == [] {
      assert us + vs == us;
    } else {
      var n := |vs| - 1;
      ApplyAppend(db, us, vs[..n]);
      LastOfAppend(us, vs);
    }
  }

  /** The script body, provided the file still has the digest the scan recorded. */
  function VerifiedBody(repo: Repository, path: string, fallback: nat): Option<Body> {
    if path in repo.scripts && path in repo.disk && repo.disk[path].digest == repo.scripts[path].GetOr(fallback)
    then Some(repo.disk[path].body) else None
  }

  function ScriptDigest(repo: Repository, path: string, fallback: nat): nat {
    if path in repo.scripts then repo.scripts[path].GetOr(fallback) else fallback
  }

  function ObjectEntry(o: PlannedObject, event: RecordEvent): Record {
    Record(o.key, ObjectRecord, o.digest, event)
  }

  /** The last pending transition also advances the table's own baseline. */
  function TransitionRecords(repo: Repository, o: PlannedObject, i: nat): seq<Record>
    requires i < |o.transitions|
  {
    var path := o.transitions[i];
    [Record(path, MigrationRecord, ScriptDigest(repo, path, o.digest), Applied)]
      + if i + 1 == |o.transitions| then [ObjectEntry(o, Applied)] else []
  }

  /** A created table already embodies its transitions: each is recorded as applied. */
  function HistoricalRecords(repo: Repository, o: PlannedObject, paths: seq<string>): (rs: seq<Record>)
    ensures |rs| == |paths|
    ensures forall i :: 0 <= i < |rs| ==> rs[i] == Record(paths[i], MigrationRecord, ScriptDigest(repo, paths[i], o.digest), Applied)
  {
    if paths == [] then []
    else [Record(paths[0], MigrationRecord, ScriptDigest(repo, paths[0], o.digest), Applied)] + HistoricalRecords(repo, o, paths[1..])
  }

  function CreateTableRecords(repo: Repository, o: PlannedObject): seq<Record> {
    if o.kind.Tables? && o.key in repo.historical then HistoricalRecords(repo, o, repo.historical[o.key]) else []
  }

  function ObjectRecords(repo: Repository, o: PlannedObject): seq<Record> {
    [ObjectEntry(o, Applied)] + if o.action.CreateObject? then CreateTableRecords(repo, o) else []
  }

  /** Assumed of every repository: a body defines its own object, under its own path. */
  ghost predicate OwnBodies(repo: Repository, o: PlannedObject) {
    && (o.script in repo.disk ==> repo.disk[o.script].body.key == o.key && repo.disk[o.script].body.script.None?)
    && (forall p :: p in o.transitions && p in repo.disk ==>
          repo.disk[p].body.key == o.key && repo.disk[p].body.script == Some(p))
  }

  /** The unit an object's own script makes, when the script can be read. */
  function ObjectUnit(repo: Repository, o: PlannedObject): Unit
    requires VerifiedBody(repo, o.script, o.digest).Some?
  {
    Script(VerifiedBody(repo, o.script, o.digest).value, ObjectRecords(repo, o))
  }

  function TransitionUnit(repo: Repository, o: PlannedObject, i: nat): Unit
    requires i < |o.transitions| && VerifiedBody(repo, o.transitions[i], o.digest).Some?
  {
    Script(VerifiedBody(repo, o.transitions[i], o.digest).value, TransitionRecords(repo, o, i))
  }

  /** What the object phase sends: scripts that are no transitions, and rows of one object or of adopted ones. */
  ghost predicate ObjectRequest(repo: Repository, stmt: Stmt) {
    match stmt
    case Run(body) => body.script.None?
    case Insert(records) => (exists o :: records == ObjectRecords(repo, o)) || forall r :: r in records ==> r.kind.ObjectRecord?
    case _ => true
  }

  ghost predicate ObjectWork(repo: Repository, before: seq<Request>, after: seq<Request>) {
    before <= after && forall r :: r in Since(before, after) ==> ObjectRequest(repo, r.stmt)
  }

  lemma {:induction false} ObjectWorkOn(repo: Repository, a: seq<Request>, b: seq<Request>, c: seq<Request>)
    requires ObjectWork(repo, a, b) && ObjectWork(repo, b, c)
    ensures ObjectWork(repo, a, c)
  {
  }

  /** The transcript of one object's script. */
  lemma {:induction false} OneObject(repo: Repository, o: PlannedObject, body: Body, before: seq<Request>, after: seq<Request>, q: Progress)
    requires body.script.None? && Moves(Progress([Job(o.key, body, ObjectRecords(repo, o))], AtBegin), before, after, q)
    ensures ObjectWork(repo, before, after)
  {
    OnlyItsStatements(Job(o.key, body, ObjectRecords(repo, o)), Since(before, after));
  }
}
