/**
 Any number of migrators against one server: who holds the lock, what each one has
 planned, and what its session has not committed yet. Each event is one request
 with its outcome; a client may vanish at any point, leaving its last request to be
 served or not, and a session may end at any point, which rolls it back and frees
 the lock. Everything below holds for every sequence of events.
 */
module Protocol {
  import opened Prelude
  import opened Server
  import opened Client
  import opened Filter

  /** `seen` is the history the plan was computed from, `own` what this migrator added since. */
  datatype Phase =
    | Idle
    | Planning
    | Planned(jobs: seq<Job>, seen: seq<Row>, own: seq<Row>)
    | Working(todo: seq<Job>, pc: Pc, seen: seq<Row>, own: seq<Row>)
    | ObjectPhase(seen: seq<Row>, own: seq<Row>)
    | Releasing(seen: seq<Row>, own: seq<Row>)
    | Over

  /** `orphan`: the client is gone and its last request has not been served yet. */
  datatype Migrator = Migrator(phase: Phase, tx: Tx, up: bool, orphan: bool)

  datatype State = State(db: Database, holder: Option<nat>, ms: seq<Migrator>)

  datatype Event =
    | Acquire(i: nat, granted: bool)
    | MakePlan(i: nat, jobs: seq<Job>, ok: bool)
    | FilterPlan(i: nat, ok: bool)
    | Exec(i: nat, outcome: Outcome)
    | StartObjects(i: nat)
    | ObjectStmt(i: nat, stmt: Stmt, outcome: Outcome)
    | Housekeep(i: nat, chore: Chore, outcome: Outcome)
    | GiveUp(i: nat)
    | Release(i: nat, effect: bool)
    | Abandon(i: nat)
    | Kill(i: nat)
    | Reap(i: nat)

  /** Where the client goes after a reply: on, to the rollback, or to the release of the lock. */
  function PhaseAfter(p: Phase, ok: bool, added: seq<Row>): Phase
    requires p.Working? && p.todo != []
  {
    match Advance(Progress(p.todo, p.pc), ok)
    case Progress(todo, pc) => Working(todo, pc, p.seen, p.own + added)
    case Stopped => Releasing(p.seen, p.own + added)
  }

  function Unfinished(jobs: seq<Job>, history: seq<Row>): seq<Job> {
    if jobs == [] then []
    else
      var last := jobs[|jobs| - 1];
      var earlier := Unfinished(jobs[..|jobs| - 1], history);
      if AppliedRow(history, last.path).Some? then earlier else earlier + [last]
  }

  /** A vanished client does not hear the reply. */
  function Heard(m: Migrator, phase: Phase): Phase {
    if m.orphan then Over else phase
  }

  /** The rows `after` has on top of `before`. */
  function Added(before: Database, after: Database): seq<Row> {
    if |before.history| <= |after.history| then after.history[|before.history|..] else []
  }

  /** Migrator `i` sends `stmt`; `next` says where it goes, given the reply and the rows it added. */
  function Send(s: State, i: nat, stmt: Stmt, outcome: Outcome, next: (bool, seq<Row>) -> Phase): State
    requires i < |s.ms|
  {
    var m := s.ms[i];
    var (db', tx', reply) := Execute(s.db, m.tx, stmt, outcome);
    var phase := Heard(m, next(reply.Succeeded?, Added(s.db, db')));
    s.(db := db', ms := s.ms[i := Migrator(phase, tx', true, false)])
  }

  function Move(s: State, i: nat, phase: Phase): State
    requires i < |s.ms|
  {
    var m := s.ms[i];
    s.(ms := s.ms[i := Migrator(Heard(m, phase), m.tx, true, false)])
  }

  /** Audit tables, schemas and cache entries are seen to before the first script and after the last. */
  predicate BetweenScripts(p: Phase) {
    p.Releasing? || p.ObjectPhase? || (p.Working? && p.pc.AtBegin?)
  }

  /** An event that cannot happen now changes nothing. */
  function Next(s: State, e: Event): State {
    if e.i >= |s.ms| || !s.ms[e.i].up then s
    else
      var m := s.ms[e.i];
      match e
      case Acquire(i, granted) =>
        if !m.phase.Idle? then s
        else if granted && s.holder.None? then Move(s, i, Planning).(holder := Some(i))
        else Move(s, i, Over)
      case MakePlan(i, jobs, ok) =>
        if !m.phase.Planning? then s
        else Move(s, i, if ok then Planned(jobs, s.db.history, []) else Releasing(s.db.history, []))
      case FilterPlan(i, ok) =>
        if !m.phase.Planned? then s
        else if ok then Move(s, i, Working(Unfinished(m.phase.jobs, s.db.history), AtBegin, m.phase.seen, m.phase.own))
        else Move(s, i, Releasing(m.phase.seen, m.phase.own))
      case Exec(i, outcome) =>
        if !m.phase.Working? || m.phase.todo == [] || outcome.TimedOut? then s
        else Send(s, i, StmtAt(m.phase.todo[0], m.phase.pc), outcome, (ok, added) => PhaseAfter(m.phase, ok, added))
      case StartObjects(i) =>
        if !m.phase.Working? || m.phase.todo != [] then s else Move(s, i, ObjectPhase(m.phase.seen, m.phase.own))
      case ObjectStmt(i, stmt, outcome) =>
        if !m.phase.ObjectPhase? || outcome.TimedOut? then s
        else Send(s, i, stmt, outcome, (ok, added) => ObjectPhase(m.phase.seen, m.phase.own + added))
      case Housekeep(i, chore, outcome) =>
        if !BetweenScripts(m.phase) || outcome.TimedOut? then s
        else Send(s, i, Housekeeping(chore), outcome, (ok, added) => m.phase)
      case GiveUp(i) =>
        if !m.phase.ObjectPhase? && !(m.phase.Working? && m.phase.pc.AtBegin?) then s
        else Move(s, i, Releasing(m.phase.seen, m.phase.own))
      case Release(i, effect) =>
        if !m.phase.Releasing? then s
        else Move(s, i, Over).(holder := if effect && s.holder == Some(i) then None else s.holder)
      case Abandon(i) => s.(ms := s.ms[i := m.(orphan := true)])
      case Kill(i) => s.(ms := s.ms[i := m.(phase := Over, orphan := false)])
      case Reap(i) =>
        s.(ms := s.ms[i := Migrator(Over, Closed, false, false)], holder := if s.holder == Some(i) then None else s.holder)
  }

  function Play(s: State, events: seq<Event>): State {
    if events == [] then s else Next(Play(s, events[..|events| - 1]), events[|events| - 1])
  }

  /** `n` migrators about to start against `db`. */
  function Start(db: Database, n: nat): State {
    State(db, None, seq(n, _ => Migrator(Idle, Closed, true, false)))
  }

  /** A migrator that holds the lock can give up between scripts, and the next one gets the lock. */
  lemma {:induction false} LockGoesOn(s: State, i: nat, j: nat)
    requires i < |s.ms| && j < |s.ms| && i != j && s.holder == Some(i) && BetweenScripts(s.ms[i].phase) && s.ms[j].phase.Idle?
    requires s.ms[i].up && !s.ms[i].orphan && s.ms[j].up && !s.ms[j].orphan
    ensures var t := Play(s, [GiveUp(i), Release(i, true), Acquire(j, true)]);
            |t.ms| == |s.ms| && t.holder == Some(j) && t.ms[i].phase.Over? && t.ms[j].phase.Planning? && t.db == s.db
  {
    var given, released, acquired := GiveUp(i), Release(i, true), Acquire(j, true);
    var all := [given, released, acquired];
    assert all[..2] == [given, released] && all[..2][..1] == [given] && all[..2][..1][..0] == [];
    assert Play(s, [given]) == Next(s, given);
    assert Play(s, [given, released]) == Next(Next(s, given), released);
  }

  // ---- What is assumed of plans and of the object phase ----

  predicate IsApplied(history: seq<Row>, path: string) {
    AppliedRow(history, path).Some?
  }

  /** A transition job records its own path and no other, and its script does not commit the executor's transaction. */
  ghost predicate Honest(job: Job) {
    && job.body.script == Some(job.path) && !job.body.use.CommitsIt?
    && (exists r :: r in job.records && Marks(r, job.path))
    && (forall r :: r in job.records && r.kind.MigrationRecord? ==> r.key == job.path)
  }

  predicate Marks(r: Record, path: string) {
    r.kind.MigrationRecord? && r.event.Applied? && r.key == path
  }

  ghost predicate DistinctPaths(jobs: seq<Job>) {
    forall a, b :: 0 <= a < b < |jobs| ==> jobs[a].path != jobs[b].path
  }

  /** Each job is preceded by the jobs of all earlier paths of its table, or they are already applied. */
  ghost predicate InListOrder(list: seq<string>, jobs: seq<Job>, history: seq<Row>) {
    forall a, x, y :: 0 <= a < |jobs| && 0 <= x < y < |list| && jobs[a].path == list[y] ==>
      IsApplied(history, list[x]) || Before(jobs, a, list[x])
  }

  predicate Before(jobs: seq<Job>, a: nat, path: string)
    requires a <= |jobs|
  {
    exists b :: 0 <= b < a && jobs[b].path == path
  }

  ghost predicate ProperJobs(lists: set<seq<string>>, jobs: seq<Job>) {
    && (forall job :: job in jobs ==> Honest(job)) && DistinctPaths(jobs)
    && forall list :: list in lists ==> InListOrder(list, jobs, [])
  }

  /** Rows that list a path list every earlier path of the same table: a created table embodies the transitions its repository knows. */
  ghost predicate WholeRows(lists: set<seq<string>>, rows: seq<Row>) {
    forall list :: list in lists ==> AppliedFirst(rows, list)
  }

  ghost predicate WholeRecords(lists: set<seq<string>>, records: seq<Record>) {
    forall list, x, y :: list in lists && 0 <= x < y < |list| && Marked(records, list[y]) ==> Marked(records, list[x])
  }

  ghost predicate Marked(records: seq<Record>, path: string) {
    exists r :: r in records && Marks(r, path)
  }

  /** Object scripts are no transition scripts, and leave no gap in what they record. */
  ghost predicate ProperStmt(lists: set<seq<string>>, stmt: Stmt) {
    match stmt
    case Run(body) => body.script.None?
    case Insert(records) => WholeRecords(lists, records)
    case _ => true
  }

  ghost predicate Proper(lists: set<seq<string>>, e: Event) {
    match e
    case MakePlan(_, jobs, _) => ProperJobs(lists, jobs)
    case ObjectStmt(_, stmt, _) => ProperStmt(lists, stmt)
    case _ => true
  }

  // ---- The invariant ----

  /** The applied paths of a table come before the others. */
  ghost predicate AppliedFirst(history: seq<Row>, list: seq<string>) {
    forall x, y :: 0 <= x < y < |list| && IsApplied(history, list[y]) ==> IsApplied(history, list[x])
  }

  /** No script was committed twice, none without being recorded, and each table is applied in order. */
  ghost predicate Consistent(db: Database, lists: set<seq<string>>) {
    && Distinct(db.executed) && (forall path :: path in db.executed ==> IsApplied(db.history, path))
    && forall list :: list in lists ==> AppliedFirst(db.history, list)
  }

  /** Holding the lock: from its grant to the attempt to release it. */
  predicate Critical(m: Migrator) {
    m.up && (m.phase.Planning? || m.phase.Planned? || m.phase.Working? || m.phase.ObjectPhase? || m.phase.Releasing?)
  }

  /** Acting on a plan: filtering it, running its transitions or objects, or about to release the lock. */
  predicate HasPlan(m: Migrator) {
    m.up && (m.phase.Planned? || m.phase.Working? || m.phase.ObjectPhase? || m.phase.Releasing?)
  }

  /** The jobs left are exactly what the committed history says is left. */
  ghost predicate TodoMatches(db: Database, lists: set<seq<string>>, todo: seq<Job>) {
    && (forall job :: job in todo ==> Honest(job) && !IsApplied(db.history, job.path)) && DistinctPaths(todo)
    && forall list :: list in lists ==> InListOrder(list, todo, db.history)
  }

  /** Uncommitted work of `job`: its script, and with its rows if `recorded`. */
  ghost predicate WorkOf(job: Job, work: Delta, recorded: bool) {
    && work.executed == [job.path]
    && (if recorded then IsApplied(work.rows, job.path) else work.rows == [])
    && forall r :: r in work.rows && r.kind.MigrationRecord? ==> r.key == job.path
  }

  /** What the session has open when the client is about to send the statement at `pc`. */
  ghost predicate TxFits(job: Job, pc: Pc, tx: Tx) {
    match pc
    case AtBegin => tx.Closed?
    case AtRun => tx.Open? && tx.depth == 1 && tx.work.executed == [] && tx.work.rows == []
    case AtAssert => tx.Open? && tx.depth == 1 ==> WorkOf(job, tx.work, false)
    case AtInsert => tx.Open? && tx.depth == 1 && WorkOf(job, tx.work, false)
    case AtCommit => tx.Open? && tx.depth == 1 && WorkOf(job, tx.work, true)
    case AtRollback => true
  }

  ghost predicate PhaseFits(db: Database, lists: set<seq<string>>, m: Migrator) {
    match m.phase
    case Planned(jobs, seen, own) => m.tx.Closed? && ProperJobs(lists, jobs) && db.history == seen + own
    case Working(todo, pc, seen, own) =>
      && (pc.AtRollback? || TodoMatches(db, lists, todo)) && db.history == seen + own
      && (if todo == [] then pc.AtBegin? && m.tx.Closed? else TxFits(todo[0], pc, m.tx))
    case ObjectPhase(seen, own) =>
      && db.history == seen + own
      && (m.tx.Open? ==> m.tx.work.executed == [] && WholeRows(lists, m.tx.work.rows))
    case Releasing(seen, own) => db.history == seen + own
    case Over => true
    case _ => m.tx.Closed?
  }

  ghost predicate Inv(s: State, lists: set<seq<string>>) {
    && Consistent(s.db, lists)
    && forall i :: 0 <= i < |s.ms| ==>
         && (Critical(s.ms[i]) ==> s.holder == Some(i))
         && (s.ms[i].up ==> PhaseFits(s.db, lists, s.ms[i]))
  }

  /** A step of migrator `i` keeps the invariant if it keeps its own part and only a lock holder writes. */
  lemma {:induction false} StepKeeps(s: State, t: State, lists: set<seq<string>>, i: nat, m: Migrator)
    requires Inv(s, lists) && i < |s.ms| && t.ms == s.ms[i := m]
    requires Consistent(t.db, lists) && (t.db == s.db || Critical(s.ms[i]))
    requires (Critical(m) ==> t.holder == Some(i)) && (m.up ==> PhaseFits(t.db, lists, m))
    requires t.holder == s.holder || s.holder.None? || s.holder == Some(i)
    ensures Inv(t, lists)
  {
  }

  // ---- Rows ----

  lemma {:induction false} AppliedCaptured(seen: Database, records: seq<Record>, path: string)
    ensures IsApplied(CaptureAll(seen, records), path) <==> exists r :: r in records && Marks(r, path)
  {
    var rows := CaptureAll(seen, records);
    if IsApplied(rows, path) {
      var row := AppliedRow(rows, path).value;
      var k :| 0 <= k < |rows| && rows[k] == row;
      assert records[k] in records && Marks(records[k], path);
    }
    if r :| r in records && Marks(r, path) {
      var k :| 0 <= k < |records| && records[k] == r;
      assert rows[k] in rows && Applies(rows[k], path);
    }
  }

  lemma {:induction false} CapturedWork(seen: Database, job: Job)
    requires Honest(job)
    ensures var rows := CaptureAll(seen, job.records);
            IsApplied(rows, job.path) && forall r :: r in rows && r.kind.MigrationRecord? ==> r.key == job.path
  {
    AppliedCaptured(seen, job.records, job.path);
    var rows := CaptureAll(seen, job.records);
    forall r | r in rows && r.kind.MigrationRecord?
      ensures r.key == job.path
    {
      var k :| 0 <= k < |rows| && rows[k] == r;
      assert job.records[k] in job.records;
    }
  }

  // ---- The transition phase ----

  /** Until COMMIT nothing a well-behaved script does is committed. */
  lemma {:induction false} NothingCommittedBefore(db: Database, job: Job, pc: Pc, tx: Tx, outcome: Outcome)
    requires Honest(job) && TxFits(job, pc, tx) && !pc.AtCommit?
    ensures Execute(db, tx, StmtAt(job, pc), outcome).0 == db
  {
  }

  lemma {:induction false} TxAdvances(db: Database, job: Job, pc: Pc, tx: Tx, outcome: Outcome)
    requires Honest(job) && TxFits(job, pc, tx) && !pc.AtCommit? && !pc.AtRollback?
    requires Execute(db, tx, StmtAt(job, pc), outcome).2.Succeeded?
    ensures var tx' := Execute(db, tx, StmtAt(job, pc), outcome).1;
            match pc
            case AtBegin => TxFits(job, AtRun, tx')
            case AtRun => TxFits(job, AtAssert, tx')
            case AtAssert => TxFits(job, AtInsert, tx')
            case AtInsert => TxFits(job, AtCommit, tx')
  {
    if pc.AtInsert? {
      CapturedWork(Seen(db, tx), job);
    }
  }

  lemma {:induction false} CommitEffect(db: Database, job: Job, tx: Tx, outcome: Outcome)
    requires TxFits(job, AtCommit, tx)
    ensures var (db', tx', reply) := Execute(db, tx, Commit, outcome);
            && (db' == db || db' == Install(db, tx.work))
            && (reply.Succeeded? ==> db' == Install(db, tx.work) && tx'.Closed?)
  {
  }

  /** Committing the first job keeps the database consistent. */
  lemma {:induction false} CommitKeepsConsistent(db: Database, lists: set<seq<string>>, todo: seq<Job>, work: Delta)
    requires Consistent(db, lists) && todo != [] && TodoMatches(db, lists, todo) && WorkOf(todo[0], work, true)
    ensures Consistent(Install(db, work), lists)
  {
  }

  /** After the commit, the remaining jobs are exactly what is left. */
  lemma {:induction false} CommitKeepsTodo(db: Database, lists: set<seq<string>>, todo: seq<Job>, work: Delta)
    requires todo != [] && TodoMatches(db, lists, todo) && WorkOf(todo[0], work, true)
    ensures TodoMatches(Install(db, work), lists, todo[1..])
  {
  }

  lemma {:induction false} SameHistory(db: Database, seen: seq<Row>, own: seq<Row>)
    requires db.history == seen + own
    ensures Added(db, db) == [] && db.history == seen + (own + [])
  {
  }

  lemma {:induction false} LongerHistory(db: Database, work: Delta, seen: seq<Row>, own: seq<Row>)
    requires db.history == seen + own
    ensures Added(db, Install(db, work)) == work.rows && Install(db, work).history == seen + (own + work.rows)
  {
  }

  /** COMMIT: the first job is done, or the client rolls back and gives up. */
  lemma {:induction false} CommitFits(db: Database, lists: set<seq<string>>, m: Migrator, outcome: Outcome)
    requires Consistent(db, lists) && m.phase.Working? && m.phase.todo != [] && m.phase.pc.AtCommit? && PhaseFits(db, lists, m)
    ensures var (db', tx', reply) := Execute(db, m.tx, Commit, outcome);
            && Consistent(db', lists)
            && PhaseFits(db', lists, Migrator(PhaseAfter(m.phase, reply.Succeeded?, Added(db, db')), tx', true, false))
  {
    var p := m.phase;
    CommitEffect(db, p.todo[0], m.tx, outcome);
    LongerHistory(db, m.tx.work, p.seen, p.own);
    SameHistory(db, p.seen, p.own);
    CommitKeepsConsistent(db, lists, p.todo, m.tx.work);
    CommitKeepsTodo(db, lists, p.todo, m.tx.work);
  }

  /** One statement of the transition phase, whatever comes of it. */
  lemma {:induction false} ExecFits(db: Database, lists: set<seq<string>>, m: Migrator, outcome: Outcome)
    requires Consistent(db, lists) && m.phase.Working? && m.phase.todo != [] && PhaseFits(db, lists, m)
    ensures var (db', tx', reply) := Execute(db, m.tx, StmtAt(m.phase.todo[0], m.phase.pc), outcome);
            && Consistent(db', lists)
            && PhaseFits(db', lists, Migrator(PhaseAfter(m.phase, reply.Succeeded?, Added(db, db')), tx', true, false))
  {
    var p := m.phase;
    var job := p.todo[0];
    assert job in p.todo;
    if p.pc.AtCommit? {
      CommitFits(db, lists, m, outcome);
    } else if p.pc.AtRollback? {
      SameHistory(db, p.seen, p.own);
    } else {
      NothingCommittedBefore(db, job, p.pc, m.tx, outcome);
      SameHistory(db, p.seen, p.own);
      if Execute(db, m.tx, StmtAt(job, p.pc), outcome).2.Succeeded? {
        TxAdvances(db, job, p.pc, m.tx, outcome);
      }
    }
  }

  // ---- Planning and filtering ----

  lemma {:induction false} UnfinishedMembers(jobs: seq<Job>, history: seq<Row>)
    ensures forall job :: job in Unfinished(jobs, history) <==> job in jobs && !IsApplied(history, job.path)
  {
    if jobs != [] {
      var n := |jobs| - 1;
      UnfinishedMembers(jobs[..n], history);
      assert jobs == jobs[..n] + [jobs[n]];
    }
  }

  lemma {:induction false} UnfinishedDistinct(jobs: seq<Job>, history: seq<Row>)
    requires DistinctPaths(jobs)
    ensures DistinctPaths(Unfinished(jobs, history))
  {
    if jobs != [] {
      var n := |jobs| - 1;
      UnfinishedDistinct(jobs[..n], history);
      UnfinishedMembers(jobs[..n], history);
      var earlier := Unfinished(jobs[..n], history);
      forall a | 0 <= a < |earlier|
        ensures earlier[a].path != jobs[n].path
      {
        assert earlier[a] in earlier;
        var k :| 0 <= k < n && jobs[..n][k] == earlier[a];
      }
    }
  }

  lemma {:induction false} UnfinishedInOrder(list: seq<string>, jobs: seq<Job>, history: seq<Row>)
    requires InListOrder(list, jobs, [])
    ensures InListOrder(list, Unfinished(jobs, history), history)
  {
    if jobs != [] {
      var n := |jobs| - 1;
      var shorter := jobs[..n];
      assert InListOrder(list, shorter, []) by {
        forall a, x, y | 0 <= a < |shorter| && 0 <= x < y < |list| && shorter[a].path == list[y]
          ensures IsApplied([], list[x]) || Before(shorter, a, list[x])
        {
          assert jobs[a].path == list[y];
          assert !IsApplied([], list[x]) && Before(jobs, a, list[x]);
          var b :| 0 <= b < a && jobs[b].path == list[x];
          assert shorter[b].path == list[x];
        }
      }
      UnfinishedInOrder(list, shorter, history);
      UnfinishedInOrderLast(list, jobs, history);
    }
  }

  lemma {:induction false} UnfinishedInOrderLast(list: seq<string>, jobs: seq<Job>, history: seq<Row>)
    requires jobs != [] && InListOrder(list, jobs, []) && InListOrder(list, Unfinished(jobs[..|jobs| - 1], history), history)
    ensures InListOrder(list, Unfinished(jobs, history), history)
  {
    var n := |jobs| - 1;
    var earlier, all := Unfinished(jobs[..n], history), Unfinished(jobs, history);
    UnfinishedMembers(jobs[..n], history);
    forall a, x, y | 0 <= a < |all| && 0 <= x < y < |list| && all[a].path == list[y]
      ensures IsApplied(history, list[x]) || Before(all, a, list[x])
    {
      if a < |earlier| {
        assert earlier[a].path == list[y];
        if !IsApplied(history, list[x]) {
          var b :| 0 <= b < a && earlier[b].path == list[x];
          assert all[b].path == list[x];
        }
      } else {
        assert jobs[n].path == list[y];
        assert !IsApplied([], list[x]) && Before(jobs, n, list[x]);
        var b :| 0 <= b < n && jobs[b].path == list[x];
        if !IsApplied(history, list[x]) {
          assert jobs[b] in jobs[..n] && jobs[b] in earlier;
          var c :| 0 <= c < |earlier| && earlier[c] == jobs[b];
          assert all[c].path == list[x];
        }
      }
    }
  }

  /** Filtering under the lock leaves exactly what the history says is left. */
  lemma {:induction false} FilterMatches(db: Database, lists: set<seq<string>>, jobs: seq<Job>)
    requires ProperJobs(lists, jobs)
    ensures TodoMatches(db, lists, Unfinished(jobs, db.history))
  {
    UnfinishedMembers(jobs, db.history);
    UnfinishedDistinct(jobs, db.history);
    forall list | list in lists
      ensures InListOrder(list, Unfinished(jobs, db.history), db.history)
    {
      UnfinishedInOrder(list, jobs, db.history);
    }
  }

  // ---- The object phase ----

  /** Work without transition scripts whose rows list whole tables. */
  ghost predicate Harmless(lists: set<seq<string>>, work: Delta) {
    work.executed == [] && WholeRows(lists, work.rows)
  }

  lemma {:induction false} HarmlessJoin(lists: set<seq<string>>, a: Delta, b: Delta)
    requires Harmless(lists, a) && Harmless(lists, b)
    ensures Harmless(lists, Join(a, b))
  {
  }

  lemma {:induction false} HarmlessCapture(lists: set<seq<string>>, seen: Database, records: seq<Record>)
    requires WholeRecords(lists, records)
    ensures Harmless(lists, Delta(map[], CaptureAll(seen, records), []))
  {
    forall list, x, y | list in lists && 0 <= x < y < |list| && IsApplied(CaptureAll(seen, records), list[y])
      ensures IsApplied(CaptureAll(seen, records), list[x])
    {
      AppliedCaptured(seen, records, list[x]);
      AppliedCaptured(seen, records, list[y]);
    }
  }

  lemma {:induction false} HarmlessInstall(db: Database, lists: set<seq<string>>, work: Delta)
    requires Consistent(db, lists) && Harmless(lists, work)
    ensures Consistent(Install(db, work), lists)
  {
  }

  /** A statement of the object phase commits harmless work or none, and leaves harmless work open or none. */
  lemma {:induction false} ObjectDo(db: Database, lists: set<seq<string>>, tx: Tx, stmt: Stmt) returns (work: Delta)
    requires ProperStmt(lists, stmt) && (tx.Open? ==> Harmless(lists, tx.work))
    ensures Harmless(lists, work) && Do(db, tx, stmt).0 == Install(db, work)
    ensures Do(db, tx, stmt).1.Open? ==> Harmless(lists, Do(db, tx, stmt).1.work)
  {
    assert Install(db, NO_WORK) == db by {
      assert db.live + map[] == db.live && db.history + [] == db.history && db.executed + [] == db.executed;
    }
    work := NO_WORK;
    match stmt {
      case Run(body) =>
        if tx.Open? {
          HarmlessJoin(lists, tx.work, BodyWork(body));
          if body.use.CommitsIt? && tx.depth <= 1 {
            work := Join(tx.work, BodyWork(body));
          }
        } else {
          work := BodyWork(body);
        }
      case Insert(records) =>
        var rows := Delta(map[], CaptureAll(Seen(db, tx), records), []);
        HarmlessCapture(lists, Seen(db, tx), records);
        if tx.Open? {
          HarmlessJoin(lists, tx.work, rows);
        } else {
          work := rows;
        }
      case Commit =>
        if tx.Open? && tx.depth <= 1 {
          work := tx.work;
        }
      case _ =>
    }
  }

  /** One statement of the object phase, whatever comes of it. */
  lemma {:induction false} ObjectFits(db: Database, lists: set<seq<string>>, m: Migrator, stmt: Stmt, outcome: Outcome)
    requires Consistent(db, lists) && m.phase.ObjectPhase? && PhaseFits(db, lists, m) && ProperStmt(lists, stmt) && !outcome.TimedOut?
    ensures var (db', tx', reply) := Execute(db, m.tx, stmt, outcome);
            var own := m.phase.own + Added(db, db');
            && Consistent(db', lists)
            && PhaseFits(db', lists, Migrator(ObjectPhase(m.phase.seen, own), tx', true, false))
  {
    var work := ObjectDo(db, lists, m.tx, stmt);
    HarmlessInstall(db, lists, work);
    LongerHistory(db, work, m.phase.seen, m.phase.own);
    SameHistory(db, m.phase.seen, m.phase.own);
  }

  // ---- All events ----

  lemma {:induction false} SendKeeps(s: State, lists: set<seq<string>>, i: nat, stmt: Stmt, outcome: Outcome, next: (bool, seq<Row>) -> Phase)
    requires Inv(s, lists) && i < |s.ms| && Critical(s.ms[i])
    requires var (db', tx', reply) := Execute(s.db, s.ms[i].tx, stmt, outcome);
             && Consistent(db', lists)
             && PhaseFits(db', lists, Migrator(next(reply.Succeeded?, Added(s.db, db')), tx', true, false))
    ensures Inv(Send(s, i, stmt, outcome, next), lists)
  {
  }

  lemma {:induction false} MoveKeeps(s: State, t: State, lists: set<seq<string>>, i: nat, phase: Phase)
    requires Inv(s, lists) && i < |s.ms| && s.ms[i].up
    requires t.db == s.db && t.ms == Move(s, i, phase).ms
    requires PhaseFits(s.db, lists, s.ms[i].(phase := phase))
    requires Critical(s.ms[i].(phase := phase)) ==> t.holder == Some(i)
    requires t.holder == s.holder || s.holder.None? || s.holder == Some(i)
    ensures Inv(t, lists)
  {
  }

  lemma {:induction false} PlanningKeeps(s: State, lists: set<seq<string>>, e: Event)
    requires Inv(s, lists) && Proper(lists, e) && (e.Acquire? || e.MakePlan? || e.FilterPlan? || e.StartObjects? || e.GiveUp? || e.Release?)
    requires e.i < |s.ms| && s.ms[e.i].up && Next(s, e) != s
    ensures Inv(Next(s, e), lists)
  {
    var m, t := s.ms[e.i], Next(s, e);
    match e
    case Acquire(i, granted) =>
      MoveKeeps(s, t, lists, i, if granted && s.holder.None? then Planning else Over);
    case MakePlan(i, jobs, ok) =>
      assert s.db.history == s.db.history + [];
      MoveKeeps(s, t, lists, i, if ok then Planned(jobs, s.db.history, []) else Releasing(s.db.history, []));
    case FilterPlan(i, ok) =>
      FilterMatches(s.db, lists, m.phase.jobs);
      MoveKeeps(s, t, lists, i,
                if ok then Working(Unfinished(m.phase.jobs, s.db.history), AtBegin, m.phase.seen, m.phase.own)
                else Releasing(m.phase.seen, m.phase.own));
    case StartObjects(i) =>
      MoveKeeps(s, t, lists, i, ObjectPhase(m.phase.seen, m.phase.own));
    case GiveUp(i) =>
      MoveKeeps(s, t, lists, i, Releasing(m.phase.seen, m.phase.own));
    case Release(i, effect) =>
      MoveKeeps(s, t, lists, i, Over);
  }

  lemma {:induction false} NextKeeps(s: State, lists: set<seq<string>>, e: Event)
    requires Inv(s, lists) && Proper(lists, e)
    ensures Inv(Next(s, e), lists)
  {
    var t := Next(s, e);
    if t != s {
      var m := s.ms[e.i];
      match e
      case Exec(i, outcome) =>
        ExecFits(s.db, lists, m, outcome);
        SendKeeps(s, lists, i, StmtAt(m.phase.todo[0], m.phase.pc), outcome, (ok, added) => PhaseAfter(m.phase, ok, added));
      case ObjectStmt(i, stmt, outcome) =>
        ObjectFits(s.db, lists, m, stmt, outcome);
        SendKeeps(s, lists, i, stmt, outcome, (ok, added) => ObjectPhase(m.phase.seen, m.phase.own + added));
      case Housekeep(i, chore, outcome) =>
        SendKeeps(s, lists, i, Housekeeping(chore), outcome, (ok, added) => m.phase);
      case Abandon(i) => StepKeeps(s, t, lists, i, t.ms[i]);
      case Kill(i) => StepKeeps(s, t, lists, i, t.ms[i]);
      case Reap(i) => StepKeeps(s, t, lists, i, t.ms[i]);
      case _ => PlanningKeeps(s, lists, e);
    }
  }

  lemma {:induction false} PlayKeeps(s: State, lists: set<seq<string>>, events: seq<Event>)
    requires Inv(s, lists) && forall e :: e in events ==> Proper(lists, e)
    ensures Inv(Play(s, events), lists)
  {
    if events != [] {
      var n := |events| - 1;
      PlayKeeps(s, lists, events[..n]);
      NextKeeps(Play(s, events[..n]), lists, events[n]);
    }
  }

  /**
   Safety over every run of any number of migrators, with any repositories and
   any failures: no transition script is ever committed twice, none is committed
   without being recorded, and the applied paths of each table always come first.
   From the plan to the release, in the transition phase and in the object phase
   alike, a migrator's session holds the lock and the history is the one it planned
   from plus its own rows; and the transitions it has left to run are not applied yet.
   */
  lemma {:induction false} RunsAreSafe(db: Database, n: nat, lists: set<seq<string>>, events: seq<Event>)
    requires Consistent(db, lists) && forall e :: e in events ==> Proper(lists, e)
    ensures var s := Play(Start(db, n), events);
            && Distinct(s.db.executed) && (forall path :: path in s.db.executed ==> IsApplied(s.db.history, path))
            && forall list :: list in lists ==> AppliedFirst(s.db.history, list)
    ensures var s := Play(Start(db, n), events);
            forall i :: 0 <= i < |s.ms| && HasPlan(s.ms[i]) ==>
              s.holder == Some(i) && s.db.history == s.ms[i].phase.seen + s.ms[i].phase.own
    ensures var s := Play(Start(db, n), events);
            forall i, job :: 0 <= i < |s.ms| && s.ms[i].up && s.ms[i].phase.Working? && !s.ms[i].phase.pc.AtRollback? && job in s.ms[i].phase.todo ==>
              !IsApplied(s.db.history, job.path)
  {
    PlayKeeps(Start(db, n), lists, events);
  }

  /** The number of applied paths at the front of a list. */
  function AppliedCount(history: seq<Row>, list: seq<string>): (k: nat)
    ensures k <= |list| && (k < |list| ==> !IsApplied(history, list[k])) && forall i :: 0 <= i < k ==> IsApplied(history, list[i])
  {
    if list == [] || !IsApplied(history, list[0]) then 0 else
      var k := AppliedCount(history, list[1..]);
      assert forall i :: 1 <= i < k + 1 ==> list[i] == list[1..][i - 1];
      k + 1
  }

  /** In every reachable state a rerun resumes each table at its first path that is not applied. */
  lemma {:induction false} RerunResumes(db: Database, n: nat, lists: set<seq<string>>, events: seq<Event>, list: seq<string>)
    requires Consistent(db, lists) && (forall e :: e in events ==> Proper(lists, e)) && list in lists
    ensures var history := Play(Start(db, n), events).db.history;
            Unapplied(list, AppliedMap(history)) == list[AppliedCount(history, list)..]
  {
    RunsAreSafe(db, n, lists, events);
    var history := Play(Start(db, n), events).db.history;
    assert AppliedFirst(history, list);
    var k := AppliedCount(history, list);
    AppliedMapKeys(history);
    ResumesAfterPrefix(list, AppliedMap(history), k);
  }

  // ---- A script that commits the executor's transaction ----

  lemma {:induction false} PlayAppend(s: State, xs: seq<Event>, ys: seq<Event>)
    ensures Play(s, xs + ys) == Play(Play(s, xs), ys)
    decreases |ys|
  {
    if ys == [] {
      assert xs + ys == xs;
    } else {
      var n := |ys| - 1;
      LastOfAppend(xs, ys);
      PlayAppend(s, xs, ys[..n]);
    }
  }

  lemma {:induction false} PlayFour(s: State, a: Event, b: Event, c: Event, d: Event)
    ensures Play(s, [a, b, c, d]) == Next(Next(Next(Next(s, a), b), c), d)
  {
    assert [a, b, c, d] == [a, b, c] + [d] && [a, b, c] == [a, b] + [c] && [a, b] == [a] + [b];
    PlayAppend(s, [a, b, c], [d]);
    PlayAppend(s, [a, b], [c]);
    PlayAppend(s, [a], [b]);
  }

  /** Lock, plan, filter, BEGIN; then the script, the failing assertion, ROLLBACK, and the release. */
  function Opening(i: nat, job: Job): seq<Event> {
    [Acquire(i, true), MakePlan(i, [job], true), FilterPlan(i, true), Exec(i, Done)]
  }

  function Closing(i: nat): seq<Event> {
    [Exec(i, Done), Exec(i, Done), Exec(i, Done), Release(i, true)]
  }

  /** Migrator `i` is about to start and nobody holds the lock. */
  predicate Fresh(s: State, i: nat) {
    i < |s.ms| && s.holder.None? && s.ms[i] == Migrator(Idle, Closed, true, false)
  }

  lemma {:induction false} Opened(s: State, i: nat, job: Job)
    requires Fresh(s, i) && !IsApplied(s.db.history, job.path)
    ensures Play(s, Opening(i, job)) ==
            State(s.db, Some(i), s.ms[i := Migrator(Working([job], AtRun, s.db.history, []), Open(1, NO_WORK), true, false)])
  {
    PlayFour(s, Acquire(i, true), MakePlan(i, [job], true), FilterPlan(i, true), Exec(i, Done));
    var h := s.db.history;
    assert [job][..0] == [] && Unfinished([job], h) == [job];
    var s1 := Next(s, Acquire(i, true));
    assert s1 == State(s.db, Some(i), s.ms[i := Migrator(Planning, Closed, true, false)]);
    var s2 := Next(s1, MakePlan(i, [job], true));
    assert s2 == State(s.db, Some(i), s.ms[i := Migrator(Planned([job], h, []), Closed, true, false)]);
    var s3 := Next(s2, FilterPlan(i, true));
    assert s3 == State(s.db, Some(i), s.ms[i := Migrator(Working([job], AtBegin, h, []), Closed, true, false)]);
    var none: seq<Row> := Added(s.db, s.db);
    assert none == [] && none + none == [];
    assert Next(s3, Exec(i, Done)) == State(s.db, Some(i), s.ms[i := Migrator(Working([job], AtRun, h, []), Open(1, NO_WORK), true, false)]);
  }

  lemma {:induction false} ScriptDone(s: State, i: nat, job: Job, h: seq<Row>)
    requires i < |s.ms| && job.body.use.CommitsIt?
    requires s.ms[i] == Migrator(Working([job], AtRun, h, []), Open(1, NO_WORK), true, false)
    ensures Next(s, Exec(i, Done)) ==
            State(Install(s.db, BodyWork(job.body)), s.holder, s.ms[i := Migrator(Working([job], AtAssert, h, []), Closed, true, false)])
  {
  }

  lemma {:induction false} ClosedAgain(s: State, i: nat, job: Job, h: seq<Row>)
    requires i < |s.ms| && s.holder == Some(i) && job.body.use.CommitsIt?
    requires s.ms[i] == Migrator(Working([job], AtRun, h, []), Open(1, NO_WORK), true, false)
    ensures Play(s, Closing(i)) == State(Install(s.db, BodyWork(job.body)), None, s.ms[i := Migrator(Over, Closed, true, false)])
  {
    PlayFour(s, Exec(i, Done), Exec(i, Done), Exec(i, Done), Release(i, true));
    ScriptDone(s, i, job, h);
    var ran := Install(s.db, BodyWork(job.body));
    var none: seq<Row> := Added(ran, ran);
    assert none == [] && none + none == [];
    var s1 := Next(s, Exec(i, Done));
    var s2 := Next(s1, Exec(i, Done));
    assert s2 == State(ran, Some(i), s.ms[i := Migrator(Working([job], AtRollback, h, []), Closed, true, false)]);
    var s3 := Next(s2, Exec(i, Done));
    assert s3 == State(ran, Some(i), s.ms[i := Migrator(Releasing(h, []), Closed, true, false)]);
  }

  /** One run of a script that commits the transaction: its effects stay, the history does not know. */
  lemma {:induction false} SelfCommittedOnce(s: State, i: nat, job: Job)
    requires Fresh(s, i) && job.body.use.CommitsIt? && !IsApplied(s.db.history, job.path)
    ensures Play(s, Opening(i, job) + Closing(i)) ==
            State(Install(s.db, BodyWork(job.body)), None, s.ms[i := Migrator(Over, Closed, true, false)])
  {
    PlayAppend(s, Opening(i, job), Closing(i));
    Opened(s, i, job);
    ClosedAgain(Play(s, Opening(i, job)), i, job, s.db.history);
  }

  /**
   The condition on scripts is exact: whenever a pending transition commits the
   executor's transaction, two migrators one after the other commit it twice,
   without a single failure of the server.
   */
  lemma {:induction false} SelfCommittingScriptRunsTwice(db: Database, job: Job) returns (events: seq<Event>)
    requires job.body.script == Some(job.path) && job.body.use.CommitsIt? && !IsApplied(db.history, job.path)
    ensures var after := Play(Start(db, 2), events).db;
            after.executed == db.executed + [job.path] + [job.path] && after.history == db.history
  {
    var s := Start(db, 2);
    events := (Opening(0, job) + Closing(0)) + (Opening(1, job) + Closing(1));
    PlayAppend(s, Opening(0, job) + Closing(0), Opening(1, job) + Closing(1));
    SelfCommittedOnce(s, 0, job);
    var t := Play(s, Opening(0, job) + Closing(0));
    assert t.db.history == db.history;
    SelfCommittedOnce(t, 1, job);
  }
}
