/**
 What the protocol assumes of plans, scripts and audit rows is what the planner
 makes, the filter leaves and the apply phase sends.
 */
module ProtocolLink {
  import opened Prelude
  import opened Domain
  import opened Server
  import opened Client
  import opened Units
  import opened Transitions
  import opened Modules
  import opened Filter
  import opened Protocol
  import Planner

  /** Every transition unit is an honest job, provided its script does not commit the transaction. */
  lemma {:induction false} TransitionsAreHonest(repo: Repository, o: PlannedObject, i: nat)
    requires i < |o.transitions| && OwnBodies(repo, o)
    ensures Honest(JobOf(repo, o, i)) <==> !JobOf(repo, o, i).body.use.CommitsIt?
    ensures Readable(repo, (o, i)) ==>
              TransitionUnit(repo, o, i) == Script(JobOf(repo, o, i).body, JobOf(repo, o, i).records)
  {
    var job := JobOf(repo, o, i);
    assert o.transitions[i] in o.transitions;
    assert job.records[0] in job.records && Marks(job.records[0], o.transitions[i]);
  }

  /** Every table of the repository with its ordered transitions. */
  function Lists(repo: Repository): set<seq<string>> {
    set key | key in repo.historical :: repo.historical[key]
  }

  /** What comes before a path of `known` in `list` comes before it in `known` too. */
  ghost predicate Follows(known: seq<string>, list: seq<string>) {
    forall x, y, i :: 0 <= x < y < |list| && 0 <= i < |known| && list[y] == known[i] ==> Earlier(known, i, list[x])
  }

  predicate Earlier(list: seq<string>, i: nat, path: string)
    requires i <= |list|
  {
    exists j :: 0 <= j < i && list[j] == path
  }

  /** The lists in use, of this and of other versions of the repository, agree on what comes first. */
  ghost predicate Agreed(lists: set<seq<string>>, repo: Repository) {
    forall list, key :: list in lists && key in repo.historical ==> Follows(repo.historical[key], list)
  }

  /** No path belongs to two tables. */
  ghost predicate DisjointLists(repo: Repository) {
    forall a, b, path :: a in repo.historical && b in repo.historical && path in repo.historical[a] && path in repo.historical[b] ==> a == b
  }

  /** Two lists share no path, or one continues the other. */
  ghost predicate Related(a: seq<string>, b: seq<string>) {
    a <= b || b <= a || forall path :: path in a ==> path !in b
  }

  lemma {:induction false} RelatedFollows(known: seq<string>, list: seq<string>)
    requires Related(known, list) && Distinct(known) && Distinct(list)
    ensures Follows(known, list)
  {
    forall x, y, i | 0 <= x < y < |list| && 0 <= i < |known| && list[y] == known[i]
      ensures Earlier(known, i, list[x])
    {
      assert list[y] in list && known[i] in known;
      assert i == y by {
        assert known <= list ==> known[i] == list[i];
        assert list <= known ==> list[y] == known[y];
      }
      assert known[x] == list[x];
    }
  }

  /** Versions of a repository that only add tables and append transitions agree, each with itself and with the other. */
  lemma {:induction false} VersionsAgree(older: Repository, newer: Repository)
    requires NoRepeats(older) && NoRepeats(newer)
    requires forall a, b :: a in Lists(older) + Lists(newer) && b in Lists(newer) ==> Related(b, a)
    ensures Agreed(Lists(older) + Lists(newer), newer)
  {
    forall list, key | list in Lists(older) + Lists(newer) && key in newer.historical
      ensures Follows(newer.historical[key], list)
    {
      assert newer.historical[key] in Lists(newer);
      RelatedFollows(newer.historical[key], list);
    }
  }

  lemma {:induction false} OneVersionAgrees(repo: Repository)
    requires DisjointLists(repo) && NoRepeats(repo)
    ensures Agreed(Lists(repo), repo)
  {
    forall list, key | list in Lists(repo) && key in repo.historical
      ensures Follows(repo.historical[key], list)
    {
      var other :| other in repo.historical && list == repo.historical[other];
      assert Related(repo.historical[key], list);
      RelatedFollows(repo.historical[key], list);
    }
  }

  lemma {:induction false} MarkedByObject(repo: Repository, o: PlannedObject, path: string)
    ensures Marked(ObjectRecords(repo, o), path) <==>
            o.action.CreateObject? && o.kind.Tables? && o.key in repo.historical && path in repo.historical[o.key]
  {
    var records := ObjectRecords(repo, o);
    if r :| r in records && Marks(r, path) {
      assert r in CreateTableRecords(repo, o);
    }
    if o.action.CreateObject? && o.kind.Tables? && o.key in repo.historical && path in repo.historical[o.key] {
      var k :| 0 <= k < |repo.historical[o.key]| && repo.historical[o.key][k] == path;
      var r := CreateTableRecords(repo, o)[k];
      assert r in CreateTableRecords(repo, o) && r in records && Marks(r, path);
    }
  }

  /** A table that is created owes no transition: the next filter drops its whole list. */
  lemma {:induction false} CreatedOwesNothing(repo: Repository, o: PlannedObject, db: Database)
    requires Sound(repo, o) && o.action.CreateObject? && o.kind.Tables? && o.key in repo.historical
    ensures Unapplied(repo.historical[o.key], AppliedMap(ApplyUnit(db, ObjectUnit(repo, o)).history)) == []
  {
    var list, u := repo.historical[o.key], ObjectUnit(repo, o);
    var ran := Install(db, BodyWork(u.body));
    var history := ApplyUnit(db, u).history;
    forall path | path in list
      ensures AppliedRow(history, path).Some?
    {
      MarkedByObject(repo, o, path);
      var k :| 0 <= k < |u.records| && Marks(u.records[k], path);
      var row := CaptureAll(ran, u.records)[k];
      assert Applies(row, path) && row in history;
    }
    AppliedMapKeys(history);
    ResumesAfterPrefix(list, AppliedMap(history), |list|);
  }

  lemma {:induction false} ObjectRowsAreWhole(lists: set<seq<string>>, repo: Repository, o: PlannedObject)
    requires Agreed(lists, repo)
    ensures WholeRecords(lists, ObjectRecords(repo, o))
  {
    forall list, x, y | list in lists && 0 <= x < y < |list| && Marked(ObjectRecords(repo, o), list[y])
      ensures Marked(ObjectRecords(repo, o), list[x])
    {
      MarkedByObject(repo, o, list[y]);
      var known := repo.historical[o.key];
      var i :| 0 <= i < |known| && known[i] == list[y];
      assert Follows(known, list);
      assert Earlier(known, i, list[x]);
      var j :| 0 <= j < i && known[j] == list[x];
      MarkedByObject(repo, o, list[x]);
    }
  }

  /** What the object phase sends leaves no gap in any table's applied transitions. */
  lemma {:induction false} ObjectRequestsAreProper(lists: set<seq<string>>, repo: Repository, stmt: Stmt)
    requires Agreed(lists, repo) && ObjectRequest(repo, stmt)
    ensures ProperStmt(lists, stmt)
  {
    if stmt.Insert? {
      if o :| stmt.records == ObjectRecords(repo, o) {
        ObjectRowsAreWhole(lists, repo, o);
      } else {
        assert forall path :: !Marked(stmt.records, path);
      }
    }
  }

  // ---- The jobs of a plan ----

  /** No table lists a path twice. */
  ghost predicate NoRepeats(repo: Repository) {
    forall key :: key in repo.historical ==> Distinct(repo.historical[key])
  }

  /** What is planned for a table is its whole list. */
  ghost predicate WholeList(repo: Repository, o: PlannedObject) {
    Pending(o) ==> o.key in repo.historical && o.transitions == repo.historical[o.key]
  }

  ghost predicate WellPlanned(repo: Repository, objects: seq<PlannedObject>) {
    DistinctKeys(objects) && forall o :: o in objects ==> OwnBodies(repo, o) && WholeList(repo, o)
  }

  /** The earlier paths of the same table come before. */
  lemma {:induction false} StepsBack(objects: seq<PlannedObject>, a: nat, x: nat)
    requires a < |Steps(objects)| && x < Steps(objects)[a].1
    ensures exists b :: 0 <= b < a && Steps(objects)[b] == (Steps(objects)[a].0, x)
  {
    var n := |objects| - 1;
    var earlier, own := Steps(objects[..n]), StepsOf(objects[n]);
    if a < |earlier| {
      StepsBack(objects[..n], a, x);
      var b :| 0 <= b < a && earlier[b] == (earlier[a].0, x);
      assert Steps(objects)[b] == (Steps(objects)[a].0, x);
    } else {
      assert Steps(objects)[a] == own[a - |earlier|];
      assert Steps(objects)[|earlier| + x] == own[x];
    }
  }

  lemma {:induction false} StepsDiffer(objects: seq<PlannedObject>, a: nat, b: nat)
    requires DistinctKeys(objects) && a < b < |Steps(objects)|
    ensures Steps(objects)[a].0.key != Steps(objects)[b].0.key || (Steps(objects)[a].0 == Steps(objects)[b].0 && Steps(objects)[a].1 != Steps(objects)[b].1)
  {
    var n := |objects| - 1;
    var earlier, own := Steps(objects[..n]), StepsOf(objects[n]);
    if b < |earlier| {
      StepsDiffer(objects[..n], a, b);
    } else if a < |earlier| {
      StepMembers(objects[..n]);
      assert earlier[a] in earlier;
      var k :| 0 <= k < n && objects[k] == earlier[a].0;
      assert Steps(objects)[b] == own[b - |earlier|];
    } else {
      assert Steps(objects)[a] == own[a - |earlier|] && Steps(objects)[b] == own[b - |earlier|];
    }
  }

  lemma {:induction false} StepOf(repo: Repository, objects: seq<PlannedObject>, a: nat)
    requires WellPlanned(repo, objects) && a < |Steps(objects)|
    ensures var (o, i) := Steps(objects)[a];
            && OwnBodies(repo, o) && o.key in repo.historical && o.transitions == repo.historical[o.key]
            && o.transitions[i] in repo.historical[o.key]
  {
    StepMembers(objects);
    assert Steps(objects)[a] in Steps(objects);
  }

  lemma {:induction false} JobsDistinct(repo: Repository, objects: seq<PlannedObject>)
    requires WellPlanned(repo, objects) && DisjointLists(repo) && NoRepeats(repo)
    ensures DistinctPaths(Jobs(repo, Steps(objects)))
  {
    var steps := Steps(objects);
    forall a, b | 0 <= a < b < |steps|
      ensures Jobs(repo, steps)[a].path != Jobs(repo, steps)[b].path
    {
      StepOf(repo, objects, a);
      StepOf(repo, objects, b);
      StepsDiffer(objects, a, b);
    }
  }

  lemma {:induction false} JobsInOrder(lists: set<seq<string>>, repo: Repository, objects: seq<PlannedObject>, list: seq<string>)
    requires WellPlanned(repo, objects) && Agreed(lists, repo) && list in lists
    ensures InListOrder(list, Jobs(repo, Steps(objects)), [])
  {
    var steps := Steps(objects);
    var jobs := Jobs(repo, steps);
    forall a, x, y | 0 <= a < |jobs| && 0 <= x < y < |list| && jobs[a].path == list[y]
      ensures Before(jobs, a, list[x])
    {
      StepOf(repo, objects, a);
      var o, i := steps[a].0, steps[a].1;
      assert Follows(repo.historical[o.key], list);
      assert Earlier(repo.historical[o.key], i, list[x]);
      var j :| 0 <= j < i && repo.historical[o.key][j] == list[x];
      StepsBack(objects, a, j);
      var b :| 0 <= b < a && steps[b] == (o, j);
      assert jobs[b].path == list[x];
    }
  }

  lemma {:induction false} JobsHonest(repo: Repository, objects: seq<PlannedObject>)
    requires WellPlanned(repo, objects)
    ensures forall job :: job in Jobs(repo, Steps(objects)) ==> (Honest(job) <==> !job.body.use.CommitsIt?)
  {
    var steps := Steps(objects);
    forall job | job in Jobs(repo, steps)
      ensures Honest(job) <==> !job.body.use.CommitsIt?
    {
      var a :| 0 <= a < |steps| && job == Jobs(repo, steps)[a];
      StepOf(repo, objects, a);
      TransitionsAreHonest(repo, steps[a].0, steps[a].1);
    }
  }

  /** The jobs of a plan are proper exactly if none of its scripts commits the executor's transaction. */
  lemma {:induction false} PlansAreProper(lists: set<seq<string>>, repo: Repository, objects: seq<PlannedObject>)
    requires WellPlanned(repo, objects) && DisjointLists(repo) && NoRepeats(repo) && Agreed(lists, repo)
    ensures ProperJobs(lists, Jobs(repo, Steps(objects))) <==>
              forall job :: job in Jobs(repo, Steps(objects)) ==> !job.body.use.CommitsIt?
  {
    JobsHonest(repo, objects);
    JobsDistinct(repo, objects);
    forall list | list in lists
      ensures InListOrder(list, Jobs(repo, Steps(objects)), [])
    {
      JobsInOrder(lists, repo, objects, list);
    }
  }

  // ---- The planner's own plans ----

  /** The repository lists for each table what the layout lists for its row, and no key is used twice. */
  ghost predicate FromLayout(repo: Repository, layout: Planner.Layout) {
    && Planner.DistinctObjects(layout.objects)
    && forall i :: 0 <= i < |layout.objects| && i + 1 in layout.paths ==>
         layout.objects[i].key in repo.historical && repo.historical[layout.objects[i].key] == layout.paths[i + 1]
  }

  function PlanObjects(layout: Planner.Layout, facts: Planner.Facts, catalog: Planner.Catalog, drift: set<string>): (os: seq<PlannedObject>)
    requires Planner.Fits(layout, facts)
    ensures |os| == |layout.objects|
  {
    var p := Planner.FreshPlan(layout, facts, catalog, drift);
    Materialized(layout, p.rows, p.transitions)
  }

  /** Every plan the planner makes meets what the protocol assumes of plans, unless a script commits the transaction. */
  lemma {:induction false} PlannerMeetsProtocol(lists: set<seq<string>>, repo: Repository, layout: Planner.Layout, facts: Planner.Facts, catalog: Planner.Catalog, drift: set<string>)
    requires Planner.Fits(layout, facts) && FromLayout(repo, layout) && DisjointLists(repo) && NoRepeats(repo) && Agreed(lists, repo)
    requires forall o :: o in PlanObjects(layout, facts, catalog, drift) ==> OwnBodies(repo, o)
    ensures var jobs := Jobs(repo, Steps(PlanObjects(layout, facts, catalog, drift)));
            ProperJobs(lists, jobs) <==> forall job :: job in jobs ==> !job.body.use.CommitsIt?
  {
    var p := Planner.FreshPlan(layout, facts, catalog, drift);
    RowsAreWellPlanned(repo, layout, p.rows);
    PlansAreProper(lists, repo, PlanObjects(layout, facts, catalog, drift));
  }

  /** Rows with the path table that goes with them ask for whole lists. */
  lemma {:induction false} RowsAreWellPlanned(repo: Repository, layout: Planner.Layout, rows: seq<Planner.Row>)
    requires FromLayout(repo, layout) && |rows| == |layout.objects|
    requires forall o :: o in Materialized(layout, rows, Planner.PathTable(layout, rows)) ==> OwnBodies(repo, o)
    ensures WellPlanned(repo, Materialized(layout, rows, Planner.PathTable(layout, rows)))
  {
  }

  // ---- The filter of the protocol is the filter of the plan ----

  function FilterObject(o: PlannedObject, history: seq<Row>): PlannedObject {
    if o.action.ReprocessChanged? then o.(transitions := Unapplied(o.transitions, AppliedMap(history))) else o
  }

  function FilterObjects(objects: seq<PlannedObject>, history: seq<Row>): (os: seq<PlannedObject>)
    ensures |os| == |objects| && forall i :: 0 <= i < |os| ==> os[i] == FilterObject(objects[i], history)
  {
    seq(|objects|, i requires 0 <= i < |objects| => FilterObject(objects[i], history))
  }

  /** Editing the path lists of the plan's rows is filtering the planned objects. */
  lemma {:induction false} FilteredObjects(layout: Planner.Layout, rows: seq<Planner.Row>, before: map<nat, seq<string>>, history: seq<Row>, after: map<nat, seq<string>>)
    requires |rows| == |layout.objects| && Filtered(rows, before, AppliedMap(history), |rows|, after)
    ensures Materialized(layout, rows, after) == FilterObjects(Materialized(layout, rows, before), history)
  {
  }

  lemma {:induction false} UnfinishedAppend(xs: seq<Job>, ys: seq<Job>, history: seq<Row>)
    ensures Unfinished(xs + ys, history) == Unfinished(xs, history) + Unfinished(ys, history)
    decreases |ys|
  {
    if ys == [] {
      assert xs + ys == xs;
    } else {
      LastOfAppend(xs, ys);
      UnfinishedAppend(xs, ys[..|ys| - 1], history);
    }
  }

  lemma {:induction false} UnfinishedSuffix(jobs: seq<Job>, history: seq<Row>, k: nat)
    requires k <= |jobs| && forall i :: 0 <= i < |jobs| ==> (IsApplied(history, jobs[i].path) <==> i < k)
    ensures Unfinished(jobs, history) == jobs[k..]
  {
    if jobs != [] {
      var n := |jobs| - 1;
      if k <= n {
        UnfinishedSuffix(jobs[..n], history, k);
        assert jobs[..n][k..] + [jobs[n]] == jobs[k..];
      } else {
        UnfinishedSuffix(jobs[..n], history, n);
      }
    }
  }

  lemma {:induction false} AppliedPrefix(history: seq<Row>, list: seq<string>, k: nat)
    requires AppliedFirst(history, list) && k == AppliedCount(history, list)
    ensures forall i :: 0 <= i < |list| ==> (IsApplied(history, list[i]) <==> i < k)
  {
  }

  /** What is left of a table's list is its end, so the job of each step left is unchanged. */
  lemma {:induction false} FilteredTable(repo: Repository, o: PlannedObject, history: seq<Row>)
    requires Pending(o) ==> AppliedFirst(history, o.transitions)
    ensures Jobs(repo, StepsOf(FilterObject(o, history))) == Unfinished(Jobs(repo, StepsOf(o)), history)
  {
    var f := FilterObject(o, history);
    var jobs, left := Jobs(repo, StepsOf(o)), Jobs(repo, StepsOf(f));
    if Pending(o) {
      var k := AppliedCount(history, o.transitions);
      AppliedPrefix(history, o.transitions, k);
      assert f.transitions == o.transitions[k..] by {
        AppliedMapKeys(history);
        ResumesAfterPrefix(o.transitions, AppliedMap(history), k);
      }
      UnfinishedSuffix(jobs, history, k);
      assert left == jobs[k..];
    } else {
      UnfinishedSuffix(jobs, history, 0);
    }
  }

  /**
   Filtering the plan under the lock leaves the jobs that the protocol's filter
   leaves: same scripts, same rows, the table's own baseline still with its last one.
   */
  lemma {:induction false} FilterAgrees(repo: Repository, objects: seq<PlannedObject>, history: seq<Row>)
    requires forall o :: o in objects && Pending(o) ==> AppliedFirst(history, o.transitions)
    ensures Jobs(repo, Steps(FilterObjects(objects, history))) == Unfinished(Jobs(repo, Steps(objects)), history)
  {
    if objects != [] {
      var n := |objects| - 1;
      var front, last := objects[..n], objects[n];
      var fs := FilterObjects(objects, history);
      assert fs[..n] == FilterObjects(front, history);
      FilterAgrees(repo, front, history);
      FilteredTable(repo, last, history);
      UnfinishedAppend(Jobs(repo, Steps(front)), Jobs(repo, StepsOf(last)), history);
      JobsAppend(repo, Steps(front), StepsOf(last));
      JobsAppend(repo, Steps(fs[..n]), StepsOf(fs[n]));
    }
  }

  /**
   In every state in which the applied paths of each table come first, as they do in
   every reachable one: filtering the path lists of the plan's rows in place leaves
   the jobs that the protocol's filter leaves.
   */
  lemma {:induction false} PlanFilterIsProtocolFilter(repo: Repository, layout: Planner.Layout, rows: seq<Planner.Row>, before: map<nat, seq<string>>,
                                                      history: seq<Row>, after: map<nat, seq<string>>)
    requires |rows| == |layout.objects| && Filtered(rows, before, AppliedMap(history), |rows|, after)
    requires WellPlanned(repo, Materialized(layout, rows, before)) && forall list :: list in Lists(repo) ==> AppliedFirst(history, list)
    ensures Unfinished(Jobs(repo, Steps(Materialized(layout, rows, before))), history) == Jobs(repo, Steps(Materialized(layout, rows, after)))
  {
    var objects := Materialized(layout, rows, before);
    FilteredObjects(layout, rows, before, history, after);
    forall o | o in objects && Pending(o)
      ensures AppliedFirst(history, o.transitions)
    {
      assert repo.historical[o.key] in Lists(repo);
    }
    FilterAgrees(repo, objects, history);
  }

  lemma {:induction false} RunsFollowTheirPlans(db: Database, n: nat, lists: set<seq<string>>, events: seq<Event>, repo: Repository,
                                                layout: Planner.Layout, rows: seq<Planner.Row>, before: map<nat, seq<string>>, after: map<nat, seq<string>>)
    requires Consistent(db, lists) && (forall e :: e in events ==> Proper(lists, e)) && Lists(repo) <= lists
    requires |rows| == |layout.objects| && WellPlanned(repo, Materialized(layout, rows, before))
    requires Filtered(rows, before, AppliedMap(Play(Start(db, n), events).db.history), |rows|, after)
    ensures var history := Play(Start(db, n), events).db.history;
            Unfinished(Jobs(repo, Steps(Materialized(layout, rows, before))), history) == Jobs(repo, Steps(Materialized(layout, rows, after)))
  {
    RunsAreSafe(db, n, lists, events);
    PlanFilterIsProtocolFilter(repo, layout, rows, before, Play(Start(db, n), events).db.history, after);
  }
}
