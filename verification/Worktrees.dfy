/**
 Execution worktrees of one shared checkout: how an attempt forks
 (internal/agentrunner/worktree.go) and how a merged task's attempts are cleaned
 up (internal/agentrunner/worktree_cleanup.go). Every git query may also fail.
 */
module Worktrees {
  import opened Options
  import opened CommitGraph

  datatype Place = Place(task: string, execution: string)
  /** `branch` is None while HEAD is detached. */
  datatype Worktree = Worktree(head: Commit, branch: Option<string>, dirty: bool)
  datatype Repo = Repo(
    graph: Graph, branches: map<string, Commit>, remote: map<string, Commit>,
    worktrees: map<Place, Worktree>, current: string)

  const BRANCH_PREFIX := "task-exec/"

  function ExecutionBranchName(task: string, execution: string): string {
    BRANCH_PREFIX + task + "/" + execution
  }

  /** Rejected before any path or branch is built from it. */
  predicate SafeId(id: string) {
    '/' !in id && '\\' !in id && forall i :: 0 < i < |id| ==> !(id[i - 1] == '.' && id[i] == '.')
  }

  /** No two attempts share a branch, whatever their tasks. */
  lemma BranchNamesDistinct(task: string, execution: string, task': string, execution': string)
    requires SafeId(task) && SafeId(execution) && SafeId(task') && SafeId(execution')
    requires ExecutionBranchName(task, execution) == ExecutionBranchName(task', execution')
    ensures task == task' && execution == execution'
  {
    var p := |BRANCH_PREFIX|;
    var b, b' := ExecutionBranchName(task, execution), ExecutionBranchName(task', execution');
    assert b[p + |task|] == '/' && b'[p + |task'|] == '/';
    assert b[p..p + |task|] == task && b'[p..p + |task'|] == task';
    assert b[p + |task| + 1..] == execution && b'[p + |task'| + 1..] == execution';
  }

  ghost predicate WellFormed(r: Repo) {
    && r.current in r.branches
    && (forall b :: b in r.branches ==> r.branches[b] < |r.graph|)
    && (forall b :: b in r.remote ==> r.remote[b] < |r.graph|)
    && (forall p :: p in r.worktrees ==> r.worktrees[p].head < |r.graph|)
    && (forall p :: p in r.worktrees && r.worktrees[p].branch.Some? ==>
          r.worktrees[p].branch.value in r.branches && r.branches[r.worktrees[p].branch.value] == r.worktrees[p].head)
  }

  /** git refuses to delete a branch some working tree has checked out. */
  predicate CheckedOut(r: Repo, branch: string) {
    branch == r.current || exists p :: p in r.worktrees && r.worktrees[p].branch == Some(branch)
  }

  function BranchDeleted(r: Repo, branch: string, works: bool): Repo {
    if works && !CheckedOut(r, branch) then r.(branches := r.branches - {branch}) else r
  }

  // ---- Cleaning up one attempt ----

  datatype Mode = Mode(force: bool, apply: bool)
  datatype Outcome = Removed | AlreadyGone | Skipped | Failed | WouldRemove
  datatype Result = Result(execution: string, branch: string, outcome: Outcome)

  /** What the filesystem and git answer when asked about one attempt. */
  datatype Stat = Readable | Unreadable | NotDirectory
  datatype Probe = Probe(stat: Stat, dirtyKnown: bool, ancestryKnown: bool, removes: bool, deletes: bool)

  /** Clean, and its HEAD already part of what was pushed. */
  predicate SafeToRemove(r: Repo, w: Worktree, tip: Option<Commit>, p: Probe) {
    p.dirtyKnown && !w.dirty && tip.Some? && tip.value < |r.graph| && p.ancestryKnown && Ancestor(r.graph, w.head, tip.value)
  }

  function CleanOne(r: Repo, place: Place, tip: Option<Commit>, o: Mode, p: Probe): (Repo, Outcome) {
    var branch := ExecutionBranchName(place.task, place.execution);
    if p.stat.Unreadable? || p.stat.NotDirectory? then (r, Failed)
    else if place !in r.worktrees then
      (if o.apply then BranchDeleted(r, branch, p.deletes) else r, AlreadyGone)
    else if !o.force && !SafeToRemove(r, r.worktrees[place], tip, p) then (r, Skipped)
    else if !o.apply then (r, WouldRemove)
    else if !p.removes then (r, Failed)
    else (BranchDeleted(r.(worktrees := r.worktrees - {place}), branch, p.deletes), Removed)
  }

  // ---- One pass over a task's attempts ----

  function Pass(r: Repo, task: string, ids: seq<string>, tip: Option<Commit>, o: Mode, probes: seq<Probe>): (Repo, seq<Result>)
    requires |probes| == |ids|
  {
    if ids == [] then (r, []) else
    var n := |ids| - 1;
    var (r', results) := Pass(r, task, ids[..n], tip, o, probes[..n]);
    var (r'', outcome) := CleanOne(r', Place(task, ids[n]), tip, o, probes[n]);
    (r'', results + [Result(ids[n], ExecutionBranchName(task, ids[n]), outcome)])
  }

  /** `resolved` is whether the shared checkout itself was found. */
  function PushedTip(r: Repo, pushed: string, o: Mode): Option<Commit> {
    if !o.force && pushed != "" && pushed in r.remote then Some(r.remote[pushed]) else None
  }

  function Cleaned(r: Repo, resolved: bool, task: string, pushed: string, ids: seq<string>, o: Mode,
                   probes: seq<Probe>): (Repo, seq<Result>)
    requires |probes| == |ids|
  {
    if resolved then Pass(r, task, ids, PushedTip(r, pushed, o), o, probes)
    else (r, seq(|ids|, i requires 0 <= i < |ids| => Result(ids[i], ExecutionBranchName(task, ids[i]), Failed)))
  }

  // ---- What a pass guarantees ----

  /** A pass takes worktrees and local branches away and touches nothing else. */
  predicate Shrunk(r: Repo, r': Repo) {
    && r'.graph == r.graph && r'.remote == r.remote && r'.current == r.current
    && r'.worktrees.Keys <= r.worktrees.Keys && (forall p :: p in r'.worktrees ==> r'.worktrees[p] == r.worktrees[p])
    && r'.branches.Keys <= r.branches.Keys && (forall b :: b in r'.branches ==> r'.branches[b] == r.branches[b])
  }

  lemma OneShrinks(r: Repo, place: Place, tip: Option<Commit>, o: Mode, p: Probe)
    requires WellFormed(r)
    ensures var (r', outcome) := CleanOne(r, place, tip, o, p);
            && Shrunk(r, r') && WellFormed(r')
            && r'.worktrees == (if outcome.Removed? then r.worktrees - {place} else r.worktrees)
            && (outcome.Removed? ==> place in r.worktrees)
            && (outcome.AlreadyGone? ==> place !in r.worktrees)
  {
  }

  lemma {:induction false} PassShrinks(r: Repo, task: string, ids: seq<string>, tip: Option<Commit>, o: Mode, probes: seq<Probe>)
    requires |probes| == |ids| && WellFormed(r)
    ensures var (r', _) := Pass(r, task, ids, tip, o, probes); Shrunk(r, r') && WellFormed(r')
  {
    if ids != [] {
      var n := |ids| - 1;
      PassShrinks(r, task, ids[..n], tip, o, probes[..n]);
      OneShrinks(Pass(r, task, ids[..n], tip, o, probes[..n]).0, Place(task, ids[n]), tip, o, probes[n]);
    }
  }

  /** One result per attempt, in order. */
  lemma {:induction false} PassReportsEach(r: Repo, task: string, ids: seq<string>, tip: Option<Commit>, o: Mode, probes: seq<Probe>)
    requires |probes| == |ids|
    ensures var results := Pass(r, task, ids, tip, o, probes).1;
            && |results| == |ids|
            && forall i :: 0 <= i < |ids| ==> results[i].execution == ids[i] && results[i].branch == ExecutionBranchName(task, ids[i])
  {
    if ids != [] {
      var n := |ids| - 1;
      PassReportsEach(r, task, ids[..n], tip, o, probes[..n]);
    }
  }

  /** A worktree is gone afterwards exactly if it was gone before or reported removed. */
  lemma {:induction false} PassRemovesReported(r: Repo, task: string, ids: seq<string>, tip: Option<Commit>, o: Mode,
                                               probes: seq<Probe>, place: Place)
    requires |probes| == |ids| && WellFormed(r)
    ensures var (r', results) := Pass(r, task, ids, tip, o, probes);
            place in r'.worktrees <==>
              place in r.worktrees && !exists res :: res in results && res.outcome.Removed? && place == Place(task, res.execution)
  {
    if ids != [] {
      var n := |ids| - 1;
      var (r1, results) := Pass(r, task, ids[..n], tip, o, probes[..n]);
      PassRemovesReported(r, task, ids[..n], tip, o, probes[..n], place);
      PassShrinks(r, task, ids[..n], tip, o, probes[..n]);
      OneShrinks(r1, Place(task, ids[n]), tip, o, probes[n]);
      var last := Result(ids[n], ExecutionBranchName(task, ids[n]), CleanOne(r1, Place(task, ids[n]), tip, o, probes[n]).1);
      assert forall res :: res in results + [last] <==> res in results || res == last;
    }
  }

  /** After a pass no attempt reported removed or already gone has a worktree. */
  lemma {:induction false} CleanOutcomeMeansGone(r: Repo, task: string, ids: seq<string>, tip: Option<Commit>, o: Mode,
                                                 probes: seq<Probe>, i: nat)
    requires |probes| == |ids| && WellFormed(r) && i < |ids|
    ensures var (r', results) := Pass(r, task, ids, tip, o, probes);
            |results| == |ids| &&
            (results[i].outcome.Removed? || results[i].outcome.AlreadyGone? ==> Place(task, ids[i]) !in r'.worktrees)
  {
    var n := |ids| - 1;
    PassReportsEach(r, task, ids, tip, o, probes);
    PassReportsEach(r, task, ids[..n], tip, o, probes[..n]);
    PassShrinks(r, task, ids[..n], tip, o, probes[..n]);
    OneShrinks(Pass(r, task, ids[..n], tip, o, probes[..n]).0, Place(task, ids[n]), tip, o, probes[n]);
    if i < n {
      CleanOutcomeMeansGone(r, task, ids[..n], tip, o, probes[..n], i);
    }
  }

  /** A dry run removes nothing and changes nothing. */
  lemma {:induction false} DryRunTouchesNothing(r: Repo, task: string, ids: seq<string>, tip: Option<Commit>, o: Mode, probes: seq<Probe>)
    requires |probes| == |ids| && !o.apply
    ensures var (r', results) := Pass(r, task, ids, tip, o, probes);
            r' == r && forall res :: res in results ==> !res.outcome.Removed?
  {
    if ids != [] {
      var n := |ids| - 1;
      DryRunTouchesNothing(r, task, ids[..n], tip, o, probes[..n]);
    }
  }

  /** Without force, whatever was removed was clean and already pushed: every commit
      its HEAD could reach is still reachable from the pushed branch. */
  lemma {:induction false} RemovedWasPushed(r: Repo, task: string, ids: seq<string>, tip: Option<Commit>, o: Mode,
                                            probes: seq<Probe>, i: nat)
    requires |probes| == |ids| && WellFormed(r) && i < |ids| && !o.force
    ensures var results := Pass(r, task, ids, tip, o, probes).1;
            && |results| == |ids|
            && (results[i].outcome.Removed? ==>
                  && Place(task, ids[i]) in r.worktrees && tip.Some? && tip.value < |r.graph|
                  && !r.worktrees[Place(task, ids[i])].dirty
                  && Reach(r.graph, r.worktrees[Place(task, ids[i])].head) <= Reach(r.graph, tip.value))
  {
    var n := |ids| - 1;
    PassReportsEach(r, task, ids, tip, o, probes);
    PassReportsEach(r, task, ids[..n], tip, o, probes[..n]);
    PassShrinks(r, task, ids, tip, o, probes);
    PassShrinks(r, task, ids[..n], tip, o, probes[..n]);
    if i < n {
      RemovedWasPushed(r, task, ids[..n], tip, o, probes[..n], i);
    } else {
      var r1 := Pass(r, task, ids[..n], tip, o, probes[..n]).0;
      var place := Place(task, ids[n]);
      if CleanOne(r1, place, tip, o, probes[n]).1.Removed? {
        AncestorReach(r.graph, r.worktrees[place].head, tip.value);
      }
    }
  }

  // ---- No work is lost, and when it is ----

  /** Some ref or worktree still leads to the commit. */
  ghost predicate Kept(r: Repo, c: Commit)
    requires WellFormed(r)
  {
    || (exists b :: b in r.branches && c in Reach(r.graph, r.branches[b]))
    || (exists b :: b in r.remote && c in Reach(r.graph, r.remote[b]))
    || (exists p :: p in r.worktrees && c in Reach(r.graph, r.worktrees[p].head))
  }

  /** The tip a pass compares against is a remote branch's. */
  ghost predicate IsPushed(r: Repo, tip: Option<Commit>) {
    tip.Some? ==> exists b :: b in r.remote && r.remote[b] == tip.value
  }

  /** An attempt whose own branch is not what its worktree had checked out. */
  predicate OffItsBranch(r: Repo, place: Place) {
    place !in r.worktrees || r.worktrees[place].branch != Some(ExecutionBranchName(place.task, place.execution))
  }

  predicate Distinct(ids: seq<string>) {
    forall i, j :: 0 <= i < j < |ids| ==> ids[i] != ids[j]
  }

  lemma OthersStay(r: Repo, task: string, ids: seq<string>, tip: Option<Commit>, o: Mode, probes: seq<Probe>, place: Place)
    requires |probes| == |ids| && WellFormed(r) && (forall i :: 0 <= i < |ids| ==> place != Place(task, ids[i]))
    ensures var r' := Pass(r, task, ids, tip, o, probes).0;
            && (place in r'.worktrees <==> place in r.worktrees)
            && (place in r.worktrees ==> r'.worktrees[place] == r.worktrees[place])
  {
    PassRemovesReported(r, task, ids, tip, o, probes, place);
    PassReportsEach(r, task, ids, tip, o, probes);
    PassShrinks(r, task, ids, tip, o, probes);
  }

  /** Whether this attempt's worktree will be removed, as seen before the pass. */
  predicate Removes(r: Repo, place: Place, tip: Option<Commit>, o: Mode, p: Probe) {
    && p.stat.Readable? && place in r.worktrees && (o.force || SafeToRemove(r, r.worktrees[place], tip, p))
    && o.apply && p.removes
  }

  /** Once these worktrees are gone, nothing has the branch checked out. */
  predicate Freed(r: Repo, branch: string, gone: set<Place>) {
    branch in r.branches && branch != r.current && forall q :: q in r.worktrees && r.worktrees[q].branch == Some(branch) ==> q in gone
  }

  /** Whether its branch will be deleted, once these worktrees are gone: the branch
      itself is never compared with what was pushed. */
  predicate Deletes(r: Repo, place: Place, gone: set<Place>, o: Mode, p: Probe) {
    && o.apply && p.stat.Readable? && p.deletes && (place in r.worktrees ==> place in gone)
    && Freed(r, ExecutionBranchName(place.task, place.execution), gone)
  }

  function RemovedPlaces(r: Repo, task: string, ids: seq<string>, tip: Option<Commit>, o: Mode, probes: seq<Probe>): set<Place>
    requires |probes| == |ids|
  {
    if ids == [] then {} else
    var n := |ids| - 1;
    RemovedPlaces(r, task, ids[..n], tip, o, probes[..n])
    + if Removes(r, Place(task, ids[n]), tip, o, probes[n]) then {Place(task, ids[n])} else {}
  }

  function DeletedBranches(r: Repo, task: string, ids: seq<string>, tip: Option<Commit>, o: Mode, probes: seq<Probe>): set<string>
    requires |probes| == |ids|
  {
    if ids == [] then {} else
    var n := |ids| - 1;
    DeletedBranches(r, task, ids[..n], tip, o, probes[..n])
    + if Deletes(r, Place(task, ids[n]), RemovedPlaces(r, task, ids, tip, o, probes), o, probes[n])
      then {ExecutionBranchName(task, ids[n])} else {}
  }

  function Without(r: Repo, gone: set<Place>, doomed: set<string>): Repo {
    r.(branches := r.branches - doomed, worktrees := r.worktrees - gone)
  }

  lemma BranchDeletedIs(r: Repo, gone: set<Place>, doomed: set<string>, branch: string, works: bool)
    requires branch !in doomed
    ensures BranchDeleted(Without(r, gone, doomed), branch, works) ==
            Without(r, gone, doomed + if works && Freed(r, branch, gone) then {branch} else {})
  {
    var r1 := Without(r, gone, doomed);
    assert forall q :: q in r1.worktrees <==> q in r.worktrees && q !in gone;
    if works && Freed(r, branch, gone) {
      assert r1.branches - {branch} == r.branches - (doomed + {branch});
    } else {
      assert doomed + {} == doomed;
      assert branch !in r.branches ==> r1.branches - {branch} == r1.branches;
    }
  }

  lemma OneIs(r: Repo, gone: set<Place>, doomed: set<string>, place: Place, tip: Option<Commit>, o: Mode, p: Probe)
    requires place !in gone && ExecutionBranchName(place.task, place.execution) !in doomed
    ensures var gone' := gone + if Removes(r, place, tip, o, p) then {place} else {};
            var doomed' := doomed + if Deletes(r, place, gone', o, p)
                                    then {ExecutionBranchName(place.task, place.execution)} else {};
            CleanOne(Without(r, gone, doomed), place, tip, o, p).0 == Without(r, gone', doomed')
  {
    var branch := ExecutionBranchName(place.task, place.execution);
    var r1 := Without(r, gone, doomed);
    BranchDeletedIs(r, gone, doomed, branch, p.deletes);
    BranchDeletedIs(r, gone + {place}, doomed, branch, p.deletes);
    assert gone + {} == gone && doomed + {} == doomed;
    assert r1.(worktrees := r1.worktrees - {place}) == Without(r, gone + {place}, doomed) by {
      assert r1.worktrees - {place} == r.worktrees - (gone + {place});
    }
  }

  lemma {:induction false} TouchesOnly(r: Repo, task: string, ids: seq<string>, tip: Option<Commit>, o: Mode, probes: seq<Probe>)
    requires |probes| == |ids|
    ensures forall q :: q in RemovedPlaces(r, task, ids, tip, o, probes) ==>
              exists i :: 0 <= i < |ids| && q == Place(task, ids[i]) && Removes(r, q, tip, o, probes[i])
    ensures forall b :: b in DeletedBranches(r, task, ids, tip, o, probes) ==>
              b in r.branches && exists i :: 0 <= i < |ids| && b == ExecutionBranchName(task, ids[i])
  {
    if ids != [] {
      var n := |ids| - 1;
      TouchesOnly(r, task, ids[..n], tip, o, probes[..n]);
      assert forall i :: 0 <= i < n ==> ids[..n][i] == ids[i] && probes[..n][i] == probes[i];
    }
  }

  lemma OwnBranch(task: string, execution: string, execution': string)
    requires ExecutionBranchName(task, execution) == ExecutionBranchName(task, execution')
    ensures execution == execution'
  {
    var k := |BRANCH_PREFIX + task + "/"|;
    assert ExecutionBranchName(task, execution)[k..] == execution && ExecutionBranchName(task, execution')[k..] == execution';
  }

  lemma NotTouched(r: Repo, task: string, ids: seq<string>, tip: Option<Commit>, o: Mode, probes: seq<Probe>, execution: string)
    requires |probes| == |ids| && execution !in ids
    ensures Place(task, execution) !in RemovedPlaces(r, task, ids, tip, o, probes)
    ensures ExecutionBranchName(task, execution) !in DeletedBranches(r, task, ids, tip, o, probes)
  {
    TouchesOnly(r, task, ids, tip, o, probes);
    if ExecutionBranchName(task, execution) in DeletedBranches(r, task, ids, tip, o, probes) {
      var i :| 0 <= i < |ids| && ExecutionBranchName(task, execution) == ExecutionBranchName(task, ids[i]);
      OwnBranch(task, execution, ids[i]);
    }
  }

  /** What a pass takes away is settled before it starts: though each attempt is
      judged against what the earlier ones left, their worktrees and branches do not
      interfere but in one way, a branch freed by an earlier removal. */
  lemma {:induction false} PassIs(r: Repo, task: string, ids: seq<string>, tip: Option<Commit>, o: Mode, probes: seq<Probe>)
    requires |probes| == |ids| && Distinct(ids)
    ensures Pass(r, task, ids, tip, o, probes).0 ==
            Without(r, RemovedPlaces(r, task, ids, tip, o, probes), DeletedBranches(r, task, ids, tip, o, probes))
  {
    if ids == [] {
      assert Without(r, {}, {}) == r;
    } else {
      var n := |ids| - 1;
      PassIs(r, task, ids[..n], tip, o, probes[..n]);
      NotTouched(r, task, ids[..n], tip, o, probes[..n], ids[n]);
      OneIs(r, RemovedPlaces(r, task, ids[..n], tip, o, probes[..n]), DeletedBranches(r, task, ids[..n], tip, o, probes[..n]),
            Place(task, ids[n]), tip, o, probes[n]);
    }
  }

  /** Something besides these branches and worktrees leads to the commit. */
  ghost predicate KeptBeside(r: Repo, gone: set<Place>, doomed: set<string>, c: Commit)
    requires WellFormed(r)
  {
    || (exists b :: b in r.branches && b !in doomed && c in Reach(r.graph, r.branches[b]))
    || (exists b :: b in r.remote && c in Reach(r.graph, r.remote[b]))
    || (exists p :: p in r.worktrees && p !in gone && c in Reach(r.graph, r.worktrees[p].head))
  }

  lemma KeptWithout(r: Repo, gone: set<Place>, doomed: set<string>, c: Commit)
    requires WellFormed(r) && WellFormed(Without(r, gone, doomed))
    ensures Kept(Without(r, gone, doomed), c) <==> KeptBeside(r, gone, doomed, c)
  {
    var r' := Without(r, gone, doomed);
    assert forall b :: b in r'.branches <==> b in r.branches && b !in doomed;
    assert forall p :: p in r'.worktrees <==> p in r.worktrees && p !in gone;
  }

  /** Without force a removed worktree's whole history is on the pushed branch. */
  lemma GoneWasPushed(r: Repo, task: string, ids: seq<string>, tip: Option<Commit>, o: Mode, probes: seq<Probe>,
                      doomed: set<string>, c: Commit)
    requires |probes| == |ids| && WellFormed(r) && IsPushed(r, tip) && !o.force
    ensures KeptBeside(r, RemovedPlaces(r, task, ids, tip, o, probes), doomed, c) <==> KeptBeside(r, {}, doomed, c)
  {
    var gone := RemovedPlaces(r, task, ids, tip, o, probes);
    TouchesOnly(r, task, ids, tip, o, probes);
    if q :| q in r.worktrees && q in gone && c in Reach(r.graph, r.worktrees[q].head) {
      var i :| 0 <= i < |ids| && q == Place(task, ids[i]) && Removes(r, q, tip, o, probes[i]);
      AncestorReach(r.graph, r.worktrees[q].head, tip.value);
      var b :| b in r.remote && r.remote[b] == tip.value;
      assert c in Reach(r.graph, r.remote[b]);
    }
  }

  /** Without force, a pass loses a commit if and only if a branch it will delete leads
      to it and no other branch, no remote one and no worktree does. */
  lemma PassLosesExactly(r: Repo, task: string, ids: seq<string>, tip: Option<Commit>, o: Mode, probes: seq<Probe>, c: Commit)
    requires |probes| == |ids| && WellFormed(r) && IsPushed(r, tip) && !o.force && Distinct(ids)
    ensures var r', doomed := Pass(r, task, ids, tip, o, probes).0, DeletedBranches(r, task, ids, tip, o, probes);
            && WellFormed(r')
            && (Kept(r, c) && !Kept(r', c) <==>
                (exists b :: b in doomed && b in r.branches && c in Reach(r.graph, r.branches[b])) && !KeptBeside(r, {}, doomed, c))
  {
    var gone, doomed := RemovedPlaces(r, task, ids, tip, o, probes), DeletedBranches(r, task, ids, tip, o, probes);
    PassShrinks(r, task, ids, tip, o, probes);
    PassIs(r, task, ids, tip, o, probes);
    KeptWithout(r, gone, doomed, c);
    GoneWasPushed(r, task, ids, tip, o, probes, doomed, c);
  }

  lemma TipCarries(r: Repo, doomed: set<string>, b: string, c: Commit)
    requires WellFormed(r) && b in r.branches && c in Reach(r.graph, r.branches[b]) && KeptBeside(r, {}, doomed, r.branches[b])
    ensures KeptBeside(r, {}, doomed, c)
  {
    var t := r.branches[b];
    if x :| x in r.branches && x !in doomed && t in Reach(r.graph, r.branches[x]) {
      ReachTransitive(r.graph, c, t, r.branches[x]);
    } else if x :| x in r.remote && t in Reach(r.graph, r.remote[x]) {
      ReachTransitive(r.graph, c, t, r.remote[x]);
    } else {
      var q :| q in r.worktrees && t in Reach(r.graph, r.worktrees[q].head);
      ReachTransitive(r.graph, c, t, r.worktrees[q].head);
    }
  }

  ghost predicate LosesNothing(r: Repo, r': Repo)
    requires WellFormed(r) && WellFormed(r')
  {
    forall c :: Kept(r, c) ==> Kept(r', c)
  }

  ghost predicate TipsKeptBeside(r: Repo, doomed: set<string>)
    requires WellFormed(r)
  {
    forall b :: b in doomed && b in r.branches ==> KeptBeside(r, {}, doomed, r.branches[b])
  }

  /** So it loses nothing if and only if the tip of every branch it will delete is
      part of another branch, of a remote one or of some worktree's HEAD. */
  lemma PassLosesNothingExactly(r: Repo, task: string, ids: seq<string>, tip: Option<Commit>, o: Mode, probes: seq<Probe>)
    requires |probes| == |ids| && WellFormed(r) && IsPushed(r, tip) && !o.force && Distinct(ids)
    ensures var r' := Pass(r, task, ids, tip, o, probes).0;
            WellFormed(r') && (LosesNothing(r, r') <==> TipsKeptBeside(r, DeletedBranches(r, task, ids, tip, o, probes)))
  {
    var r', doomed := Pass(r, task, ids, tip, o, probes).0, DeletedBranches(r, task, ids, tip, o, probes);
    PassShrinks(r, task, ids, tip, o, probes);
    if LosesNothing(r, r') {
      forall b | b in doomed && b in r.branches ensures KeptBeside(r, {}, doomed, r.branches[b]) {
        PassLosesExactly(r, task, ids, tip, o, probes, r.branches[b]);
        assert Kept(r, r.branches[b]);
      }
    }
    if TipsKeptBeside(r, doomed) {
      forall c | Kept(r, c) ensures Kept(r', c) {
        PassLosesExactly(r, task, ids, tip, o, probes, c);
        if b :| b in doomed && b in r.branches && c in Reach(r.graph, r.branches[b]) {
          TipCarries(r, doomed, b, c);
        }
      }
    }
  }

  lemma OnItsBranchKept(r: Repo, place: Place, doomed: set<string>, c: Commit)
    requires WellFormed(r)
    ensures var branch := ExecutionBranchName(place.task, place.execution);
            !OffItsBranch(r, place) && c in Reach(r.graph, r.branches[branch]) ==> KeptBeside(r, {}, doomed, c)
  {
  }

  /** Each outcome's exact condition, as the human reads it in the report. */
  lemma OutcomeExactly(r: Repo, place: Place, tip: Option<Commit>, o: Mode, p: Probe)
    requires WellFormed(r)
    ensures var outcome := CleanOne(r, place, tip, o, p).1;
            var there := p.stat.Readable? && place in r.worktrees;
            var pushed :=
              place in r.worktrees && tip.Some? && tip.value < |r.graph| && r.worktrees[place].head in Reach(r.graph, tip.value);
            var safe := place in r.worktrees && !r.worktrees[place].dirty && pushed && p.dirtyKnown && p.ancestryKnown;
            && (outcome.AlreadyGone? <==> p.stat.Readable? && place !in r.worktrees)
            && (outcome.Skipped? <==> there && !o.force && !safe)
            && (outcome.WouldRemove? <==> there && (o.force || safe) && !o.apply)
            && (outcome.Removed? <==> there && (o.force || safe) && o.apply && p.removes)
            && (outcome.Failed? <==> !p.stat.Readable? || (there && (o.force || safe) && o.apply && !p.removes))
  {
  }

  /** In a pass too, every outcome is settled by the state before it. */
  lemma {:induction false} PassOutcomes(r: Repo, task: string, ids: seq<string>, tip: Option<Commit>, o: Mode, probes: seq<Probe>, i: nat)
    requires |probes| == |ids| && Distinct(ids) && i < |ids|
    ensures var results := Pass(r, task, ids, tip, o, probes).1;
            |results| == |ids| && results[i].outcome == CleanOne(r, Place(task, ids[i]), tip, o, probes[i]).1
  {
    var n := |ids| - 1;
    PassReportsEach(r, task, ids, tip, o, probes);
    PassReportsEach(r, task, ids[..n], tip, o, probes[..n]);
    if i < n {
      PassOutcomes(r, task, ids[..n], tip, o, probes[..n], i);
    } else {
      PassIs(r, task, ids[..n], tip, o, probes[..n]);
      NotTouched(r, task, ids[..n], tip, o, probes[..n], ids[n]);
    }
  }

  /** A dry run names exactly what the real one removes wherever git obliges. */
  lemma DryRunForetells(r: Repo, task: string, ids: seq<string>, tip: Option<Commit>, force: bool, probes: seq<Probe>, i: nat)
    requires |probes| == |ids| && Distinct(ids) && i < |ids| && WellFormed(r) && probes[i].removes
    ensures var dry, done := Pass(r, task, ids, tip, Mode(force, false), probes).1, Pass(r, task, ids, tip, Mode(force, true), probes).1;
            && |dry| == |done| == |ids|
            && (dry[i].outcome.WouldRemove? <==> done[i].outcome.Removed?)
            && (!dry[i].outcome.WouldRemove? ==> dry[i].outcome == done[i].outcome)
  {
    PassOutcomes(r, task, ids, tip, Mode(force, false), probes, i);
    PassOutcomes(r, task, ids, tip, Mode(force, true), probes, i);
  }

  /** In particular only through the branch of an attempt already gone or off its own
      branch: on its branch, an attempt's tip is the HEAD that was checked. */
  lemma PassLosesOnly(r: Repo, task: string, ids: seq<string>, tip: Option<Commit>, o: Mode, probes: seq<Probe>, c: Commit)
    requires |probes| == |ids| && WellFormed(r) && IsPushed(r, tip) && !o.force && Kept(r, c) && Distinct(ids)
    ensures var r' := Pass(r, task, ids, tip, o, probes).0;
            WellFormed(r') && (!Kept(r', c) ==>
              exists i :: 0 <= i < |ids| && OffItsBranch(r, Place(task, ids[i])) &&
                var branch := ExecutionBranchName(task, ids[i]);
                branch in r.branches && c in Reach(r.graph, r.branches[branch]))
  {
    PassLosesExactly(r, task, ids, tip, o, probes, c);
    if !Kept(Pass(r, task, ids, tip, o, probes).0, c) {
      var b :| b in DeletedBranches(r, task, ids, tip, o, probes) && b in r.branches && c in Reach(r.graph, r.branches[b]);
      TouchesOnly(r, task, ids, tip, o, probes);
      var i :| 0 <= i < |ids| && b == ExecutionBranchName(task, ids[i]);
      OnItsBranchKept(r, Place(task, ids[i]), DeletedBranches(r, task, ids, tip, o, probes), c);
    }
  }

  /** A worktree moved to an old commit by hand hides its branch from the check:
      removing it deletes unpushed work that only the branch still held. */
  lemma DetachedHeadLosesWork() returns (r: Repo, r': Repo, c: Commit)
    ensures WellFormed(r) && Kept(r, c)
    ensures r' == Pass(r, "t", ["e"], Some(0), Mode(false, true), [Probe(Readable, true, true, true, true)]).0
    ensures WellFormed(r') && !Kept(r', c)
  {
    var g: Graph := [{}, {0}];
    var branch := ExecutionBranchName("t", "e");
    assert |branch| > |"main"|;
    r := Repo(g, map["main" := 0, branch := 1], map["pr" := 0], map[Place("t", "e") := Worktree(0, None, false)], "main");
    c := 1;
    assert c in Reach(g, r.branches[branch]);
    var probe := Probe(Readable, true, true, true, true);
    var mode := Mode(false, true);
    assert Ancestor(g, 0, 0);
    r' := CleanOne(r, Place("t", "e"), Some(0), mode, probe).0;
    assert r'.branches == map["main" := 0] && r'.worktrees == map[];
    assert Reach(g, 0) == {0};
    assert Pass(r, "t", [], Some(0), mode, []) == (r, []);
    assert ["e"][..0] == [] && [probe][..0] == [];
    OneShrinks(r, Place("t", "e"), Some(0), mode, probe);
  }

  // ---- Where an attempt starts ----

  datatype Workspace = Workspace(place: Place, branch: string, base: string)
  datatype ForkError = BadId | WrongBranch | BranchInUse | NoSuchRef | NotAdded

  /** `adds` is whether git can create the directory; the branch exists by then and stays. */
  function Fork(r: Repo, place: Place, forkFrom: string, defaultBranch: string, adds: bool): (Repo, Either) {
    var branch := ExecutionBranchName(place.task, place.execution);
    var forkRef := if forkFrom != "" then forkFrom else r.current;
    if !SafeId(place.task) || !SafeId(place.execution) then (r, Err(BadId))
    else if defaultBranch == "" || r.current != defaultBranch then (r, Err(WrongBranch))
    else if branch in r.branches && CheckedOut(r, branch) then (r, Err(BranchInUse))
    else
      var r1 := r.(branches := r.branches - {branch});
      if forkRef !in r1.branches then (r1, Err(NoSuchRef))
      else
        var tip := r1.branches[forkRef];
        var r2 := r1.(branches := r1.branches[branch := tip]);
        if place in r.worktrees || !adds then (r2, Err(NotAdded))
        else (r2.(worktrees := r2.worktrees[place := Worktree(tip, Some(branch), false)]),
              Ok(Workspace(place, branch, r.current)))
  }

  datatype Either = Ok(workspace: Workspace) | Err(error: ForkError)

  /** A fork starts clean at the requested tip, on the default branch's account,
      and disturbs no other worktree and no branch but its own stale one. */
  lemma ForkStartsAtTip(r: Repo, place: Place, forkFrom: string, defaultBranch: string, adds: bool)
    requires WellFormed(r)
    ensures var (r', res) := Fork(r, place, forkFrom, defaultBranch, adds);
            var branch := ExecutionBranchName(place.task, place.execution);
            && WellFormed(r')
            && r'.worktrees - {place} == r.worktrees - {place} && r'.branches - {branch} == r.branches - {branch}
            && (res.Err? ==> r'.worktrees == r.worktrees)
            && (res.Ok? ==>
                  var tip := r.branches[if forkFrom != "" then forkFrom else r.current];
                  && place !in r.worktrees && r'.worktrees[place] == Worktree(tip, Some(branch), false)
                  && res.workspace == Workspace(place, branch, defaultBranch))
  {
    var (r', res) := Fork(r, place, forkFrom, defaultBranch, adds);
    var branch := ExecutionBranchName(place.task, place.execution);
    assert r.branches - {branch} == r'.branches - {branch};
  }

  /** The ids are usable, the checkout is on its default branch, and the branch the
      attempt will take is not checked out anywhere. */
  ghost predicate MayFork(r: Repo, place: Place, defaultBranch: string) {
    var own := ExecutionBranchName(place.task, place.execution);
    && SafeId(place.task) && SafeId(place.execution)
    && defaultBranch != "" && r.current == defaultBranch
    && own != r.current && forall p :: p in r.worktrees ==> r.worktrees[p].branch != Some(own)
  }

  /** A fork succeeds if and only if it may, what it starts from is an existing branch
      other than its own, its place is free and git can add it. Each failure has its
      one reason, the first that applies, and only the last leaves a branch behind. */
  lemma ForkExactly(r: Repo, place: Place, forkFrom: string, defaultBranch: string, adds: bool)
    requires WellFormed(r)
    ensures var (r', res) := Fork(r, place, forkFrom, defaultBranch, adds);
            var own := ExecutionBranchName(place.task, place.execution);
            var from := if forkFrom == "" then r.current else forkFrom;
            var known := from in r.branches && from != own;
            && (res.Ok? <==> MayFork(r, place, defaultBranch) && known && place !in r.worktrees && adds)
            && (res == Err(BadId) <==> !SafeId(place.task) || !SafeId(place.execution))
            && (res == Err(WrongBranch) <==>
                  SafeId(place.task) && SafeId(place.execution) && (defaultBranch == "" || r.current != defaultBranch))
            && (res == Err(BranchInUse) <==>
                  SafeId(place.task) && SafeId(place.execution) && defaultBranch != "" && r.current == defaultBranch &&
                  !MayFork(r, place, defaultBranch))
            && (res == Err(NoSuchRef) <==> MayFork(r, place, defaultBranch) && !known)
            && (res == Err(NotAdded) <==> MayFork(r, place, defaultBranch) && known && (place in r.worktrees || !adds))
            && (res.Ok? || res == Err(NotAdded) ==> own in r'.branches && r'.branches[own] == r.branches[from])
            && (res == Err(NoSuchRef) ==> own !in r'.branches)
            && (res.Err? && res.error in {BadId, WrongBranch, BranchInUse} ==> r' == r)
  {
    var own := ExecutionBranchName(place.task, place.execution);
    if own == r.current || exists p :: p in r.worktrees && r.worktrees[p].branch == Some(own) {
      assert own in r.branches && CheckedOut(r, own);
    }
  }

  /** A task's first execution always gets its workspace: on the default branch, with
      nothing left of the attempt, it starts from there. */
  lemma FirstExecutionForks(r: Repo, place: Place)
    requires WellFormed(r) && SafeId(place.task) && SafeId(place.execution) && r.current != ""
    requires place !in r.worktrees && ExecutionBranchName(place.task, place.execution) !in r.branches
    ensures var (r', res) := Fork(r, place, "", r.current, true);
            && res.Ok? && place in r'.worktrees && r'.worktrees[place].head == r.branches[r.current]
  {
    ForkExactly(r, place, "", r.current, true);
    ForkStartsAtTip(r, place, "", r.current, true);
  }

  /** A failed attempt's leftover branch never blocks the retry that reuses its id. */
  lemma RetryAfterFailedFork(r: Repo, place: Place, forkFrom: string, defaultBranch: string)
    requires WellFormed(r) && place !in r.worktrees
    requires Fork(r, place, forkFrom, defaultBranch, false).1 == Err(NotAdded)
    ensures var r1 := Fork(r, place, forkFrom, defaultBranch, false).0;
            Fork(r1, place, forkFrom, defaultBranch, true) == Fork(r, place, forkFrom, defaultBranch, true)
    ensures Fork(r, place, forkFrom, defaultBranch, true).1.Ok?
  {
    var branch := ExecutionBranchName(place.task, place.execution);
    var r1 := Fork(r, place, forkFrom, defaultBranch, false).0;
    assert r1.branches - {branch} == r.branches - {branch};
  }

  predicate OnBranch(r: Repo, place: Place) {
    place in r.worktrees && r.worktrees[place].branch.Some? && r.worktrees[place].head < |r.graph|
  }

  /** The agent commits in its worktree, HEAD on the attempt's branch. */
  function CommitOnce(r: Repo, place: Place): Repo
    requires OnBranch(r, place)
  {
    var w := r.worktrees[place];
    var next := |r.graph|;
    Repo(Committed(r.graph, w.head), r.branches[w.branch.value := next], r.remote,
         r.worktrees[place := w.(head := next)], r.current)
  }

  function Commits(r: Repo, place: Place, n: nat): Repo
    requires OnBranch(r, place)
    decreases n
  {
    if n == 0 then r else Commits(CommitOnce(r, place), place, n - 1)
  }

  /** What any number of commits keeps, and where it leads. */
  predicate Descends(r: Repo, r': Repo, place: Place)
    requires OnBranch(r, place)
  {
    && OnBranch(r', place) && r.graph <= r'.graph
    && Ancestor(r'.graph, r.worktrees[place].head, r'.worktrees[place].head)
    && r'.worktrees[place].dirty == r.worktrees[place].dirty
    && r'.worktrees - {place} == r.worktrees - {place}
  }

  lemma CommitOnceDescends(r: Repo, place: Place)
    requires OnBranch(r, place)
    ensures Descends(r, CommitOnce(r, place), place)
  {
    CommittedReach(r.graph, r.worktrees[place].head);
    assert CommitOnce(r, place).worktrees - {place} == r.worktrees - {place};
  }

  lemma DescendsFurther(r: Repo, r1: Repo, r2: Repo, place: Place)
    requires OnBranch(r, place) && Descends(r, r1, place) && Descends(r1, r2, place)
    ensures Descends(r, r2, place)
  {
    ReachStable(r1.graph, r2.graph, r1.worktrees[place].head);
    ReachTransitive(r2.graph, r.worktrees[place].head, r1.worktrees[place].head, r2.worktrees[place].head);
  }

  lemma {:induction false} CommitsDescend(r: Repo, place: Place, n: nat)
    requires OnBranch(r, place)
    ensures Descends(r, Commits(r, place, n), place)
    decreases n
  {
    if n > 0 {
      var r1 := CommitOnce(r, place);
      CommitOnceDescends(r, place);
      CommitsDescend(r1, place, n - 1);
      DescendsFurther(r, r1, Commits(r, place, n), place);
    }
  }

  /** A retry forked from its predecessor's branch always descends from where the
      predecessor stopped: attempts made so form a retry chain. */
  lemma RetryDescends(r: Repo, prior: Place, place: Place, defaultBranch: string, n: nat)
    requires WellFormed(r) && prior in r.worktrees && prior != place && !OffItsBranch(r, prior)
    requires Fork(r, place, ExecutionBranchName(prior.task, prior.execution), defaultBranch, true).1.Ok?
    ensures var r1 := Fork(r, place, ExecutionBranchName(prior.task, prior.execution), defaultBranch, true).0;
            && place in r1.worktrees && r1.worktrees[place].branch.Some? && r1.worktrees[place].head < |r1.graph|
            && var r2 := Commits(r1, place, n);
               && prior in r2.worktrees && r2.worktrees[prior] == r.worktrees[prior] && place in r2.worktrees
               && r2.worktrees[place].head < |r2.graph|
               && Ancestor(r2.graph, r.worktrees[prior].head, r2.worktrees[place].head)
  {
    var forkFrom := ExecutionBranchName(prior.task, prior.execution);
    var r1 := Fork(r, place, forkFrom, defaultBranch, true).0;
    ForkStartsAtTip(r, place, forkFrom, defaultBranch, true);
    assert forkFrom[0] == 't';
    CommitsDescend(r1, place, n);
    var r2 := Commits(r1, place, n);
    assert prior in r.worktrees - {place} && prior in r1.worktrees - {place} && prior in r2.worktrees - {place};
  }

  // ---- A merged retry chain cleans up completely ----

  const ANSWERED := Probe(Readable, true, true, true, true)

  predicate AllAnswered(probes: seq<Probe>) {
    forall i :: 0 <= i < |probes| ==> probes[i].(deletes := true) == ANSWERED
  }

  lemma PushedAttemptIsRemoved(r: Repo, place: Place, tip: Commit, p: Probe)
    requires WellFormed(r) && place in r.worktrees && !r.worktrees[place].dirty && p.(deletes := true) == ANSWERED
    requires tip < |r.graph| && Ancestor(r.graph, r.worktrees[place].head, tip)
    ensures CleanOne(r, place, Some(tip), Mode(false, true), p).1.Removed?
  {
  }

  ghost predicate CleanAttempts(r: Repo, task: string, ids: seq<string>, heads: seq<Commit>)
    requires |ids| == |heads|
  {
    forall i :: 0 <= i < |ids| ==>
      Place(task, ids[i]) in r.worktrees && !r.worktrees[Place(task, ids[i])].dirty && r.worktrees[Place(task, ids[i])].head == heads[i]
  }

  /** Every clean attempt of a chain whose last tip was pushed is removed. */
  lemma {:induction false} ChainIsRemoved(r: Repo, task: string, ids: seq<string>, heads: seq<Commit>, tip: Commit, probes: seq<Probe>)
    requires |probes| == |ids| == |heads| && WellFormed(r) && Distinct(ids) && AllAnswered(probes) && CleanAttempts(r, task, ids, heads)
    requires InGraph(r.graph, heads) && tip < |r.graph| && forall i :: 0 <= i < |heads| ==> Ancestor(r.graph, heads[i], tip)
    ensures forall res :: res in Pass(r, task, ids, Some(tip), Mode(false, true), probes).1 ==> res.outcome.Removed?
    decreases |ids|
  {
    if ids != [] {
      var n := |ids| - 1;
      assert CleanAttempts(r, task, ids[..n], heads[..n]);
      ChainIsRemoved(r, task, ids[..n], heads[..n], tip, probes[..n]);
      var r1 := Pass(r, task, ids[..n], Some(tip), Mode(false, true), probes[..n]).0;
      PassShrinks(r, task, ids[..n], Some(tip), Mode(false, true), probes[..n]);
      OthersStay(r, task, ids[..n], Some(tip), Mode(false, true), probes[..n], Place(task, ids[n]));
      PushedAttemptIsRemoved(r1, Place(task, ids[n]), tip, probes[n]);
    }
  }

  /** A pushed retry chain covers every earlier attempt by transitivity. */
  lemma RetryChainIsRemoved(r: Repo, task: string, ids: seq<string>, heads: seq<Commit>, probes: seq<Probe>)
    requires |probes| == |ids| == |heads| && WellFormed(r) && Distinct(ids) && AllAnswered(probes) && CleanAttempts(r, task, ids, heads)
    requires InGraph(r.graph, heads) && RetryChain(r.graph, heads) && heads != []
    ensures forall res :: res in Pass(r, task, ids, Some(heads[|heads| - 1]), Mode(false, true), probes).1 ==> res.outcome.Removed?
  {
    var tip := heads[|heads| - 1];
    forall i | 0 <= i < |heads| ensures Ancestor(r.graph, heads[i], tip) {
      ChainGrows(r.graph, heads, i, |heads| - 1);
      assert heads[i] in Histories(r.graph, heads)[i];
    }
    ChainIsRemoved(r, task, ids, heads, tip, probes);
  }

  /** So a merged task whose last attempt was pushed is cleaned up completely. */
  lemma MergedTaskIsRemoved(r: Repo, task: string, pushed: string, ids: seq<string>, heads: seq<Commit>, probes: seq<Probe>)
    requires |probes| == |ids| == |heads| && WellFormed(r) && Distinct(ids) && AllAnswered(probes) && CleanAttempts(r, task, ids, heads)
    requires InGraph(r.graph, heads) && RetryChain(r.graph, heads) && heads != []
    requires pushed != "" && pushed in r.remote && r.remote[pushed] == heads[|heads| - 1]
    ensures forall res :: res in Cleaned(r, true, task, pushed, ids, Mode(false, true), probes).1 ==> res.outcome.Removed?
  {
    RetryChainIsRemoved(r, task, ids, heads, probes);
  }

  /** And one of whose pushed branch nothing is known loses no worktree unforced. */
  lemma NothingPushedNothingRemoved(r: Repo, resolved: bool, task: string, pushed: string, ids: seq<string>, apply: bool,
                                    probes: seq<Probe>, i: nat)
    requires |probes| == |ids| && WellFormed(r) && i < |ids| && Distinct(ids) && (pushed == "" || pushed !in r.remote)
    ensures var results := Cleaned(r, resolved, task, pushed, ids, Mode(false, apply), probes).1;
            |results| == |ids| && !results[i].outcome.Removed? && !results[i].outcome.WouldRemove?
  {
    if resolved {
      PassOutcomes(r, task, ids, None, Mode(false, apply), probes, i);
    }
  }

  // ---- The routines as the source runs them ----

  class Checkout {
    const graph: Graph
    const remote: map<string, Commit>
    const current: string
    var branches: map<string, Commit>
    var worktrees: map<Place, Worktree>

    ghost function Abs(): Repo
      reads this
    {
      Repo(graph, branches, remote, worktrees, current)
    }

    constructor (r: Repo)
      ensures Abs() == r
    {
      graph, remote, current := r.graph, r.remote, r.current;
      branches, worktrees := r.branches, r.worktrees;
    }

    method DeleteBranch(branch: string, works: bool)
      modifies this`branches
      ensures Abs() == BranchDeleted(old(Abs()), branch, works)
    {
      var r := Repo(graph, branches, remote, worktrees, current);
      if works && !CheckedOut(r, branch) {
        branches := branches - {branch};
      }
    }

    method CleanupOneWorktree(place: Place, tip: Option<Commit>, o: Mode, p: Probe) returns (outcome: Outcome)
      requires WellFormed(Abs())
      modifies this`branches, this`worktrees
      ensures WellFormed(Abs()) && (Abs(), outcome) == CleanOne(old(Abs()), place, tip, o, p)
    {
      OneShrinks(Abs(), place, tip, o, p);
      var branch := ExecutionBranchName(place.task, place.execution);
      if p.stat.Unreadable? || p.stat.NotDirectory? {
        return Failed;
      }
      if place !in worktrees {
        if o.apply {
          DeleteBranch(branch, p.deletes);
        }
        return AlreadyGone;
      }
      if !o.force {
        var w := worktrees[place];
        if !p.dirtyKnown || w.dirty {
          return Skipped;
        }
        if tip.None? || tip.value >= |graph| || !p.ancestryKnown {
          return Skipped;
        }
        if !Ancestor(graph, w.head, tip.value) {
          return Skipped;
        }
      }
      if !o.apply {
        return WouldRemove;
      }
      if !p.removes {
        return Failed;
      }
      worktrees := worktrees - {place};
      DeleteBranch(branch, p.deletes);
      return Removed;
    }

    method CleanupTaskWorktrees(resolved: bool, task: string, pushed: string, ids: seq<string>, o: Mode, probes: seq<Probe>)
      returns (results: seq<Result>)
      requires WellFormed(Abs()) && |probes| == |ids|
      modifies this`branches, this`worktrees
      ensures WellFormed(Abs()) && (Abs(), results) == Cleaned(old(Abs()), resolved, task, pushed, ids, o, probes)
    {
      results := [];
      if !resolved {
        for i := 0 to |ids|
          invariant |results| == i && Abs() == old(Abs())
          invariant forall k :: 0 <= k < i ==> results[k] == Result(ids[k], ExecutionBranchName(task, ids[k]), Failed)
        {
          results := results + [Result(ids[i], ExecutionBranchName(task, ids[i]), Failed)];
        }
        assert results == Cleaned(old(Abs()), resolved, task, pushed, ids, o, probes).1;
        return;
      }
      var tip := None;
      if !o.force && pushed != "" && pushed in remote {
        tip := Some(remote[pushed]);
      }
      for i := 0 to |ids|
        invariant WellFormed(Abs()) && (Abs(), results) == Pass(old(Abs()), task, ids[..i], tip, o, probes[..i])
      {
        assert ids[..i + 1][..i] == ids[..i] && probes[..i + 1][..i] == probes[..i];
        var outcome := CleanupOneWorktree(Place(task, ids[i]), tip, o, probes[i]);
        results := results + [Result(ids[i], ExecutionBranchName(task, ids[i]), outcome)];
      }
      assert ids[..|ids|] == ids && probes[..|probes|] == probes;
    }

    method ResolveExecutionWorkspace(place: Place, forkFrom: string, defaultBranch: string, adds: bool) returns (res: Either)
      requires WellFormed(Abs())
      modifies this`branches, this`worktrees
      ensures WellFormed(Abs()) && (Abs(), res) == Fork(old(Abs()), place, forkFrom, defaultBranch, adds)
    {
      ForkStartsAtTip(Abs(), place, forkFrom, defaultBranch, adds);
      if !SafeId(place.task) || !SafeId(place.execution) {
        return Err(BadId);
      }
      if defaultBranch == "" || current != defaultBranch {
        return Err(WrongBranch);
      }
      var branch := ExecutionBranchName(place.task, place.execution);
      var forkRef := if forkFrom != "" then forkFrom else current;
      if branch in branches {
        if CheckedOut(Repo(graph, branches, remote, worktrees, current), branch) {
          return Err(BranchInUse);
        }
        branches := branches - {branch};
      }
      assert branches == old(branches) - {branch};
      if forkRef !in branches {
        return Err(NoSuchRef);
      }
      branches := branches[branch := branches[forkRef]];
      if place in worktrees || !adds {
        return Err(NotAdded);
      }
      worktrees := worktrees[place := Worktree(branches[branch], Some(branch), false)];
      return Ok(Workspace(place, branch, current));
    }
  }
}
