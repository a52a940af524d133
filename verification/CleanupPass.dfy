/**
 Cleaning up a merged task (runCleanupPass, internal/api/pr.go): one pass over
 every recorded execution, a persisted report, and completion only when nothing
 is left.
 */
module CleanupPass {
  import opened Options
  import opened Worktrees
  import L = Lifecycle

  datatype Merged = Merged(stage: L.Stage, name: string, ids: seq<string>, pullRequest: Option<string>, report: seq<Result>)

  /** How the world answers one pass: the shared checkout, the store's three calls, each attempt. */
  datatype Answers = Answers(resolved: bool, lists: bool, saves: bool, completes: bool, probes: map<string, Probe>)

  function ProbesFor(ids: seq<string>, a: Answers): (ps: seq<Probe>)
    ensures |ps| == |ids|
  {
    seq(|ids|, i requires 0 <= i < |ids| => if ids[i] in a.probes then a.probes[ids[i]] else ANSWERED)
  }

  predicate Gone(o: Outcome) {
    o.Removed? || o.AlreadyGone?
  }

  predicate AllGone(results: seq<Result>) {
    forall i :: 0 <= i < |results| ==> Gone(results[i].outcome)
  }

  function PushedBranch(t: Merged): string {
    if t.pullRequest.Some? then t.pullRequest.value else ""
  }

  function Swept(r: Repo, t: Merged, force: bool, a: Answers): (Repo, Merged) {
    if !a.lists then (r, t) else
    var (r', results) := Cleaned(r, a.resolved, t.name, PushedBranch(t), t.ids, Mode(force, true), ProbesFor(t.ids, a));
    if !a.saves then (r', t)
    else if AllGone(results) && a.completes && t.stage.Cleanup? then (r', t.(report := results, stage := L.Completed))
    else (r', t.(report := results))
  }

  method RunCleanupPass(c: Checkout, t: Merged, force: bool, a: Answers) returns (t': Merged)
    requires WellFormed(c.Abs())
    modifies c`branches, c`worktrees
    ensures WellFormed(c.Abs()) && (c.Abs(), t') == Swept(old(c.Abs()), t, force, a)
  {
    t' := t;
    if !a.lists {
      return;
    }
    var results := c.CleanupTaskWorktrees(a.resolved, t.name, PushedBranch(t), t.ids, Mode(force, true), ProbesFor(t.ids, a));
    var status: seq<Result> := [];
    var allClean := true;
    ghost var cleaned := c.Abs();
    NeverWouldRemove(old(c.Abs()), t, force, a);
    for i := 0 to |results|
      invariant c.Abs() == cleaned
      invariant status == results[..i] && (allClean <==> AllGone(results[..i]))
    {
      status := status + [results[i]];
      match results[i].outcome {
        case Skipped => allClean := false;
        case Failed => allClean := false;
        case _ =>
      }
      assert results[..i + 1] == results[..i] + [results[i]];
    }
    assert results[..|results|] == results;
    if !a.saves {
      return;
    }
    t' := t.(report := status);
    if allClean && a.completes && t.stage.Cleanup? {
      t' := t'.(stage := L.Completed);
    }
  }

  lemma {:induction false} NeverWouldRemoveIn(r: Repo, task: string, ids: seq<string>, tip: Option<nat>, force: bool,
                                              probes: seq<Probe>, i: nat)
    requires |probes| == |ids| && i < |ids|
    ensures var results := Pass(r, task, ids, tip, Mode(force, true), probes).1;
            |results| == |ids| && !results[i].outcome.WouldRemove?
  {
    var n := |ids| - 1;
    PassReportsEach(r, task, ids, tip, Mode(force, true), probes);
    PassReportsEach(r, task, ids[..n], tip, Mode(force, true), probes[..n]);
    if i < n {
      NeverWouldRemoveIn(r, task, ids[..n], tip, force, probes[..n], i);
    }
  }

  lemma NeverWouldRemove(r: Repo, t: Merged, force: bool, a: Answers)
    ensures var results := Cleaned(r, a.resolved, t.name, PushedBranch(t), t.ids, Mode(force, true), ProbesFor(t.ids, a)).1;
            |results| == |t.ids| && forall i :: 0 <= i < |results| ==> !results[i].outcome.WouldRemove?
  {
    var tip := PushedTip(r, PushedBranch(t), Mode(force, true));
    PassReportsEach(r, t.name, t.ids, tip, Mode(force, true), ProbesFor(t.ids, a));
    forall i | 0 <= i < |t.ids| && a.resolved
      ensures !Pass(r, t.name, t.ids, tip, Mode(force, true), ProbesFor(t.ids, a)).1[i].outcome.WouldRemove?
    {
      NeverWouldRemoveIn(r, t.name, t.ids, tip, force, ProbesFor(t.ids, a), i);
    }
  }

  /** Every recorded attempt's worktree is gone. */
  predicate NothingLeft(r: Repo, t: Merged) {
    forall i :: 0 <= i < |t.ids| ==> Place(t.name, t.ids[i]) !in r.worktrees
  }

  /** A pass moves a task on exactly when it found or made every attempt's worktree
      gone, and could write that down. */
  lemma CompletesExactlyWhenClean(r: Repo, t: Merged, force: bool, a: Answers)
    requires WellFormed(r) && t.stage.Cleanup?
    ensures var (r', t') := Swept(r, t, force, a);
            && (t'.stage.Completed? ==> a.lists && a.saves && a.completes && NothingLeft(r', t'))
            && (t'.stage.Completed? || t'.stage.Cleanup?)
            && (t'.stage.Completed? <==>
                  && a.lists && a.saves && a.completes
                  && AllGone(Cleaned(r, a.resolved, t.name, PushedBranch(t), t.ids, Mode(force, true), ProbesFor(t.ids, a)).1))
            && (t'.report != t.report ==> |t'.report| == |t.ids| && forall i :: 0 <= i < |t.ids| ==> t'.report[i].execution == t.ids[i])
  {
    var o, probes := Mode(force, true), ProbesFor(t.ids, a);
    var tip := PushedTip(r, PushedBranch(t), o);
    PassReportsEach(r, t.name, t.ids, tip, o, probes);
    forall i | 0 <= i < |t.ids| && a.resolved
      ensures var (r', results) := Pass(r, t.name, t.ids, tip, o, probes);
              Gone(results[i].outcome) ==> Place(t.name, t.ids[i]) !in r'.worktrees
    {
      CleanOutcomeMeansGone(r, t.name, t.ids, tip, o, probes, i);
    }
    if !a.resolved && t.ids != [] {
      assert Cleaned(r, a.resolved, t.name, PushedBranch(t), t.ids, o, probes).1[0].outcome == Failed;
    }
  }

  /** A pass writes down its own results if it can, and nothing else; its only say over the
      task's stage is the store's own completion of cleanup. */
  lemma SweepCompletesCleanup(r: Repo, t: Merged, force: bool, a: Answers, task: L.Task)
    requires task.stage == t.stage
    ensures var clean := AllGone(Cleaned(r, a.resolved, t.name, PushedBranch(t), t.ids, Mode(force, true), ProbesFor(t.ids, a)).1);
            Swept(r, t, force, a).1.stage ==
            if a.lists && a.saves && clean && a.completes then L.Next(task, L.CompleteCleanup).stage else task.stage
    ensures var results := Cleaned(r, a.resolved, t.name, PushedBranch(t), t.ids, Mode(force, true), ProbesFor(t.ids, a)).1;
            Swept(r, t, force, a).1 ==
            t.(stage := Swept(r, t, force, a).1.stage, report := if a.lists && a.saves then results else t.report)
  {
  }

  // ---- Passes that overlap each other and attempts still under way ----

  type PassId = nat
  datatype Pc = Cleaning | Completing | Ended

  /** A pass under way: what it listed, the tip it compares with, its results so far. */
  datatype Running = Running(force: bool, resolved: bool, ids: seq<string>, tip: Option<nat>, results: seq<Result>, pc: Pc)

  /** `settled` are the places no attempt will fork at any more, `listed` the attempts
      the pass that completed the task had listed. */
  datatype State = State(repo: Repo, task: Merged, passes: map<PassId, Running>, settled: set<Place>, listed: seq<string>)

  datatype Action =
    | Begin(p: PassId, force: bool, resolved: bool)
    | Clean(p: PassId, probe: Probe)
    | Save(p: PassId, works: bool)
    | Complete(p: PassId, works: bool)
    | ForkAttempt(place: Place, forkFrom: string, defaultBranch: string, adds: bool)
    | Record(id: string, at: nat)
    | ByHand(place: Place)

  predicate Enabled(s: State, a: Action) {
    match a
    case Begin(p, _, _) => p !in s.passes
    case Clean(p, _) => p in s.passes && s.passes[p].pc.Cleaning? && |s.passes[p].results| < |s.passes[p].ids|
    case Save(p, _) => p in s.passes && s.passes[p].pc.Cleaning? && |s.passes[p].results| == |s.passes[p].ids|
    case Complete(p, _) => p in s.passes && s.passes[p].pc.Completing?
    case ForkAttempt(place, _, _, _) => place !in s.settled
    case Record(id, at) => id !in s.task.ids && at <= |s.task.ids|
    case ByHand(_) => true
  }

  function Cleaned1(s: State, run: Running, probe: Probe): (Repo, Running)
    requires |run.results| < |run.ids|
  {
    var id := run.ids[|run.results|];
    var (repo, outcome) :=
      if run.resolved then CleanOne(s.repo, Place(s.task.name, id), run.tip, Mode(run.force, true), probe) else (s.repo, Failed);
    (repo, run.(results := run.results + [Result(id, ExecutionBranchName(s.task.name, id), outcome)]))
  }

  function Next(s: State, a: Action): State {
    if !Enabled(s, a) then s else
    match a
    case Begin(p, force, resolved) =>
      var tip := PushedTip(s.repo, PushedBranch(s.task), Mode(force, true));
      s.(passes := s.passes[p := Running(force, resolved, s.task.ids, tip, [], Cleaning)])
    case Clean(p, probe) =>
      var (repo, run) := Cleaned1(s, s.passes[p], probe);
      s.(repo := repo, passes := s.passes[p := run])
    case Save(p, works) =>
      var run := s.passes[p];
      s.(passes := s.passes[p := run.(pc := if works && AllGone(run.results) then Completing else Ended)],
         task := if works then s.task.(report := run.results) else s.task)
    case Complete(p, works) =>
      var done := s.(passes := s.passes[p := s.passes[p].(pc := Ended)]);
      if works && s.task.stage.Cleanup? then done.(task := s.task.(stage := L.Completed), listed := s.passes[p].ids) else done
    case ForkAttempt(place, forkFrom, defaultBranch, adds) =>
      s.(repo := Fork(s.repo, place, forkFrom, defaultBranch, adds).0, settled := s.settled + {place})
    case Record(id, at) =>
      s.(task := s.task.(ids := s.task.ids[..at] + [id] + s.task.ids[at..]), settled := s.settled + {Place(s.task.name, id)})
    case ByHand(place) => s.(repo := s.repo.(worktrees := s.repo.worktrees - {place}))
  }

  function Start(r: Repo, t: Merged): State {
    State(r, t, map[], r.worktrees.Keys + set id | id in t.ids :: Place(t.name, id), [])
  }

  function After(s: State, actions: seq<Action>): State {
    if actions == [] then s else Next(After(s, actions[..|actions| - 1]), actions[|actions| - 1])
  }

  // ---- A pass nothing interferes with ----

  /** Its steps, one after the other. */
  function Cleanings(p: PassId, probes: seq<Probe>): seq<Action> {
    seq(|probes|, i requires 0 <= i < |probes| => Clean(p, probes[i]))
  }

  lemma AfterAppend(s: State, actions: seq<Action>, a: Action)
    ensures After(s, actions + [a]) == Next(After(s, actions), a)
  {
    assert (actions + [a])[..|actions|] == actions;
  }

  function PassSoFar(s: State, run: Running, probes: seq<Probe>): (Repo, seq<Result>)
    requires |probes| <= |run.ids|
  {
    var ids := run.ids[..|probes|];
    if run.resolved then Pass(s.repo, s.task.name, ids, run.tip, Mode(run.force, true), probes)
    else (s.repo, seq(|ids|, i requires 0 <= i < |ids| => Result(ids[i], ExecutionBranchName(s.task.name, ids[i]), Failed)))
  }

  lemma PassSoFarSnoc(s: State, run: Running, rest: seq<Probe>, probe: Probe)
    requires |rest| < |run.ids| && |PassSoFar(s, run, rest).1| == |rest|
    ensures var (repo, results) := PassSoFar(s, run, rest);
            var (repo', run') := Cleaned1(s.(repo := repo), run.(results := results), probe);
            PassSoFar(s, run, rest + [probe]) == (repo', run'.results)
  {
    var probes, n := rest + [probe], |rest|;
    var ids := run.ids[..|probes|];
    assert ids[..n] == run.ids[..n] && ids[n] == run.ids[n] && probes[..n] == rest;
    if !run.resolved {
      assert PassSoFar(s, run, probes).1 == PassSoFar(s, run, rest).1 + [Result(ids[n], ExecutionBranchName(s.task.name, ids[n]), Failed)];
    }
  }

  /** A state but for how far one pass has come. */
  function At(s: State, p: PassId, repo: Repo, run: Running): State {
    s.(repo := repo, passes := s.passes[p := run])
  }

  lemma CleanStep(s: State, p: PassId, repo: Repo, run: Running, probe: Probe)
    requires run.pc.Cleaning? && |run.results| < |run.ids|
    ensures var (repo', run') := Cleaned1(s.(repo := repo), run, probe);
            Next(At(s, p, repo, run), Clean(p, probe)) == At(s, p, repo', run')
  {
    var s1 := At(s, p, repo, run);
    assert Cleaned1(s1, run, probe) == Cleaned1(s.(repo := repo), run, probe);
    assert s1.passes[p := Cleaned1(s1, run, probe).1] == s.passes[p := Cleaned1(s1, run, probe).1];
  }

  lemma {:induction false} CleansInTurn(s: State, p: PassId, probes: seq<Probe>)
    requires p in s.passes && s.passes[p].pc.Cleaning? && s.passes[p].results == [] && |probes| <= |s.passes[p].ids|
    ensures var (repo, results) := PassSoFar(s, s.passes[p], probes);
            |results| == |probes| && After(s, Cleanings(p, probes)) == At(s, p, repo, s.passes[p].(results := results))
  {
    var run := s.passes[p];
    if probes == [] {
      assert s.passes == s.passes[p := run] && run.ids[..0] == [];
    } else {
      var rest, probe := probes[..|probes| - 1], probes[|probes| - 1];
      CleansInTurn(s, p, rest);
      var (repo, results) := PassSoFar(s, run, rest);
      assert Cleanings(p, probes) == Cleanings(p, rest) + [Clean(p, probe)] && probes == rest + [probe];
      AfterAppend(s, Cleanings(p, rest), Clean(p, probe));
      CleanStep(s, p, repo, run.(results := results), probe);
      PassSoFarSnoc(s, run, rest, probe);
    }
  }

  /** Left alone, a pass does step by step what the handler's routine does as a whole. */
  lemma UndisturbedPassIsSwept(s: State, p: PassId, force: bool, a: Answers)
    requires p !in s.passes && a.lists
    ensures var s1 := After(s, [Begin(p, force, a.resolved)]);
            var s2 := After(s1, Cleanings(p, ProbesFor(s.task.ids, a)));
            var s3 := Next(Next(s2, Save(p, a.saves)), Complete(p, a.completes));
            (s3.repo, s3.task) == Swept(s.repo, s.task, force, a)
  {
    var begin := Begin(p, force, a.resolved);
    AfterAppend(s, [], begin);
    assert [] + [begin] == [begin];
    var s1 := Next(s, begin);
    var probes := ProbesFor(s.task.ids, a);
    CleansInTurn(s1, p, probes);
    assert s.task.ids[..|probes|] == s.task.ids;
  }

  // ---- What overlapping passes guarantee ----

  /** What a pass has found or made gone stays gone, whatever runs beside it. */
  ghost predicate Holds(s: State, run: Running) {
    && |run.results| <= |run.ids|
    && (forall i :: 0 <= i < |run.ids| ==> Place(s.task.name, run.ids[i]) in s.settled)
    && (forall i :: 0 <= i < |run.results| ==>
          Gone(run.results[i].outcome) ==> Place(s.task.name, run.ids[i]) !in s.repo.worktrees)
    && (run.pc.Completing? ==> |run.results| == |run.ids| && AllGone(run.results))
  }

  ghost predicate Settled(s: State) {
    && s.repo.worktrees.Keys <= s.settled
    && (forall i :: 0 <= i < |s.task.ids| ==> Place(s.task.name, s.task.ids[i]) in s.settled)
    && (forall i :: 0 <= i < |s.listed| ==>
          Place(s.task.name, s.listed[i]) in s.settled && Place(s.task.name, s.listed[i]) !in s.repo.worktrees)
  }

  ghost predicate Inv(s: State) {
    WellFormed(s.repo) && Settled(s) && forall p :: p in s.passes ==> Holds(s, s.passes[p])
  }

  /** Settled places only lose their worktrees. */
  ghost predicate Onward(s: State, s': State) {
    && s'.task.name == s.task.name && s.settled <= s'.settled
    && (forall q :: q in s.settled && q in s'.repo.worktrees ==> q in s.repo.worktrees)
  }

  lemma HoldsOnward(s: State, s': State, run: Running)
    requires Holds(s, run) && Onward(s, s')
    ensures Holds(s', run)
  {
  }

  lemma NextOnward(s: State, a: Action)
    requires WellFormed(s.repo)
    ensures WellFormed(Next(s, a).repo) && Onward(s, Next(s, a))
    ensures !a.ForkAttempt? ==> Next(s, a).repo.worktrees.Keys <= s.repo.worktrees.Keys
    ensures a.ForkAttempt? ==> Next(s, a).repo.worktrees.Keys <= s.repo.worktrees.Keys + {a.place}
  {
    if Enabled(s, a) {
      match a
      case Clean(p, probe) =>
        var run := s.passes[p];
        OneShrinks(s.repo, Place(s.task.name, run.ids[|run.results|]), run.tip, Mode(run.force, true), probe);
      case ForkAttempt(place, forkFrom, defaultBranch, adds) =>
        var r' := Fork(s.repo, place, forkFrom, defaultBranch, adds).0;
        ForkStartsAtTip(s.repo, place, forkFrom, defaultBranch, adds);
        assert forall q :: q in r'.worktrees && q != place ==> q in r'.worktrees - {place};
      case _ =>
    }
  }

  lemma RecordedSettled(s: State, a: Action)
    requires Settled(s) && a.Record? && Enabled(s, a)
    ensures Settled(Next(s, a))
  {
    var ids, ids' := s.task.ids, Next(s, a).task.ids;
    forall i | 0 <= i < |ids'| ensures Place(s.task.name, ids'[i]) in Next(s, a).settled {
      assert ids'[i] == if i < a.at then ids[i] else if i == a.at then a.id else ids[i - 1];
    }
  }

  lemma NextSettled(s: State, a: Action)
    requires Inv(s)
    ensures Settled(Next(s, a))
  {
    NextOnward(s, a);
    if Enabled(s, a) {
      match a
      case Record(_, _) => RecordedSettled(s, a);
      case Complete(p, _) => assert Holds(s, s.passes[p]);
      case _ =>
    }
  }

  lemma CleanHolds(s: State, a: Action)
    requires Inv(s) && a.Clean? && Enabled(s, a)
    ensures Holds(Next(s, a), Next(s, a).passes[a.p])
  {
    var run, s' := s.passes[a.p], Next(s, a);
    var n := |run.results|;
    assert Holds(s, run);
    NextOnward(s, a);
    HoldsOnward(s, s', run);
    if run.resolved {
      OneShrinks(s.repo, Place(s.task.name, run.ids[n]), run.tip, Mode(run.force, true), a.probe);
    }
  }

  lemma NextHolds(s: State, a: Action, p: PassId)
    requires Inv(s) && p in Next(s, a).passes
    ensures Holds(Next(s, a), Next(s, a).passes[p])
  {
    NextOnward(s, a);
    if p in s.passes {
      assert Holds(s, s.passes[p]);
      HoldsOnward(s, Next(s, a), s.passes[p]);
    }
    if Enabled(s, a) && a.Clean? && a.p == p {
      CleanHolds(s, a);
    }
  }

  lemma NextKeepsInv(s: State, a: Action)
    requires Inv(s)
    ensures Inv(Next(s, a))
  {
    NextOnward(s, a);
    NextSettled(s, a);
    forall p | p in Next(s, a).passes ensures Holds(Next(s, a), Next(s, a).passes[p]) { NextHolds(s, a, p); }
  }

  lemma {:induction false} AlwaysInv(r: Repo, t: Merged, actions: seq<Action>)
    requires WellFormed(r)
    ensures Inv(After(Start(r, t), actions))
  {
    if actions != [] {
      AlwaysInv(r, t, actions[..|actions| - 1]);
      NextKeepsInv(After(Start(r, t), actions[..|actions| - 1]), actions[|actions| - 1]);
    }
  }

  /** A task is past cleanup with a recorded attempt's worktree still there. */
  predicate LeftBehind(s: State) {
    s.task.stage.Completed? && !NothingLeft(s.repo, s.task)
  }

  /** A pass completes the task although an attempt recorded since it listed them still
      has its worktree, or such an attempt is recorded once the task is completed. */
  predicate Misses(s: State, a: Action) {
    && Enabled(s, a)
    && match a
       case Complete(p, works) =>
         && works && s.task.stage.Cleanup?
         && exists i :: 0 <= i < |s.task.ids| && s.task.ids[i] !in s.passes[p].ids && Place(s.task.name, s.task.ids[i]) in s.repo.worktrees
       case Record(id, _) => s.task.stage.Completed? && Place(s.task.name, id) in s.repo.worktrees
       case _ => false
  }

  lemma ListedIsGone(s: State, p: PassId, id: string)
    requires Inv(s) && p in s.passes && s.passes[p].pc.Completing? && id in s.passes[p].ids
    ensures Place(s.task.name, id) !in s.repo.worktrees
  {
    var run := s.passes[p];
    assert Holds(s, run);
    var i :| 0 <= i < |run.ids| && run.ids[i] == id;
    assert Gone(run.results[i].outcome);
  }

  lemma CompletionMisses(s: State, a: Action)
    requires Inv(s) && a.Complete? && Enabled(s, a) && !s.task.stage.Completed?
    ensures LeftBehind(Next(s, a)) <==> Misses(s, a)
  {
    forall i | 0 <= i < |s.task.ids| && s.task.ids[i] in s.passes[a.p].ids
      ensures Place(s.task.name, s.task.ids[i]) !in s.repo.worktrees
    {
      ListedIsGone(s, a.p, s.task.ids[i]);
    }
  }

  lemma RecordMisses(s: State, a: Action)
    requires a.Record? && Enabled(s, a) && !LeftBehind(s)
    ensures LeftBehind(Next(s, a)) <==> Misses(s, a)
  {
    var ids, ids' := s.task.ids, Next(s, a).task.ids;
    assert forall i :: 0 <= i < |ids'| ==> ids'[i] == if i < a.at then ids[i] else if i == a.at then a.id else ids[i - 1];
    assert ids'[a.at] == a.id;
  }

  /** Whatever overlaps, that step alone leaves one behind. */
  lemma LeftBehindExactly(s: State, a: Action)
    requires Inv(s) && !LeftBehind(s)
    ensures LeftBehind(Next(s, a)) <==> Misses(s, a)
  {
    NextOnward(s, a);
    if Enabled(s, a) {
      match a
      case Complete(_, _) =>
        if !s.task.stage.Completed? {
          CompletionMisses(s, a);
        }
      case Record(_, _) => RecordMisses(s, a);
      case ForkAttempt(place, _, _, _) => assert forall i :: 0 <= i < |s.task.ids| ==> Place(s.task.name, s.task.ids[i]) in s.settled;
      case _ =>
    }
  }

  predicate NeverLeftBehind(s: State, actions: seq<Action>) {
    forall n :: 0 <= n <= |actions| ==> !LeftBehind(After(s, actions[..n]))
  }

  predicate NeverMisses(s: State, actions: seq<Action>) {
    forall n :: 0 <= n < |actions| ==> !Misses(After(s, actions[..n]), actions[n])
  }

  lemma AfterStep(s: State, actions: seq<Action>, n: nat)
    requires n < |actions|
    ensures After(s, actions[..n + 1]) == Next(After(s, actions[..n]), actions[n])
  {
    assert actions[..n + 1][..n] == actions[..n];
  }

  lemma {:induction false} NoneBehindUpTo(r: Repo, t: Merged, actions: seq<Action>, n: nat)
    requires WellFormed(r) && !t.stage.Completed? && NeverMisses(Start(r, t), actions) && n <= |actions|
    ensures !LeftBehind(After(Start(r, t), actions[..n]))
  {
    if n > 0 {
      NoneBehindUpTo(r, t, actions, n - 1);
      AlwaysInv(r, t, actions[..n - 1]);
      AfterStep(Start(r, t), actions, n - 1);
      LeftBehindExactly(After(Start(r, t), actions[..n - 1]), actions[n - 1]);
    }
  }

  /** Over every run of overlapping passes, forced or not, attempts still forking and
      being recorded, and removals by hand: a task past cleanup never has a recorded
      worktree left if and only if no completion and no record misses one. */
  lemma CompletedMeansNothingLeft(r: Repo, t: Merged, actions: seq<Action>)
    requires WellFormed(r) && !t.stage.Completed?
    ensures NeverLeftBehind(Start(r, t), actions) <==> NeverMisses(Start(r, t), actions)
  {
    var s := Start(r, t);
    if NeverMisses(s, actions) {
      forall n | 0 <= n <= |actions| ensures !LeftBehind(After(s, actions[..n])) { NoneBehindUpTo(r, t, actions, n); }
    }
    if NeverLeftBehind(s, actions) {
      forall n | 0 <= n < |actions| ensures !Misses(After(s, actions[..n]), actions[n]) {
        assert !LeftBehind(After(s, actions[..n])) && !LeftBehind(After(s, actions[..n + 1]));
        AlwaysInv(r, t, actions[..n]);
        AfterStep(s, actions, n);
        LeftBehindExactly(After(s, actions[..n]), actions[n]);
      }
    }
  }

  /** One step of any pass does to the task's stage what the store's completion of
      cleanup does, or nothing. */
  lemma StageMovesAsTheTask(s: State, a: Action, task: L.Task)
    requires task.stage == s.task.stage
    ensures Next(s, a).task.stage ==
            if a.Complete? && Enabled(s, a) && a.works then L.Next(task, L.CompleteCleanup).stage else task.stage
  {
  }

  /** This step is a pass ending clean, everything it listed being gone, at cleanup. */
  ghost predicate EndsClean(s: State, a: Action) {
    && a.Complete? && a.works && a.p in s.passes && s.passes[a.p].pc.Completing? && s.task.stage.Cleanup?
    && var run := s.passes[a.p];
       && |run.results| == |run.ids| && AllGone(run.results)
       && forall i :: 0 <= i < |run.ids| ==> Place(s.task.name, run.ids[i]) !in s.repo.worktrees
  }

  lemma CompletionEndsClean(s: State, a: Action)
    requires Inv(s) && !s.task.stage.Completed?
    ensures Next(s, a).task.stage.Completed? <==> EndsClean(s, a)
  {
    if a.Complete? && a.p in s.passes && s.passes[a.p].pc.Completing? {
      var run := s.passes[a.p];
      assert Holds(s, run);
      forall i | 0 <= i < |run.ids| ensures Place(s.task.name, run.ids[i]) !in s.repo.worktrees { assert Gone(run.results[i].outcome); }
    }
  }

  ghost predicate EndsCleanAt(s: State, actions: seq<Action>, k: nat) {
    k < |actions| && EndsClean(After(s, actions[..k]), actions[k])
  }

  predicate DoneBy(s: State, actions: seq<Action>, n: nat) {
    n <= |actions| && After(s, actions[..n]).task.stage.Completed?
  }

  lemma DoneStep(r: Repo, t: Merged, actions: seq<Action>, n: nat)
    requires WellFormed(r) && n < |actions|
    ensures var s := Start(r, t);
            && (DoneBy(s, actions, n) ==> DoneBy(s, actions, n + 1))
            && (!DoneBy(s, actions, n) ==> (DoneBy(s, actions, n + 1) <==> EndsCleanAt(s, actions, n)))
            && (!DoneBy(s, actions, n + 1) ==> After(s, actions[..n + 1]).task.stage == After(s, actions[..n]).task.stage)
  {
    var s := Start(r, t);
    AlwaysInv(r, t, actions[..n]);
    AfterStep(s, actions, n);
    if !DoneBy(s, actions, n) {
      CompletionEndsClean(After(s, actions[..n]), actions[n]);
    }
  }

  lemma {:induction false} DoneUpTo(r: Repo, t: Merged, actions: seq<Action>, n: nat)
    requires WellFormed(r) && !t.stage.Completed? && n <= |actions|
    ensures DoneBy(Start(r, t), actions, n) ==> exists k: nat :: k < n && EndsCleanAt(Start(r, t), actions, k)
    ensures forall k: nat :: k < n && EndsCleanAt(Start(r, t), actions, k) ==> DoneBy(Start(r, t), actions, n)
    ensures !DoneBy(Start(r, t), actions, n) ==> After(Start(r, t), actions[..n]).task.stage == t.stage
  {
    if n == 0 {
      assert actions[..0] == [];
    } else {
      DoneUpTo(r, t, actions, n - 1);
      DoneStep(r, t, actions, n - 1);
    }
  }

  /** Over every run of overlapping passes: a task parked at cleanup leaves it, for
      completed, if and only if some pass ends clean. */
  lemma CompletedByPass(r: Repo, t: Merged, actions: seq<Action>)
    requires WellFormed(r) && !t.stage.Completed?
    ensures var s := After(Start(r, t), actions);
            && (s.task.stage.Completed? <==> exists k: nat :: EndsCleanAt(Start(r, t), actions, k))
            && (s.task.stage.Completed? || s.task.stage == t.stage)
  {
    assert actions[..|actions|] == actions;
    DoneUpTo(r, t, actions, |actions|);
  }

  /** The report is one whole pass's, for all it listed, or what it was at the start. */
  ghost predicate Reported(s: State, first: seq<Result>) {
    s.task.report == first ||
    exists p :: p in s.passes && !s.passes[p].pc.Cleaning? && s.passes[p].results == s.task.report
                && |s.passes[p].results| == |s.passes[p].ids|
  }

  lemma NextReported(s: State, a: Action, first: seq<Result>)
    requires Reported(s, first)
    ensures Reported(Next(s, a), first)
  {
    var s' := Next(s, a);
    if a.Save? && Enabled(s, a) && a.works {
      assert a.p in s'.passes && s'.passes[a.p].results == s'.task.report;
    } else if s.task.report != first {
      var p :| p in s.passes && !s.passes[p].pc.Cleaning? && s.passes[p].results == s.task.report
               && |s.passes[p].results| == |s.passes[p].ids|;
      assert p in s'.passes && s'.passes[p].results == s'.task.report;
    }
  }

  /** Passes may overlap, but their reports never mix. */
  lemma {:induction false} ReportsNeverMix(r: Repo, t: Merged, actions: seq<Action>)
    ensures Reported(After(Start(r, t), actions), t.report)
  {
    if actions != [] {
      ReportsNeverMix(r, t, actions[..|actions| - 1]);
      NextReported(After(Start(r, t), actions[..|actions| - 1]), actions[|actions| - 1], t.report);
    }
  }

  /** Without such an attempt, passes may overlap as they like. */
  lemma {:induction false} PassesMayOverlap(r: Repo, t: Merged, actions: seq<Action>)
    requires WellFormed(r) && !t.stage.Completed? && forall a :: a in actions ==> !a.Record?
    ensures var s := After(Start(r, t), actions);
            && s.task.ids == t.ids && !LeftBehind(s)
            && (forall p :: p in s.passes ==> s.passes[p].ids == t.ids)
            && ((forall a :: a in actions ==> !a.ForkAttempt?) ==> s.repo.worktrees.Keys <= r.worktrees.Keys)
  {
    if actions != [] {
      var rest, a := actions[..|actions| - 1], actions[|actions| - 1];
      assert a in actions && forall x :: x in rest ==> x in actions;
      PassesMayOverlap(r, t, rest);
      AlwaysInv(r, t, rest);
      LeftBehindExactly(After(Start(r, t), rest), a);
      NextOnward(After(Start(r, t), rest), a);
    }
  }

  /** An attempt begun beside the one that was merged, still under way at cleanup: no
      pass lists it, so the task completes and its worktree is left for good. */
  lemma LateRecordIsLeftBehind(r: Repo, t: Merged, merged: string, late: string) returns (actions: seq<Action>)
    requires t.stage.Cleanup? && t.ids == [merged] && late != merged
    requires Place(t.name, merged) !in r.worktrees && Place(t.name, late) in r.worktrees
    ensures LeftBehind(After(Start(r, t), actions))
  {
    var s := Start(r, t);
    var a, b, c, d, e := Begin(0, false, true), Clean(0, ANSWERED), Save(0, true), Complete(0, true), Record(late, 1);
    AfterAppend(s, [], a);
    AfterAppend(s, [] + [a], b);
    AfterAppend(s, [] + [a] + [b], c);
    AfterAppend(s, [] + [a] + [b] + [c], d);
    AfterAppend(s, [] + [a] + [b] + [c] + [d], e);
    actions := [] + [a] + [b] + [c] + [d] + [e];
    var s2 := Next(Next(s, a), b);
    assert s2.passes[0].results == [Result(merged, ExecutionBranchName(t.name, merged), AlreadyGone)] && s2.repo.worktrees == r.worktrees;
    assert After(s, actions).task.ids == [merged, late] && After(s, actions).task.ids[1] == late;
  }
}
