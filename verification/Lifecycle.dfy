/**
 One task's stage machine with its recorded executions and reviews
 (internal/task/lifecycle.go, execution.go and the handlers in internal/api that
 drive them). An execution attempt begins in one request and is recorded later.
 */
module Lifecycle {
  import opened Options

  type Request = nat
  datatype Stage = Requirements | Planning | Implementation | Review | PRReview | Cleanup | Completed
  datatype Decision = Approved | NeedsChanges | Rejected

  /** `branch` is empty when the attempt's workspace never resolved. */
  datatype Execution = Execution(id: nat, success: bool, branch: string, forkedFrom: string, commits: nat, message: string)
  /** `execution` is 0 when none was recorded at the time. */
  datatype Verdict = Verdict(execution: nat, decision: Decision, notes: string)

  /** An attempt under way: its reserved id and what it starts from. */
  datatype Flight = Flight(id: nat, forkFrom: string, feedback: string, priorFailure: string)

  /** `executions` is in listing order, ascending by id; `logged` is the highest id
      an execution log was ever created for. */
  datatype Task = Task(
    stage: Stage, executions: seq<Execution>, reviews: seq<Verdict>, pullRequest: Option<string>,
    flights: map<Request, Flight>, logged: nat)

  const NEW_TASK := Task(Requirements, [], [], None, map[], 0)

  // ---- Recorded executions ----

  /** Listing sorts by id, so recording inserts in place. */
  function Inserted(es: seq<Execution>, e: Execution): seq<Execution> {
    if es == [] || es[|es| - 1].id < e.id then es + [e]
    else Inserted(es[..|es| - 1], e) + [es[|es| - 1]]
  }

  predicate Ascending(es: seq<Execution>) {
    forall i, j :: 0 <= i < j < |es| ==> es[i].id < es[j].id
  }

  predicate Recorded(es: seq<Execution>, id: nat) {
    exists i :: 0 <= i < |es| && es[i].id == id
  }

  lemma {:induction false} InsertedMembers(es: seq<Execution>, e: Execution)
    ensures |Inserted(es, e)| == |es| + 1
    ensures forall x :: x in Inserted(es, e) <==> x == e || x in es
  {
    if !(es == [] || es[|es| - 1].id < e.id) {
      InsertedMembers(es[..|es| - 1], e);
      assert es == es[..|es| - 1] + [es[|es| - 1]];
    }
  }

  lemma {:induction false} InsertedAscending(es: seq<Execution>, e: Execution)
    requires Ascending(es) && !Recorded(es, e.id)
    ensures Ascending(Inserted(es, e))
  {
    if !(es == [] || es[|es| - 1].id < e.id) {
      var p, last := es[..|es| - 1], es[|es| - 1];
      assert forall i :: 0 <= i < |p| ==> p[i] == es[i];
      InsertedAscending(p, e);
      InsertedMembers(p, e);
      forall i | 0 <= i < |Inserted(p, e)| ensures Inserted(p, e)[i].id < last.id {
        assert Inserted(p, e)[i] in Inserted(p, e);
        if Inserted(p, e)[i] in p {
          var j :| 0 <= j < |p| && p[j] == Inserted(p, e)[i];
        }
      }
    }
  }

  /** Recording keeps the listing sorted and adds exactly one entry, last when newest. */
  lemma InsertedIs(es: seq<Execution>, e: Execution)
    requires Ascending(es) && !Recorded(es, e.id)
    ensures Ascending(Inserted(es, e)) && |Inserted(es, e)| == |es| + 1
    ensures forall x :: x in Inserted(es, e) <==> x == e || x in es
    ensures Inserted(es, e)[|es|] == if es == [] || es[|es| - 1].id < e.id then e else es[|es| - 1]
  {
    InsertedAscending(es, e);
    InsertedMembers(es, e);
    if !(es == [] || es[|es| - 1].id < e.id) {
      InsertedMembers(es[..|es| - 1], e);
    }
  }

  // ---- What the next attempt continues from ----

  function BranchOf(es: seq<Execution>, id: nat): string {
    if es == [] then "" else if es[0].id == id then es[0].branch else BranchOf(es[1..], id)
  }

  /** The branch and notes of the latest review, only when it asked for changes. */
  function ReviewContinuation(t: Task): (string, string) {
    if t.reviews == [] || !t.reviews[|t.reviews| - 1].decision.NeedsChanges? then ("", "")
    else
      var latest := t.reviews[|t.reviews| - 1];
      (BranchOf(t.executions, latest.execution), latest.notes)
  }

  datatype Offer = Offer(id: nat, branch: string, message: string)

  /** The failed attempt a human may choose to continue from, if any. */
  function FailureContinuation(t: Task, reviewFork: string): Option<Offer> {
    if reviewFork != "" || t.executions == [] then None
    else
      var latest := t.executions[|t.executions| - 1];
      if latest.success || latest.commits == 0 then None
      else Some(Offer(latest.id, latest.branch, latest.message))
  }

  /** Re-validated, never trusted: None is the conflict answer. */
  function StartsFrom(t: Task, continueFrom: Option<nat>): Option<Flight> {
    var (reviewFork, feedback) := ReviewContinuation(t);
    var offer := FailureContinuation(t, reviewFork);
    var id := t.logged + 1;
    if continueFrom.None? then Some(Flight(id, reviewFork, feedback, ""))
    else if offer.Some? && offer.value.id == continueFrom.value then
      Some(Flight(id, offer.value.branch, feedback, offer.value.message))
    else None
  }

  // ---- The steps ----

  datatype Action =
    | FinalizeRequirements
    | FinalizePlan
    | FinalizeReview(decision: Decision, notes: string)
    | ReviseToRequirements
    | ReviseToPlanning
    | RecordPullRequest(branch: string)
    | MarkPRMerged
    | CompleteCleanup
    | Begin(r: Request, continueFrom: Option<nat>)
    | End(r: Request, success: bool, resolved: bool, branch: string, commits: nat, message: string)

  function Latest(t: Task): nat {
    if t.executions == [] then 0 else t.executions[|t.executions| - 1].id
  }

  function AfterVerdict(d: Decision): Stage {
    match d case Approved => PRReview case NeedsChanges => Implementation case Rejected => Requirements
  }

  /** Executions are recorded whatever the stage, except a success outside Implementation. */
  predicate Records(t: Task, a: Action) {
    a.End? && a.r in t.flights && (a.success ==> t.stage.Implementation?) && !Recorded(t.executions, t.flights[a.r].id)
  }

  predicate Enabled(t: Task, a: Action) {
    match a
    case FinalizeRequirements => t.stage.Requirements?
    case FinalizePlan => t.stage.Planning?
    case FinalizeReview(d, _) => t.stage.Review? || (t.stage.PRReview? && !d.Approved?)
    case ReviseToRequirements => t.stage.Planning?
    case ReviseToPlanning => t.stage.Implementation? || t.stage.Review?
    case RecordPullRequest(_) => t.stage.PRReview?
    case MarkPRMerged => t.stage.PRReview? && t.pullRequest.Some?
    case CompleteCleanup => t.stage.Cleanup?
    case Begin(r, continueFrom) => t.stage.Implementation? && r !in t.flights && StartsFrom(t, continueFrom).Some?
    case End(r, success, resolved, branch, _, _) => r in t.flights && (success ==> resolved) && (resolved <==> branch != "")
  }

  function Ended(t: Task, a: Action): Task
    requires a.End? && a.r in t.flights
  {
    var flight := t.flights[a.r];
    var landed := t.(flights := t.flights - {a.r});
    if Records(t, a) then
      var e := Execution(flight.id, a.success, a.branch, if a.resolved then flight.forkFrom else "", a.commits, a.message);
      landed.(executions := Inserted(t.executions, e), stage := if a.success then Review else t.stage)
    else landed
  }

  /** A refused action changes nothing. */
  function Next(t: Task, a: Action): Task {
    if !Enabled(t, a) then t else
    match a
    case FinalizeRequirements => t.(stage := Planning)
    case FinalizePlan => t.(stage := Implementation)
    case FinalizeReview(d, notes) => t.(stage := AfterVerdict(d), reviews := t.reviews + [Verdict(Latest(t), d, notes)])
    case ReviseToRequirements => t.(stage := Requirements)
    case ReviseToPlanning => t.(stage := Planning)
    case RecordPullRequest(branch) => t.(pullRequest := Some(branch))
    case MarkPRMerged => t.(stage := Cleanup)
    case CompleteCleanup => t.(stage := Completed)
    case Begin(r, continueFrom) =>
      t.(flights := t.flights[r := StartsFrom(t, continueFrom).value], logged := t.logged + 1)
    case End(_, _, _, _, _, _) => Ended(t, a)
  }

  function After(actions: seq<Action>): Task {
    if actions == [] then NEW_TASK else Next(After(actions[..|actions| - 1]), actions[|actions| - 1])
  }

  // ---- Whole runs ----

  /** At most one attempt is ever under way. */
  predicate OneAtATime(actions: seq<Action>) {
    forall n :: 0 <= n <= |actions| ==> |After(actions[..n]).flights| <= 1
  }

  predicate Reviewing(s: Stage) {
    s.Review? || s.PRReview? || s.Cleanup? || s.Completed?
  }

  function Last<T>(s: seq<T>): T
    requires s != []
  {
    s[|s| - 1]
  }

  predicate NamesSuccess(es: seq<Execution>, id: nat) {
    exists i :: 0 <= i < |es| && es[i].id == id && es[i].success && es[i].branch != ""
  }

  /** Ids are handed out in order and recorded at most once. */
  ghost predicate Numbered(t: Task) {
    && Ascending(t.executions)
    && (forall e :: e in t.executions ==> 0 < e.id <= t.logged)
    && (forall r :: r in t.flights ==> 0 < t.flights[r].id <= t.logged && !Recorded(t.executions, t.flights[r].id))
    && (forall r, q :: r in t.flights && q in t.flights && t.flights[r].id == t.flights[q].id ==> r == q)
  }

  lemma InsertedRecords(es: seq<Execution>, e: Execution, id: nat)
    requires !Recorded(es, id) && id != e.id
    ensures !Recorded(Inserted(es, e), id)
  {
    InsertedMembers(es, e);
    var es' := Inserted(es, e);
    forall i | 0 <= i < |es'| ensures es'[i].id != id {
      assert es'[i] in es';
      if es'[i] in es {
        var j :| 0 <= j < |es| && es[j] == es'[i];
      }
    }
  }

  lemma RecordNumbered(t: Task, a: Action)
    requires Numbered(t) && Enabled(t, a) && Records(t, a)
    ensures Numbered(Next(t, a))
  {
    var t', e := Next(t, a), RecordOf(t, a);
    InsertedIs(t.executions, e);
    forall r | r in t'.flights ensures !Recorded(t'.executions, t'.flights[r].id) {
      InsertedRecords(t.executions, e, t.flights[r].id);
    }
  }

  lemma NextNumbered(t: Task, a: Action)
    requires Numbered(t)
    ensures Numbered(Next(t, a))
  {
    if Enabled(t, a) && Records(t, a) {
      RecordNumbered(t, a);
    } else if Enabled(t, a) && a.Begin? {
      forall i | 0 <= i < |t.executions| ensures t.executions[i].id <= t.logged {
        assert t.executions[i] in t.executions;
      }
    }
  }

  function RecordOf(t: Task, a: Action): Execution
    requires a.End? && a.r in t.flights
  {
    Execution(t.flights[a.r].id, a.success, a.branch, if a.resolved then t.flights[a.r].forkFrom else "", a.commits, a.message)
  }

  /** What a recorded attempt does to the records: one more, listed by its id. */
  lemma RecordedIs(t: Task, a: Action)
    requires Numbered(t) && Enabled(t, a) && Records(t, a)
    ensures var t' := Next(t, a);
            && t'.executions == Inserted(t.executions, RecordOf(t, a)) && t'.executions != [] && t'.reviews == t.reviews
            && (forall x :: x in t'.executions <==> x == RecordOf(t, a) || x in t.executions)
            && Last(t'.executions) == (if Latest(t) < RecordOf(t, a).id then RecordOf(t, a) else Last(t.executions))
            && RecordOf(t, a).id != Latest(t)
  {
    InsertedIs(t.executions, RecordOf(t, a));
    assert t.executions != [] ==> Last(t.executions) in t.executions;
  }

  // ---- The latest execution at review ----

  /** The latest execution is a success whenever the task is reviewed or later. */
  predicate LatestOk(t: Task) {
    Reviewing(t.stage) ==> t.executions != [] && Last(t.executions).success
  }

  /** A success is recorded below a failure, or a failure above the success under review. */
  predicate Misorders(t: Task, a: Action) {
    && Enabled(t, a) && Records(t, a)
    && if a.success then t.flights[a.r].id < Latest(t) && !Last(t.executions).success
       else Latest(t) < t.flights[a.r].id && Reviewing(t.stage)
  }

  /** However many attempts are under way, that step alone makes the latest wrong. */
  lemma LatestOkExactly(t: Task, a: Action)
    requires Numbered(t) && LatestOk(t)
    ensures LatestOk(Next(t, a)) <==> !Misorders(t, a)
  {
    if Enabled(t, a) && Records(t, a) {
      RecordedIs(t, a);
    }
  }

  lemma {:induction false} AlwaysNumbered(actions: seq<Action>)
    ensures Numbered(After(actions))
  {
    if actions != [] {
      AlwaysNumbered(actions[..|actions| - 1]);
      NextNumbered(After(actions[..|actions| - 1]), actions[|actions| - 1]);
    }
  }

  lemma AfterStep(actions: seq<Action>, k: nat)
    requires k < |actions|
    ensures After(actions[..k + 1]) == Next(After(actions[..k]), actions[k])
  {
    assert actions[..k + 1][..k] == actions[..k];
  }

  predicate Orderly(actions: seq<Action>) {
    forall k :: 0 <= k < |actions| ==> !Misorders(After(actions[..k]), actions[k])
  }

  predicate LatestAlwaysOk(actions: seq<Action>) {
    forall k :: 0 <= k <= |actions| ==> LatestOk(After(actions[..k]))
  }

  lemma {:induction false} OrderlyUpTo(actions: seq<Action>, k: nat)
    requires Orderly(actions) && k <= |actions|
    ensures LatestOk(After(actions[..k]))
  {
    if k > 0 {
      OrderlyUpTo(actions, k - 1);
      AfterStep(actions, k - 1);
      AlwaysNumbered(actions[..k - 1]);
      LatestOkExactly(After(actions[..k - 1]), actions[k - 1]);
    }
  }

  /** Over a whole run, overlapping attempts included: the latest execution at review
      and later is always a success if and only if no attempt is ever recorded out
      of order. */
  lemma LatestOkOverRuns(actions: seq<Action>)
    ensures LatestAlwaysOk(actions) <==> Orderly(actions)
  {
    if Orderly(actions) {
      forall k | 0 <= k <= |actions| ensures LatestOk(After(actions[..k])) { OrderlyUpTo(actions, k); }
    }
    if LatestAlwaysOk(actions) {
      forall k | 0 <= k < |actions| ensures !Misorders(After(actions[..k]), actions[k]) {
        AfterStep(actions, k);
        AlwaysNumbered(actions[..k]);
        assert LatestOk(After(actions[..k])) && LatestOk(After(actions[..k + 1]));
        LatestOkExactly(After(actions[..k]), actions[k]);
      }
    }
  }

  /** The execution whose success last sent the task to review. */
  function LedBy(actions: seq<Action>): nat {
    if actions == [] then 0 else
    var prefix, a := actions[..|actions| - 1], actions[|actions| - 1];
    var t := After(prefix);
    if Enabled(t, a) && Records(t, a) && a.success then t.flights[a.r].id else LedBy(prefix)
  }

  predicate LedByLatest(actions: seq<Action>) {
    Reviewing(After(actions).stage) ==> Latest(After(actions)) == LedBy(actions)
  }

  predicate Overtakes(t: Task, a: Action) {
    && Enabled(t, a) && Records(t, a)
    && if a.success then t.flights[a.r].id < Latest(t) else Latest(t) < t.flights[a.r].id && Reviewing(t.stage)
  }

  lemma LedBySnoc(actions: seq<Action>, a: Action)
    ensures After(actions + [a]) == Next(After(actions), a)
    ensures var t := After(actions);
            LedBy(actions + [a]) == if Enabled(t, a) && Records(t, a) && a.success then t.flights[a.r].id else LedBy(actions)
  {
    assert (actions + [a])[..|actions|] == actions;
  }

  lemma LedStep(t: Task, a: Action, led: nat)
    requires Numbered(t) && (Reviewing(t.stage) ==> Latest(t) == led)
    ensures var led' := if Enabled(t, a) && Records(t, a) && a.success then t.flights[a.r].id else led;
            (Reviewing(Next(t, a).stage) ==> Latest(Next(t, a)) == led') <==> !Overtakes(t, a)
  {
    if Enabled(t, a) && Records(t, a) {
      RecordedIs(t, a);
    }
  }

  /** The latest is the very success that led there, not just a success, until and only
      until one attempt overtakes another: a verdict or a pull request taken from the
      latest is then about other work than was sent to review. */
  lemma LedByLatestExactly(actions: seq<Action>, a: Action)
    requires LedByLatest(actions)
    ensures LedByLatest(actions + [a]) <==> !Overtakes(After(actions), a)
  {
    AlwaysNumbered(actions);
    LedBySnoc(actions, a);
    LedStep(After(actions), a, LedBy(actions));
  }

  // ---- What holds in every run ----

  /** A success has a branch, a verdict names a recorded execution, a stage past
      review follows an approval. */
  ghost predicate Traced(t: Task) {
    && (forall e :: e in t.executions && e.success ==> e.branch != "")
    && (forall v :: v in t.reviews ==> Recorded(t.executions, v.execution))
    && (Reviewing(t.stage) ==> t.executions != [])
    && (Approving(t.stage) ==> t.reviews != [] && Last(t.reviews).decision.Approved?)
  }

  predicate Approving(s: Stage) {
    s.PRReview? || s.Cleanup? || s.Completed?
  }

  lemma RecordedStays(es: seq<Execution>, e: Execution, id: nat)
    requires Recorded(es, id)
    ensures Recorded(Inserted(es, e), id)
  {
    InsertedMembers(es, e);
    var i :| 0 <= i < |es| && es[i].id == id;
    assert es[i] in Inserted(es, e);
    var j :| 0 <= j < |Inserted(es, e)| && Inserted(es, e)[j] == es[i];
  }

  lemma LatestRecorded(t: Task)
    requires t.executions != []
    ensures Recorded(t.executions, Latest(t))
  {
    assert t.executions[|t.executions| - 1].id == Latest(t);
  }

  lemma NextTraced(t: Task, a: Action)
    requires Numbered(t) && Traced(t)
    ensures Traced(Next(t, a))
  {
    if Enabled(t, a) && Records(t, a) {
      RecordedIs(t, a);
      forall v | v in t.reviews ensures Recorded(Next(t, a).executions, v.execution) {
        RecordedStays(t.executions, RecordOf(t, a), v.execution);
      }
    } else if a.FinalizeReview? && Enabled(t, a) {
      LatestRecorded(t);
    }
  }

  lemma {:induction false} AlwaysTraced(actions: seq<Action>)
    ensures Numbered(After(actions)) && Traced(After(actions))
  {
    AlwaysNumbered(actions);
    if actions != [] {
      AlwaysTraced(actions[..|actions| - 1]);
      NextTraced(After(actions[..|actions| - 1]), actions[|actions| - 1]);
    }
  }

  // ---- What holds while no attempt is recorded out of order ----

  predicate VerdictsOk(t: Task) {
    forall v :: v in t.reviews ==> NamesSuccess(t.executions, v.execution)
  }

  predicate ApprovalNamesLatest(t: Task) {
    Approving(t.stage) ==> t.reviews != [] && Last(t.reviews).execution == Latest(t)
  }

  lemma NamesSuccessStays(es: seq<Execution>, e: Execution, id: nat)
    requires NamesSuccess(es, id)
    ensures NamesSuccess(Inserted(es, e), id)
  {
    InsertedMembers(es, e);
    var i :| 0 <= i < |es| && es[i].id == id && es[i].success && es[i].branch != "";
    assert es[i] in Inserted(es, e);
    var j :| 0 <= j < |Inserted(es, e)| && Inserted(es, e)[j] == es[i];
  }

  lemma NextVerdictsOk(t: Task, a: Action)
    requires Numbered(t) && Traced(t) && LatestOk(t) && VerdictsOk(t)
    ensures VerdictsOk(Next(t, a))
  {
    if Enabled(t, a) && Records(t, a) {
      RecordedIs(t, a);
      forall v | v in t.reviews ensures NamesSuccess(Next(t, a).executions, v.execution) {
        NamesSuccessStays(t.executions, RecordOf(t, a), v.execution);
      }
    } else if a.FinalizeReview? && Enabled(t, a) {
      var i := |t.executions| - 1;
      assert t.executions[i] in t.executions && t.executions[i].id == Latest(t);
    }
  }

  lemma NextApprovalNamesLatest(t: Task, a: Action)
    requires Numbered(t) && ApprovalNamesLatest(t) && !Misorders(t, a)
    ensures ApprovalNamesLatest(Next(t, a))
  {
    if Enabled(t, a) && Records(t, a) {
      RecordedIs(t, a);
    }
  }

  lemma {:induction false} OrderlyFacts(actions: seq<Action>)
    requires Orderly(actions)
    ensures Numbered(After(actions)) && Traced(After(actions)) && LatestOk(After(actions))
    ensures VerdictsOk(After(actions)) && ApprovalNamesLatest(After(actions))
  {
    AlwaysTraced(actions);
    if actions != [] {
      var n := |actions| - 1;
      OrderlyPrefix(actions);
      OrderlyFacts(actions[..n]);
      LatestOkExactly(After(actions[..n]), actions[n]);
      NextVerdictsOk(After(actions[..n]), actions[n]);
      NextApprovalNamesLatest(After(actions[..n]), actions[n]);
    }
  }

  lemma OrderlyPrefix(actions: seq<Action>)
    requires actions != [] && Orderly(actions)
    ensures Orderly(actions[..|actions| - 1])
    ensures !Misorders(After(actions[..|actions| - 1]), actions[|actions| - 1])
  {
    var prefix := actions[..|actions| - 1];
    forall k | 0 <= k < |prefix| ensures !Misorders(After(prefix[..k]), prefix[k]) {
      assert prefix[..k] == actions[..k] && prefix[k] == actions[k];
    }
  }

  /** Then, while a task is reviewed or its PR open, the latest execution is a success
      with a branch, past review the latest review is the approval naming it, and
      every verdict names a recorded success. */
  lemma StageFactsHold(actions: seq<Action>)
    requires Orderly(actions)
    ensures var t := After(actions);
            && (Reviewing(t.stage) ==> t.executions != [] && Last(t.executions).success && Last(t.executions).branch != "")
            && (Approving(t.stage) ==>
                  t.reviews != [] && Last(t.reviews).decision.Approved? && Last(t.reviews).execution == Last(t.executions).id)
            && (forall v :: v in t.reviews ==> NamesSuccess(t.executions, v.execution))
  {
    OrderlyFacts(actions);
    var t := After(actions);
    if t.executions != [] {
      assert Last(t.executions) in t.executions;
    }
  }

  // ---- One attempt at a time is orderly ----

  /** Past implementation no attempt is under way, and one that is has the newest id. */
  ghost predicate Single(t: Task) {
    && (forall r :: r in t.flights ==> t.flights[r].id == t.logged && Latest(t) < t.logged)
    && (Reviewing(t.stage) ==> t.flights == map[])
  }

  /** One attempt under way means every flight is the newest id. */
  lemma SingleFlight(flights: map<Request, Flight>, r: Request, q: Request)
    requires |flights| <= 1 && r in flights && q in flights
    ensures r == q
  {
    if r != q {
      assert {r, q} <= flights.Keys;
      SubsetSize({r, q}, flights.Keys);
    }
  }

  lemma SubsetSize(a: set<Request>, b: set<Request>)
    requires a <= b
    ensures |a| <= |b|
  {
    assert b == a + (b - a);
  }

  lemma LatestLogged(t: Task)
    requires Numbered(t)
    ensures Latest(t) <= t.logged
  {
    assert t.executions != [] ==> Last(t.executions) in t.executions;
  }

  lemma BeginSingle(t: Task, a: Action)
    requires Numbered(t) && Single(t) && a.Begin? && Enabled(t, a) && |Next(t, a).flights| <= 1
    ensures Single(Next(t, a))
  {
    var t' := Next(t, a);
    LatestLogged(t);
    forall q | q in t'.flights ensures q == a.r { SingleFlight(t'.flights, q, a.r); }
  }

  lemma EndSingle(t: Task, a: Action)
    requires Single(t) && |t.flights| <= 1 && a.End? && Enabled(t, a)
    ensures Single(Next(t, a)) && !Misorders(t, a) && !Overtakes(t, a)
  {
    forall q | q in t.flights ensures q == a.r { SingleFlight(t.flights, q, a.r); }
    assert Next(t, a).flights == map[];
  }

  lemma NextSingle(t: Task, a: Action)
    requires Numbered(t) && Single(t) && |t.flights| <= 1 && |Next(t, a).flights| <= 1
    ensures Single(Next(t, a)) && !Misorders(t, a) && !Overtakes(t, a)
  {
    if Enabled(t, a) {
      match a
      case Begin(_, _) => BeginSingle(t, a);
      case End(_, _, _, _, _, _) => EndSingle(t, a);
      case _ =>
    }
  }

  lemma StepSingle(actions: seq<Action>, k: nat)
    requires OneAtATime(actions) && k < |actions| && Single(After(actions[..k]))
    ensures Single(After(actions[..k + 1]))
    ensures !Misorders(After(actions[..k]), actions[k]) && !Overtakes(After(actions[..k]), actions[k])
  {
    AfterStep(actions, k);
    AlwaysNumbered(actions[..k]);
    NextSingle(After(actions[..k]), actions[k]);
  }

  lemma {:induction false} AlwaysSingle(actions: seq<Action>, k: nat)
    requires OneAtATime(actions) && k <= |actions|
    ensures Single(After(actions[..k]))
  {
    if k > 0 {
      AlwaysSingle(actions, k - 1);
      StepSingle(actions, k - 1);
    }
  }

  lemma {:induction false} SingleIsLedByLatest(actions: seq<Action>, k: nat)
    requires OneAtATime(actions) && k <= |actions|
    ensures LedByLatest(actions[..k])
  {
    if k > 0 {
      SingleIsLedByLatest(actions, k - 1);
      AlwaysSingle(actions, k - 1);
      StepSingle(actions, k - 1);
      LedByLatestExactly(actions[..k - 1], actions[k - 1]);
      assert actions[..k] == actions[..k - 1] + [actions[k - 1]];
    }
  }

  /** With one attempt at a time, as the interface offers it, a run is orderly, the
      latest at review is what led there, and none is under way then. */
  lemma OneAtATimeIsOrderly(actions: seq<Action>)
    requires OneAtATime(actions)
    ensures Orderly(actions) && LedByLatest(actions)
    ensures Reviewing(After(actions).stage) ==> After(actions).flights == map[]
  {
    forall k | 0 <= k < |actions| ensures !Misorders(After(actions[..k]), actions[k]) {
      AlwaysSingle(actions, k);
      StepSingle(actions, k);
    }
    AlwaysSingle(actions, |actions|);
    SingleIsLedByLatest(actions, |actions|);
    assert actions[..|actions|] == actions;
  }

  lemma AfterOne(run: seq<Action>, t: Task, a: Action) returns (run': seq<Action>, t': Task)
    requires After(run) == t && OneAtATime(run)
    ensures After(run') == t' == Next(t, a) && run' == run + [a]
    ensures |t'.flights| <= 1 ==> OneAtATime(run')
  {
    run', t' := run + [a], Next(t, a);
    assert run'[..|run|] == run;
    if |t'.flights| <= 1 {
      forall n | 0 <= n <= |run'| ensures |After(run'[..n]).flights| <= 1 {
        if n <= |run| {
          assert run'[..n] == run[..n];
        } else {
          assert run'[..n] == run';
        }
      }
    }
  }

  lemma ToImplementation() returns (run: seq<Action>, t: Task)
    ensures After(run) == t == NEW_TASK.(stage := Implementation) && OneAtATime(run)
  {
    var run0: seq<Action> := [];
    assert OneAtATime(run0) by {
      forall n | 0 <= n <= |run0| ensures |After(run0[..n]).flights| <= 1 { }
    }
    var run1, t1 := AfterOne(run0, NEW_TASK, FinalizeRequirements);
    run, t := AfterOne(run1, t1, FinalizePlan);
  }

  lemma AfterLast(run: seq<Action>, a: Action)
    ensures After(run + [a]) == Next(After(run), a)
  {
    assert (run + [a])[..|run|] == run;
  }

  lemma Step(run: seq<Action>, t: Task, a: Action) returns (run': seq<Action>, t': Task)
    requires After(run) == t
    ensures After(run') == t' == Next(t, a)
  {
    run', t' := run + [a], Next(t, a);
    AfterLast(run, a);
  }

  lemma TwoUnderWay() returns (run: seq<Action>, t: Task)
    ensures After(run) == t && t == NEW_TASK.(stage := Implementation, logged := 2,
                                             flights := map[0 := Flight(1, "", "", ""), 1 := Flight(2, "", "", "")])
  {
    var run1, t1 := ToImplementation();
    var run2, t2 := Step(run1, t1, Begin(0, None));
    assert t2 == t1.(flights := map[0 := Flight(1, "", "", "")], logged := 1);
    run, t := Step(run2, t2, Begin(1, None));
  }

  lemma SecondTurnedAway(t: Task, branch: string) returns (a: Action)
    requires t.stage.Implementation? && t.executions == []
    requires t.flights == map[0 := Flight(1, "", "", ""), 1 := Flight(2, "", "", "")]
    ensures Next(t, a) == t.(flights := map[0 := Flight(1, "", "", "")], executions := [Execution(2, false, branch, "", 0, "busy")])
  {
    var e := Execution(2, false, branch, "", 0, "busy");
    a := End(1, false, branch != "", branch, 0, "busy");
    assert RecordOf(t, a) == e && Inserted([], e) == [e];
    assert t.flights - {1} == map[0 := Flight(1, "", "", "")];
  }

  lemma FirstSucceeds(t: Task, e2: Execution) returns (a: Action)
    requires t.stage.Implementation? && t.executions == [e2] && e2.id == 2 && t.flights == map[0 := Flight(1, "", "", "")]
    ensures Next(t, a) == t.(stage := Review, flights := map[], executions := [Execution(1, true, "b1", "", 1, ""), e2])
  {
    var e1 := Execution(1, true, "b1", "", 1, "");
    a := End(0, true, true, "b1", 1, "");
    assert RecordOf(t, a) == e1;
    assert [e2][..0] == [] && Inserted([], e1) == [e1] && Inserted([e2], e1) == [e1, e2];
    assert t.flights - {0} == map[];
  }

  /** The second of two attempts is recorded as a failure before the first succeeds. */
  lemma Overlapping(branch: string) returns (run: seq<Action>, t: Task)
    ensures After(run) == t && t.stage.Review? && t.flights == map[] && t.reviews == [] && t.logged == 2
    ensures t.executions == [Execution(1, true, "b1", "", 1, ""), Execution(2, false, branch, "", 0, "busy")]
  {
    var run1, t1 := TwoUnderWay();
    var a := SecondTurnedAway(t1, branch);
    var run2, t2 := Step(run1, t1, a);
    var b := FirstSucceeds(t2, t2.executions[0]);
    run, t := Step(run2, t2, b);
  }

  /** Two attempts at once, the second turned away: the task is reviewed with a failed
      latest execution, which is what the verdict will name. */
  lemma OverlapMisnamesReview() returns (run: seq<Action>)
    ensures var t := After(run); t.stage.Review? && t.executions != [] && !Last(t.executions).success
  {
    var run1, t1 := Overlapping("b2");
    run := run1;
  }

  // ---- After a rejection ----

  /** The rejected attempt is still the latest one recorded. */
  predicate RejectedIsLatest(t: Task) {
    t.reviews != [] && Last(t.reviews).decision.Rejected? ==> Last(t.reviews).execution == Latest(t)
  }

  /** It stays so until, and only until, an execution with a higher id is recorded
      while the rejection is still the latest review. */
  lemma RejectedStaysLatest(t: Task, a: Action)
    requires Numbered(t) && RejectedIsLatest(t)
    ensures RejectedIsLatest(Next(t, a)) <==>
            !(Enabled(t, a) && Records(t, a) && t.reviews != [] && Last(t.reviews).decision.Rejected? &&
              Latest(t) < t.flights[a.r].id)
  {
    if Enabled(t, a) && Records(t, a) {
      RecordedIs(t, a);
    }
  }

  predicate RecordsAbove(t: Task, a: Action, id: nat) {
    Enabled(t, a) && Records(t, a) && id < t.flights[a.r].id
  }

  lemma LatestMoves(t: Task, a: Action, id: nat)
    requires Numbered(t) && id <= Latest(t)
    ensures Latest(t) <= Latest(Next(t, a))
    ensures Latest(Next(t, a)) == id <==> Latest(t) == id && !RecordsAbove(t, a, id)
    ensures t.reviews <= Next(t, a).reviews
  {
    if Enabled(t, a) && Records(t, a) {
      RecordedIs(t, a);
    }
  }

  predicate NoneAbove(start: seq<Action>, more: seq<Action>, id: nat) {
    forall k :: 0 <= k < |more| ==> !RecordsAbove(After(start + more[..k]), more[k], id)
  }

  lemma NoneAboveSnoc(start: seq<Action>, more: seq<Action>, a: Action, id: nat)
    ensures NoneAbove(start, more + [a], id) <==> NoneAbove(start, more, id) && !RecordsAbove(After(start + more), a, id)
  {
    var more' := more + [a];
    assert more'[..|more|] == more && more'[|more|] == a;
    assert forall k :: 0 <= k < |more| ==> more'[..k] == more[..k] && more'[k] == more[k];
    if NoneAbove(start, more', id) {
      forall k | 0 <= k < |more| ensures !RecordsAbove(After(start + more[..k]), more[k], id) {
        assert !RecordsAbove(After(start + more'[..k]), more'[k], id);
      }
      assert !RecordsAbove(After(start + more'[..|more|]), more'[|more|], id);
    }
  }

  lemma LatestMovesOn(start: seq<Action>, rest: seq<Action>, a: Action, id: nat)
    requires id <= Latest(After(start + rest))
    ensures var t, t' := After(start + rest), After(start + (rest + [a]));
            && Latest(t) <= Latest(t') && t.reviews <= t'.reviews
            && (Latest(t') == id <==> Latest(t) == id && !RecordsAbove(t, a, id))
  {
    AlwaysNumbered(start + rest);
    AfterLast(start + rest, a);
    assert start + (rest + [a]) == start + rest + [a];
    LatestMoves(After(start + rest), a, id);
  }

  /** From any point on: the latest recorded stays so until a higher id is recorded. */
  lemma {:induction false} LatestStays(start: seq<Action>, more: seq<Action>, id: nat)
    requires id == Latest(After(start))
    ensures id <= Latest(After(start + more)) && (Latest(After(start + more)) == id <==> NoneAbove(start, more, id))
    ensures After(start).reviews <= After(start + more).reviews
  {
    if more == [] {
      assert start + more == start;
    } else {
      var rest, a := more[..|more| - 1], more[|more| - 1];
      assert more == rest + [a];
      LatestStays(start, rest, id);
      LatestMovesOn(start, rest, a, id);
      NoneAboveSnoc(start, rest, a, id);
    }
  }

  lemma RejectionNamesLatest(before: seq<Action>, notes: string) returns (start: seq<Action>)
    requires Enabled(After(before), FinalizeReview(Rejected, notes))
    ensures start == before + [FinalizeReview(Rejected, notes)]
    ensures After(start).reviews == After(before).reviews + [Verdict(Latest(After(before)), Rejected, notes)]
    ensures Latest(After(start)) == Latest(After(before))
  {
    start := before + [FinalizeReview(Rejected, notes)];
    AfterLast(before, FinalizeReview(Rejected, notes));
  }

  /** Over any run from a rejection on, for as long as it is the latest review: the
      rejected attempt is the latest recorded one if and only if no execution with a
      higher id has been recorded since. */
  lemma RejectedLatestOverRuns(before: seq<Action>, notes: string, more: seq<Action>)
    requires Enabled(After(before), FinalizeReview(Rejected, notes))
    requires |After(before + [FinalizeReview(Rejected, notes)] + more).reviews| == |After(before).reviews| + 1
    ensures var start := before + [FinalizeReview(Rejected, notes)];
            var rejected := Latest(After(before));
            && After(start + more).reviews != [] && Last(After(start + more).reviews) == Verdict(rejected, Rejected, notes)
            && (RejectedIsLatest(After(start + more)) <==> NoneAbove(start, more, rejected))
  {
    var start := RejectionNamesLatest(before, notes);
    LatestStays(start, more, Latest(After(before)));
    assert After(start + more).reviews == After(start).reviews;
  }

  lemma Lands(t: Task, success: bool) returns (t': Task)
    requires Numbered(t) && t.stage.Implementation? && t.logged > 0 && Latest(t) < t.logged
    requires t.flights == map[0 := Flight(t.logged, "", "", "")]
    ensures t' == Next(t, End(0, success, true, "b", 1, "")) && t'.flights == map[] && t'.reviews == t.reviews && t'.logged == t.logged
    ensures t'.stage == (if success then Review else Implementation) && Latest(t') == t.logged
  {
    var e := Execution(t.logged, success, "b", "", 1, "");
    assert !Recorded(t.executions, t.flights[0].id);
    InsertedIs(t.executions, e);
    t' := Next(t, End(0, success, true, "b", 1, ""));
    assert t'.executions == Inserted(t.executions, e);
  }

  lemma BeginIs(t: Task)
    requires t.stage.Implementation? && t.flights == map[] && (t.reviews == [] || !Last(t.reviews).decision.NeedsChanges?)
    ensures Next(t, Begin(0, None)) == t.(flights := map[0 := Flight(t.logged + 1, "", "", "")], logged := t.logged + 1)
  {
    assert Next(t, Begin(0, None)).flights == map[0 := Flight(t.logged + 1, "", "", "")];
  }

  /** From implementation, without a review to answer, one attempt runs to its end. */
  lemma Attempt(run: seq<Action>, t: Task, success: bool) returns (run': seq<Action>, t': Task)
    requires After(run) == t && OneAtATime(run) && t.stage.Implementation? && t.flights == map[]
    requires t.reviews == [] || !Last(t.reviews).decision.NeedsChanges?
    ensures OneAtATime(run') && After(run') == t' && t'.flights == map[] && t'.reviews == t.reviews
    ensures t'.stage == (if success then Review else Implementation) && Latest(t') == t.logged + 1 == t'.logged
  {
    AlwaysNumbered(run);
    LatestLogged(t);
    BeginIs(t);
    var run1, t1 := AfterOne(run, t, Begin(0, None));
    AlwaysNumbered(run1);
    var t2 := Lands(t1, success);
    run', t' := AfterOne(run1, t1, End(0, success, true, "b", 1, ""));
  }

  lemma Moves(run: seq<Action>, t: Task, a: Action, b: Action) returns (run': seq<Action>, t': Task)
    requires After(run) == t && OneAtATime(run) && t.flights == map[]
    requires !a.Begin? && !b.Begin?
    ensures OneAtATime(run') && After(run') == t' == Next(Next(t, a), b)
  {
    var run1, t1 := AfterOne(run, t, a);
    assert t1.flights == map[];
    run', t' := AfterOne(run1, t1, b);
  }

  lemma ReviewRejected() returns (run: seq<Action>, t: Task)
    ensures After(run) == t && OneAtATime(run) && t.stage.Implementation? && t.flights == map[]
    ensures t.reviews == [Verdict(1, Rejected, "no")] && t.logged == 1
  {
    var run1, t1 := ToImplementation();
    var run2, t2 := Attempt(run1, t1, true);
    var run3, t3 := Moves(run2, t2, FinalizeReview(Rejected, "no"), FinalizeRequirements);
    assert t3 == t2.(stage := Planning, reviews := [Verdict(1, Rejected, "no")]);
    run, t := AfterOne(run3, t3, FinalizePlan);
  }

  /** A reopened interview can be shown the wrong attempt: back at Requirements with
      a rejection still the latest review, yet a later, failed attempt recorded. */
  lemma RejectionOutlivedByFailure() returns (run: seq<Action>)
    ensures OneAtATime(run)
    ensures var t := After(run);
            t.stage.Requirements? && t.reviews != [] && Last(t.reviews).decision.Rejected? && Last(t.reviews).execution < Latest(t)
  {
    var run1, t1 := ReviewRejected();
    var run2, t2 := Attempt(run1, t1, false);
    var run3, t3 := Moves(run2, t2, ReviseToPlanning, ReviseToRequirements);
    assert t3 == t2.(stage := Requirements);
    run := run3;
  }

  // ---- Continuing from reviewed work ----

  lemma {:induction false} BranchOfListed(es: seq<Execution>, i: nat)
    requires Ascending(es) && i < |es|
    ensures BranchOf(es, es[i].id) == es[i].branch
  {
    if i > 0 {
      assert es[0].id < es[i].id && es[1..][i - 1] == es[i];
      BranchOfListed(es[1..], i - 1);
    }
  }

  /** The branch an attempt continues from is that of the very execution the latest
      review named, whatever was recorded since. */
  lemma ReviewedBranch(t: Task) returns (e: Execution)
    requires Ascending(t.executions) && t.reviews != [] && Last(t.reviews).decision.NeedsChanges?
    requires Recorded(t.executions, Last(t.reviews).execution)
    ensures e in t.executions && e.id == Last(t.reviews).execution
    ensures ReviewContinuation(t) == (e.branch, Last(t.reviews).notes)
    ensures NamesSuccess(t.executions, e.id) ==> e.success && e.branch != ""
  {
    var id := Last(t.reviews).execution;
    var i :| 0 <= i < |t.executions| && t.executions[i].id == id;
    BranchOfListed(t.executions, i);
    e := t.executions[i];
  }

  /** An attempt starting now takes up this work and nothing else. */
  ghost predicate TakesUp(t: Task, e: Execution, notes: string) {
    forall continueFrom ::
      StartsFrom(t, continueFrom) ==
      if continueFrom.None? then Some(Flight(t.logged + 1, e.branch, notes, "")) else None
  }

  lemma TakesUpExactly(t: Task, e: Execution)
    requires ReviewContinuation(t).0 == e.branch
    ensures TakesUp(t, e, ReviewContinuation(t).1) <==> e.branch != "" || FailureContinuation(t, "").None?
  {
    if TakesUp(t, e, ReviewContinuation(t).1) && e.branch == "" {
      var offer := FailureContinuation(t, "");
      if offer.Some? {
        assert StartsFrom(t, Some(offer.value.id)).None?;
      }
    }
  }

  /** In every run: while the latest review asks for changes, every attempt, after any
      number of failed retries, starts from the branch of the execution it named, with
      its notes, and no failed attempt is on offer beside it, exactly if that
      execution has a branch or there is nothing to offer. In an orderly run it is a
      success and has one. */
  lemma RetryContinuesReviewedWork(actions: seq<Action>) returns (e: Execution)
    requires After(actions).reviews != [] && Last(After(actions).reviews).decision.NeedsChanges?
    ensures var t := After(actions);
            && e in t.executions && e.id == Last(t.reviews).execution
            && (TakesUp(t, e, Last(t.reviews).notes) <==> e.branch != "" || FailureContinuation(t, "").None?)
            && (Orderly(actions) ==> e.success && e.branch != "")
  {
    var t := After(actions);
    AlwaysTraced(actions);
    assert Last(t.reviews) in t.reviews;
    e := ReviewedBranch(t);
    TakesUpExactly(t, e);
    if Orderly(actions) {
      OrderlyFacts(actions);
      assert NamesSuccess(t.executions, e.id);
    }
  }

  lemma BranchOfMember(es: seq<Execution>, e: Execution)
    requires Ascending(es) && e in es
    ensures BranchOf(es, e.id) == e.branch
  {
    var i :| 0 <= i < |es| && es[i] == e;
    BranchOfListed(es, i);
  }

  lemma ContinuationStaysOne(t: Task, a: Action)
    requires Numbered(t) && Traced(t) && !a.FinalizeReview?
    ensures ReviewContinuation(Next(t, a)) == ReviewContinuation(t)
  {
    if Enabled(t, a) && Records(t, a) && t.reviews != [] {
      RecordedIs(t, a);
      NextNumbered(t, a);
      assert Last(t.reviews) in t.reviews;
      var i :| 0 <= i < |t.executions| && t.executions[i].id == Last(t.reviews).execution;
      BranchOfMember(t.executions, t.executions[i]);
      BranchOfMember(Next(t, a).executions, t.executions[i]);
    }
  }

  /** Until the next review, nothing that happens, retries and overlapping attempts
      included, changes what an attempt continues from. */
  lemma {:induction false} ContinuationStays(actions: seq<Action>, more: seq<Action>)
    requires forall a :: a in more ==> !a.FinalizeReview?
    ensures ReviewContinuation(After(actions + more)) == ReviewContinuation(After(actions))
  {
    if more == [] {
      assert actions + more == actions;
    } else {
      var rest, last := more[..|more| - 1], more[|more| - 1];
      ContinuationStays(actions, rest);
      AlwaysTraced(actions + rest);
      AfterLast(actions + rest, last);
      assert actions + more == actions + rest + [last];
      ContinuationStaysOne(After(actions + rest), last);
    }
  }

  /** Whatever state the records are in, an attempt is handed both a review's notes
      and an earlier failure exactly when the human continues an offered failure
      although notes are owed: the reviewed attempt has no branch to go back to. */
  lemma BothPromptsExactly(t: Task, continueFrom: Option<nat>)
    ensures var start := StartsFrom(t, continueFrom);
            var (fork, feedback) := ReviewContinuation(t);
            var offer := FailureContinuation(t, fork);
            (start.Some? && start.value.feedback != "" && start.value.priorFailure != "") <==>
              (continueFrom.Some? && fork == "" && feedback != "" && offer.Some? &&
               offer.value.id == continueFrom.value && offer.value.message != "")
  {
  }

  /** The latest review asks for changes to an execution without a branch. */
  predicate Unowned(t: Task) {
    t.reviews != [] && Last(t.reviews).decision.NeedsChanges? && ReviewContinuation(t).0 == ""
  }

  lemma OrderlyIsOwned(actions: seq<Action>)
    requires Orderly(actions)
    ensures !Unowned(After(actions))
  {
    var t := After(actions);
    if t.reviews != [] && Last(t.reviews).decision.NeedsChanges? {
      var e := RetryContinuesReviewedWork(actions);
      OrderlyFacts(actions);
      BranchOfMember(t.executions, e);
    }
  }

  /** So the two parts exclude each other, as the comment has it, wherever the execution
      sent back has a branch, and it has one in every orderly run. */
  lemma NeverBothPrompts(actions: seq<Action>, continueFrom: Option<nat>)
    ensures var start := StartsFrom(After(actions), continueFrom);
            start.Some? && start.value.feedback != "" && start.value.priorFailure != "" ==> Unowned(After(actions)) && !Orderly(actions)
  {
    if Orderly(actions) {
      OrderlyIsOwned(actions);
    }
  }

  /** A retry of work sent back without a branch starts afresh, fails, and is on offer. */
  lemma UnownedRetry(run: seq<Action>, t: Task) returns (run': seq<Action>)
    requires After(run) == t && t.stage.Implementation? && t.flights == map[] && t.logged == 2
    requires |t.executions| == 2 && t.executions[0].id == 1 && t.executions[1].id == 2 && t.executions[1].branch == ""
    requires t.reviews == [Verdict(2, NeedsChanges, "fix")]
    ensures StartsFrom(After(run'), Some(3)) == Some(Flight(4, "b3", "fix", "boom"))
  {
    BranchOfListed(t.executions, 1);
    var run1, t1 := Step(run, t, Begin(0, None));
    assert t1.flights == map[0 := Flight(3, "", "fix", "")] && t1.executions == t.executions;
    var e := Execution(3, false, "b3", "", 1, "boom");
    var run2, t2 := Step(run1, t1, End(0, false, true, "b3", 1, "boom"));
    assert t2.executions == t.executions + [e] && t2.executions[1] == t.executions[1];
    BranchOfListed(t2.executions, 1);
    run' := run2;
  }

  /** It fails when attempts overlap: the review names an attempt whose workspace never
      resolved, so nothing owns the fork, and a later failure is on offer, notes and all. */
  lemma OverlapBothPrompts() returns (run: seq<Action>)
    ensures StartsFrom(After(run), Some(3)) == Some(Flight(4, "b3", "fix", "boom"))
  {
    var run1, t1 := Overlapping("");
    var run2, t2 := Step(run1, t1, FinalizeReview(NeedsChanges, "fix"));
    run := UnownedRetry(run2, t2);
  }

  // ---- How a task gets from stage to stage ----

  predicate Ends(t: Task, a: Action) {
    a.End? && a.r in t.flights && (a.success ==> a.resolved) && (a.resolved <==> a.branch != "")
  }

  /** The one or two ways into each stage. */
  predicate Leads(t: Task, a: Action, to: Stage) {
    match to
    case Requirements =>
      || (t.stage.Planning? && a.ReviseToRequirements?)
      || ((t.stage.Review? || t.stage.PRReview?) && a.FinalizeReview? && a.decision.Rejected?)
    case Planning =>
      (t.stage.Requirements? && a.FinalizeRequirements?) || ((t.stage.Implementation? || t.stage.Review?) && a.ReviseToPlanning?)
    case Implementation =>
      || (t.stage.Planning? && a.FinalizePlan?)
      || ((t.stage.Review? || t.stage.PRReview?) && a.FinalizeReview? && a.decision.NeedsChanges?)
    case Review => t.stage.Implementation? && Ends(t, a) && a.success
    case PRReview => t.stage.Review? && a.FinalizeReview? && a.decision.Approved?
    case Cleanup => t.stage.PRReview? && a.MarkPRMerged? && t.pullRequest.Some?
    case Completed => t.stage.Cleanup? && a.CompleteCleanup?
  }

  /** Nothing but these leads into a stage, and these do. */
  lemma EntersExactly(t: Task, a: Action, to: Stage)
    requires Numbered(t) && t.stage != to
    ensures Next(t, a).stage == to <==> Leads(t, a, to)
  {
  }

  /** The task is in this stage from the one moment to the other. */
  predicate Stays(actions: seq<Action>, from: nat, until: nat, stage: Stage) {
    forall k :: from <= k <= until && k <= |actions| ==> After(actions[..k]).stage == stage
  }

  /** The step that led the task where it still is at some moment. */
  predicate Entered(actions: seq<Action>, n: nat, k: nat) {
    n < k <= |actions| && Leads(After(actions[..n]), actions[n], After(actions[..k]).stage)
    && Stays(actions, n + 1, k, After(actions[..k]).stage)
  }

  lemma StageStep(actions: seq<Action>, k: nat)
    requires k < |actions| && After(actions[..k + 1]).stage != After(actions[..k]).stage
    ensures Leads(After(actions[..k]), actions[k], After(actions[..k + 1]).stage)
  {
    AfterStep(actions, k);
    AlwaysNumbered(actions[..k]);
    EntersExactly(After(actions[..k]), actions[k], After(actions[..k + 1]).stage);
  }

  lemma StaysSnoc(actions: seq<Action>, from: nat, k: nat, stage: Stage)
    requires from <= k + 1 <= |actions|
    ensures Stays(actions, from, k + 1, stage) <==> Stays(actions, from, k, stage) && After(actions[..k + 1]).stage == stage
  {
    if Stays(actions, from, k, stage) && After(actions[..k + 1]).stage == stage {
      forall j | from <= j <= k + 1 ensures After(actions[..j]).stage == stage { assert j == k + 1 || j <= k; }
    }
  }

  lemma StartsAtRequirements(actions: seq<Action>)
    ensures After(actions[..0]) == NEW_TASK
  {
    assert actions[..0] == [];
  }

  /** In every run, at every moment: the task never left its first stage, or one of the
      ways into its stage was taken and it has stayed there since. */
  lemma {:induction false} LastEntry(actions: seq<Action>, k: nat) returns (n: nat)
    requires k <= |actions| && !Stays(actions, 0, k, Requirements)
    ensures Entered(actions, n, k)
  {
    StartsAtRequirements(actions);
    if k > 0 {
      var stage, before := After(actions[..k]).stage, After(actions[..k - 1]).stage;
      if stage != before {
        StageStep(actions, k - 1);
        n := k - 1;
      } else {
        StaysSnoc(actions, 0, k - 1, Requirements);
        n := LastEntry(actions, k - 1);
        StaysSnoc(actions, n + 1, k - 1, stage);
      }
    }
  }

  /** A pull request is recorded while one is reviewed, and stays the one recorded until the next. */
  predicate RecordsPR(t: Task, a: Action) {
    t.stage.PRReview? && a.RecordPullRequest?
  }

  predicate LastRecorded(actions: seq<Action>, n: nat, k: nat) {
    && n < k <= |actions| && RecordsPR(After(actions[..n]), actions[n])
    && forall j :: n < j < k ==> !RecordsPR(After(actions[..j]), actions[j])
  }

  lemma PullRequestStep(actions: seq<Action>, k: nat)
    requires k < |actions|
    ensures After(actions[..k + 1]).pullRequest ==
            if RecordsPR(After(actions[..k]), actions[k]) then Some(actions[k].branch) else After(actions[..k]).pullRequest
  {
    AfterStep(actions, k);
  }

  lemma {:induction false} PullRequestRecorded(actions: seq<Action>, k: nat) returns (n: nat)
    requires k <= |actions| && After(actions[..k]).pullRequest.Some?
    ensures LastRecorded(actions, n, k) && After(actions[..k]).pullRequest == Some(actions[n].branch)
  {
    StartsAtRequirements(actions);
    if k > 0 {
      PullRequestStep(actions, k - 1);
      if RecordsPR(After(actions[..k - 1]), actions[k - 1]) {
        n := k - 1;
      } else {
        n := PullRequestRecorded(actions, k - 1);
      }
    }
  }

  predicate ApprovedAt(actions: seq<Action>, n: nat) {
    && n < |actions| && After(actions[..n]).stage.Review?
    && actions[n].FinalizeReview? && actions[n].decision.Approved?
  }

  predicate MergedAt(actions: seq<Action>, n: nat) {
    n < |actions| && After(actions[..n]).stage.PRReview? && actions[n].MarkPRMerged?
  }

  predicate CleanedAt(actions: seq<Action>, n: nat) {
    n < |actions| && After(actions[..n]).stage.Cleanup? && actions[n].CompleteCleanup?
  }

  /** A task whose pull request is reviewed was approved from review and not moved since. */
  lemma ApprovalStands(actions: seq<Action>, k: nat) returns (n: nat)
    requires k <= |actions| && After(actions[..k]).stage.PRReview?
    ensures n < k && ApprovedAt(actions, n) && Stays(actions, n + 1, k, PRReview)
  {
    assert !Stays(actions, 0, k, Requirements);
    n := LastEntry(actions, k);
  }

  /** In every run: a completed task was approved from review, stood at its pull
      request's review until that was marked merged, stood at cleanup until that was
      completed, and has stood completed since. The pull request merged is the one last
      recorded, itself recorded after an approval. Completing a cleanup is the only end. */
  lemma CompletedPassedAll(actions: seq<Action>) returns (first: nat, recorded: nat, approved: nat, merged: nat, cleaned: nat)
    requires After(actions).stage.Completed?
    ensures first < recorded < merged && approved < merged < cleaned
    ensures ApprovedAt(actions, first) && LastRecorded(actions, recorded, merged) && Stays(actions, first + 1, recorded, PRReview)
    ensures ApprovedAt(actions, approved) && MergedAt(actions, merged) && Stays(actions, approved + 1, merged, PRReview)
    ensures CleanedAt(actions, cleaned) && Stays(actions, merged + 1, cleaned, Cleanup)
    ensures Stays(actions, cleaned + 1, |actions|, Completed)
    ensures After(actions[..merged]).pullRequest == Some(actions[recorded].branch)
  {
    var n := |actions|;
    assert actions[..n] == actions;
    assert !Stays(actions, 0, n, Requirements);
    cleaned := LastEntry(actions, n);
    assert !Stays(actions, 0, cleaned, Requirements);
    merged := LastEntry(actions, cleaned);
    approved := ApprovalStands(actions, merged);
    recorded := PullRequestRecorded(actions, merged);
    first := ApprovalStands(actions, recorded);
  }

  // ---- Where every record comes from ----

  predicate Begins(t: Task, a: Action) {
    a.Begin? && t.stage.Implementation? && a.r !in t.flights && StartsFrom(t, a.continueFrom).Some?
  }

  /** The attempt begun at one moment is under way, as it began, until another. */
  predicate UnderWay(actions: seq<Action>, i: nat, k: nat) {
    && i < k <= |actions| && Begins(After(actions[..i]), actions[i])
    && forall j :: i < j <= k ==>
         var flights := After(actions[..j]).flights;
         actions[i].r in flights && flights[actions[i].r] == StartsFrom(After(actions[..i]), actions[i].continueFrom).value
  }

  /** Its result is reported at `j`, a success while the task is still at implementation. */
  predicate Attempted(actions: seq<Action>, i: nat, j: nat, e: Execution) {
    && j < |actions| && UnderWay(actions, i, j) && Ends(After(actions[..j]), actions[j]) && actions[j].r == actions[i].r
    && (actions[j].success ==> After(actions[..j]).stage.Implementation?)
    && var start, a := StartsFrom(After(actions[..i]), actions[i].continueFrom).value, actions[j];
       e == Execution(start.id, a.success, a.branch, if a.resolved then start.forkFrom else "", a.commits, a.message)
  }

  lemma FlightsMove(t: Task, a: Action, r: Request)
    ensures r in Next(t, a).flights <==> (r in t.flights && !(Ends(t, a) && a.r == r)) || (Begins(t, a) && a.r == r)
    ensures r in Next(t, a).flights ==>
              Next(t, a).flights[r] == if Begins(t, a) && a.r == r then StartsFrom(t, a.continueFrom).value else t.flights[r]
  {
  }

  lemma {:induction false} FlightBegan(actions: seq<Action>, k: nat, r: Request) returns (i: nat)
    requires k <= |actions| && r in After(actions[..k]).flights
    ensures UnderWay(actions, i, k) && actions[i].r == r
  {
    assert actions[..0] == [];
    if k > 0 {
      AfterStep(actions, k - 1);
      FlightsMove(After(actions[..k - 1]), actions[k - 1], r);
      if Begins(After(actions[..k - 1]), actions[k - 1]) && actions[k - 1].r == r {
        i := k - 1;
      } else {
        i := FlightBegan(actions, k - 1, r);
      }
    }
  }

  /** A step adds the result it reports, and no step removes one. */
  lemma RecordsMove(t: Task, a: Action, e: Execution)
    requires Numbered(t)
    ensures e in Next(t, a).executions <==>
            e in t.executions || (Ends(t, a) && (a.success ==> t.stage.Implementation?) && e == RecordOf(t, a))
  {
    if Enabled(t, a) && Records(t, a) {
      RecordedIs(t, a);
    }
  }

  lemma {:induction false} RecordCameFrom(actions: seq<Action>, k: nat, e: Execution) returns (i: nat, j: nat)
    requires k <= |actions| && e in After(actions[..k]).executions
    ensures Attempted(actions, i, j, e) && j < k
  {
    assert actions[..0] == [];
    if k > 0 {
      AfterStep(actions, k - 1);
      AlwaysNumbered(actions[..k - 1]);
      RecordsMove(After(actions[..k - 1]), actions[k - 1], e);
      if e in After(actions[..k - 1]).executions {
        i, j := RecordCameFrom(actions, k - 1, e);
      } else {
        i := FlightBegan(actions, k - 1, actions[k - 1].r);
        j := k - 1;
      }
    }
  }

  lemma {:induction false} RecordStays(actions: seq<Action>, j: nat, k: nat, e: Execution)
    requires j < k <= |actions| && e in After(actions[..j + 1]).executions
    ensures e in After(actions[..k]).executions
  {
    if k > j + 1 {
      RecordStays(actions, j, k - 1, e);
      AfterStep(actions, k - 1);
      AlwaysNumbered(actions[..k - 1]);
      RecordsMove(After(actions[..k - 1]), actions[k - 1], e);
    }
  }

  /** In every run the recorded executions are exactly what the attempts came to: each
      carries the id and fork its attempt was begun with and the result it was reported
      with, and each reported result is there, but for a success come too late. */
  lemma RecordedExactly(actions: seq<Action>, e: Execution)
    ensures e in After(actions).executions <==> exists i: nat, j: nat :: Attempted(actions, i, j, e)
  {
    var n := |actions|;
    assert actions[..n] == actions;
    if e in After(actions).executions {
      var i, j := RecordCameFrom(actions, n, e);
    }
    if i: nat, j: nat :| Attempted(actions, i, j, e) {
      AfterStep(actions, j);
      AlwaysNumbered(actions[..j]);
      RecordsMove(After(actions[..j]), actions[j], e);
      RecordStays(actions, j, n, e);
    }
  }

  /** The id of the newest execution recorded, 0 when there is none. */
  predicate Newest(es: seq<Execution>, id: nat) {
    (forall e :: e in es ==> e.id <= id) && (if es == [] then id == 0 else Recorded(es, id))
  }

  lemma LatestIsNewest(t: Task, id: nat)
    requires Numbered(t)
    ensures Newest(t.executions, id) <==> id == Latest(t)
  {
    if t.executions != [] {
      LatestRecorded(t);
      assert Last(t.executions) in t.executions;
      forall e | e in t.executions ensures e.id <= Latest(t) {
        var i :| 0 <= i < |t.executions| && t.executions[i] == e;
      }
    }
  }

  predicate Gives(t: Task, a: Action) {
    a.FinalizeReview? && (t.stage.Review? || (t.stage.PRReview? && !a.decision.Approved?))
  }

  /** Among the reviews is this verdict, about what was newest when it was given. */
  predicate Given(t: Task, a: Action, reviews: seq<Verdict>) {
    && a.FinalizeReview? && t.reviews < reviews
    && var v := reviews[|t.reviews|]; v.decision == a.decision && v.notes == a.notes && Newest(t.executions, v.execution)
  }

  lemma ReviewsMove(t: Task, a: Action)
    requires Numbered(t)
    ensures Gives(t, a) ==> Given(t, a, Next(t, a).reviews) && |Next(t, a).reviews| == |t.reviews| + 1
    ensures !Gives(t, a) ==> Next(t, a).reviews == t.reviews
  {
    LatestIsNewest(t, Latest(t));
  }

  lemma {:induction false} VerdictsGrow(actions: seq<Action>, n: nat, k: nat)
    requires n <= k <= |actions|
    ensures After(actions[..n]).reviews <= After(actions[..k]).reviews
    ensures n < k && Gives(After(actions[..n]), actions[n]) ==> Given(After(actions[..n]), actions[n], After(actions[..k]).reviews)
  {
    if n < k {
      VerdictsGrow(actions, n, k - 1);
      AfterStep(actions, k - 1);
      AlwaysNumbered(actions[..k - 1]);
      ReviewsMove(After(actions[..k - 1]), actions[k - 1]);
    }
  }

  lemma {:induction false} VerdictWasGiven(actions: seq<Action>, i: nat, k: nat) returns (n: nat)
    requires k <= |actions| && i < |After(actions[..k]).reviews|
    ensures n < k && Gives(After(actions[..n]), actions[n]) && |After(actions[..n]).reviews| == i
  {
    assert actions[..0] == [];
    if k > 0 {
      AfterStep(actions, k - 1);
      AlwaysNumbered(actions[..k - 1]);
      ReviewsMove(After(actions[..k - 1]), actions[k - 1]);
      if i < |After(actions[..k - 1]).reviews| {
        n := VerdictWasGiven(actions, i, k - 1);
      } else {
        n := k - 1;
      }
    }
  }

  /** The verdict given at this moment is the run's `i`-th. */
  predicate GivenAt(actions: seq<Action>, n: nat, i: nat) {
    n < |actions| && Gives(After(actions[..n]), actions[n]) && |After(actions[..n]).reviews| == i
  }

  ghost predicate WasGiven(actions: seq<Action>, i: nat) {
    exists n: nat :: GivenAt(actions, n, i)
  }

  lemma VerdictKept(actions: seq<Action>, n: nat, i: nat)
    requires GivenAt(actions, n, i)
    ensures Given(After(actions[..n]), actions[n], After(actions).reviews)
  {
    assert actions[..|actions|] == actions;
    VerdictsGrow(actions, n, |actions|);
  }

  /** In every run the reviews are exactly the verdicts given, in order: each was given
      when the task was reviewed, about the execution newest then, and none is lost. */
  lemma ReviewsExactly(actions: seq<Action>)
    ensures forall i: nat :: i < |After(actions).reviews| <==> WasGiven(actions, i)
    ensures forall n: nat, i: nat :: GivenAt(actions, n, i) ==> Given(After(actions[..n]), actions[n], After(actions).reviews)
  {
    forall n: nat, i: nat | GivenAt(actions, n, i) ensures Given(After(actions[..n]), actions[n], After(actions).reviews) {
      VerdictKept(actions, n, i);
    }
    forall i: nat | i < |After(actions).reviews| ensures WasGiven(actions, i) {
      assert actions[..|actions|] == actions;
      var n := VerdictWasGiven(actions, i, |actions|);
      assert GivenAt(actions, n, i);
    }
  }

  /** The newest execution, if it failed with something committed. */
  predicate Failed(t: Task, e: Execution) {
    e in t.executions && Newest(t.executions, e.id) && !e.success && e.commits > 0
  }

  lemma FailedIsLatest(t: Task, e: Execution)
    requires Numbered(t) && e in t.executions && Newest(t.executions, e.id)
    ensures e == Last(t.executions)
  {
    LatestIsNewest(t, e.id);
    var i :| 0 <= i < |t.executions| && t.executions[i] == e;
  }

  /** A human may continue an attempt exactly if it is the newest, it failed with commits,
      and no review's branch owns the fork; the new attempt forks its branch and is told
      why it failed. Without a review asking for changes, a plain start is from nothing. */
  lemma ContinuesExactly(t: Task, id: nat, flight: Flight)
    requires Numbered(t)
    ensures var (fork, feedback) := ReviewContinuation(t);
            StartsFrom(t, Some(id)) == Some(flight) <==>
              fork == "" && exists e :: Failed(t, e) && e.id == id && flight == Flight(t.logged + 1, e.branch, feedback, e.message)
    ensures t.reviews == [] || !Last(t.reviews).decision.NeedsChanges? ==> StartsFrom(t, None) == Some(Flight(t.logged + 1, "", "", ""))
  {
    if t.executions != [] {
      var e := Last(t.executions);
      LatestIsNewest(t, e.id);
      assert Failed(t, e) <==> !e.success && e.commits > 0;
    }
    forall e | Failed(t, e) ensures t.executions != [] && e == Last(t.executions) { FailedIsLatest(t, e); }
  }

  // ---- The store and the resolvers as the source runs them ----

  /** A fresh lookup for every attempt, in listing order, stopping at the first match. */
  method ResolveReviewContinuation(t: Task) returns (forkFrom: string, feedback: string)
    ensures (forkFrom, feedback) == ReviewContinuation(t)
  {
    if t.reviews == [] || !Last(t.reviews).decision.NeedsChanges? {
      return "", "";
    }
    var latest := Last(t.reviews);
    forkFrom, feedback := "", latest.notes;
    var i := 0;
    while i < |t.executions|
      invariant 0 <= i <= |t.executions| && forkFrom == ""
      invariant BranchOf(t.executions, latest.execution) == BranchOf(t.executions[i..], latest.execution)
    {
      if t.executions[i].id == latest.execution {
        forkFrom := t.executions[i].branch;
        break;
      }
      assert t.executions[i..][1..] == t.executions[i + 1..];
      i := i + 1;
    }
  }

  method ResolveFailureContinuation(t: Task, reviewFork: string) returns (offer: Option<Offer>)
    ensures offer == FailureContinuation(t, reviewFork)
  {
    if reviewFork != "" || t.executions == [] {
      return None;
    }
    var latest := Last(t.executions);
    if latest.success || latest.commits == 0 {
      return None;
    }
    return Some(Offer(latest.id, latest.branch, latest.message));
  }

  class TaskStore {
    var stage: Stage
    var executions: seq<Execution>
    var reviews: seq<Verdict>
    var pullRequest: Option<string>
    var flights: map<Request, Flight>
    var logged: nat

    ghost function Abs(): Task
      reads this
    {
      Task(stage, executions, reviews, pullRequest, flights, logged)
    }

    constructor ()
      ensures Abs() == NEW_TASK
    {
      stage, executions, reviews, pullRequest, flights, logged := Requirements, [], [], None, map[], 0;
    }

    method FinalizeRequirementsStage() returns (ok: bool)
      modifies this`stage
      ensures ok == Enabled(old(Abs()), FinalizeRequirements) && Abs() == Next(old(Abs()), FinalizeRequirements)
    {
      ok := stage.Requirements?;
      if ok {
        stage := Planning;
      }
    }

    method FinalizePlanStage() returns (ok: bool)
      modifies this`stage
      ensures ok == Enabled(old(Abs()), FinalizePlan) && Abs() == Next(old(Abs()), FinalizePlan)
    {
      ok := stage.Planning?;
      if ok {
        stage := Implementation;
      }
    }

    method ReviseToRequirementsStage() returns (ok: bool)
      modifies this`stage
      ensures ok == Enabled(old(Abs()), ReviseToRequirements) && Abs() == Next(old(Abs()), ReviseToRequirements)
    {
      ok := stage.Planning?;
      if ok {
        stage := Requirements;
      }
    }

    method ReviseToPlanningStage() returns (ok: bool)
      modifies this`stage
      ensures ok == Enabled(old(Abs()), ReviseToPlanning) && Abs() == Next(old(Abs()), ReviseToPlanning)
    {
      ok := stage.Implementation? || stage.Review?;
      if ok {
        stage := Planning;
      }
    }

    method FinalizeReviewStage(decision: Decision, notes: string) returns (ok: bool)
      modifies this`stage, this`reviews
      ensures ok == Enabled(old(Abs()), FinalizeReview(decision, notes))
      ensures Abs() == Next(old(Abs()), FinalizeReview(decision, notes))
    {
      if !stage.Review? && !stage.PRReview? {
        return false;
      }
      if decision.Approved? && !stage.Review? {
        return false;
      }
      var id := 0;
      if |executions| > 0 {
        id := Last(executions).id;
      }
      reviews := reviews + [Verdict(id, decision, notes)];
      match decision {
        case Approved => stage := PRReview;
        case NeedsChanges => stage := Implementation;
        case Rejected => stage := Requirements;
      }
      return true;
    }

    method RecordPR(branch: string) returns (ok: bool)
      modifies this`pullRequest
      ensures ok == Enabled(old(Abs()), RecordPullRequest(branch)) && Abs() == Next(old(Abs()), RecordPullRequest(branch))
    {
      ok := stage.PRReview?;
      if ok {
        pullRequest := Some(branch);
      }
    }

    method MarkMerged() returns (ok: bool)
      modifies this`stage
      ensures ok == Enabled(old(Abs()), MarkPRMerged) && Abs() == Next(old(Abs()), MarkPRMerged)
    {
      ok := stage.PRReview? && pullRequest.Some?;
      if ok {
        stage := Cleanup;
      }
    }

    method Complete() returns (ok: bool)
      modifies this`stage
      ensures ok == Enabled(old(Abs()), CompleteCleanup) && Abs() == Next(old(Abs()), CompleteCleanup)
    {
      ok := stage.Cleanup?;
      if ok {
        stage := Completed;
      }
    }

    /** Validates the human's choice afresh, then reserves the next id with its log. */
    method StartExecution(r: Request, continueFrom: Option<nat>) returns (ok: bool)
      modifies this`flights, this`logged
      ensures ok == Enabled(old(Abs()), Begin(r, continueFrom)) && Abs() == Next(old(Abs()), Begin(r, continueFrom))
    {
      if !stage.Implementation? || r in flights {
        return false;
      }
      var t := Task(stage, executions, reviews, pullRequest, flights, logged);
      var forkFrom, feedback := ResolveReviewContinuation(t);
      var offer := ResolveFailureContinuation(t, forkFrom);
      var prior := "";
      if continueFrom.Some? {
        if offer.None? || continueFrom.value != offer.value.id {
          return false;
        }
        forkFrom, prior := offer.value.branch, offer.value.message;
      }
      logged := logged + 1;
      flights := flights[r := Flight(logged, forkFrom, feedback, prior)];
      return true;
    }

    method RecordExecution(r: Request, success: bool, resolved: bool, branch: string, commits: nat, message: string)
      requires r in flights && (success ==> resolved) && (resolved <==> branch != "")
      modifies this`stage, this`executions, this`flights
      ensures Abs() == Next(old(Abs()), End(r, success, resolved, branch, commits, message))
    {
      var flight := flights[r];
      flights := flights - {r};
      if success && !stage.Implementation? {
        return;
      }
      if exists i :: 0 <= i < |executions| && executions[i].id == flight.id {
        return;
      }
      var e := Execution(flight.id, success, branch, if resolved then flight.forkFrom else "", commits, message);
      executions := Inserted(executions, e);
      if success {
        stage := Review;
      }
    }

    /** One request: the method of the store it ends up in, or a refusal. */
    method Handle(a: Action)
      modifies this
      ensures Abs() == Next(old(Abs()), a)
    {
      var ok;
      match a {
        case FinalizeRequirements => ok := FinalizeRequirementsStage();
        case FinalizePlan => ok := FinalizePlanStage();
        case FinalizeReview(decision, notes) => ok := FinalizeReviewStage(decision, notes);
        case ReviseToRequirements => ok := ReviseToRequirementsStage();
        case ReviseToPlanning => ok := ReviseToPlanningStage();
        case RecordPullRequest(branch) => ok := RecordPR(branch);
        case MarkPRMerged => ok := MarkMerged();
        case CompleteCleanup => ok := Complete();
        case Begin(r, continueFrom) => ok := StartExecution(r, continueFrom);
        case End(r, success, resolved, branch, commits, message) =>
          if r in flights && (success ==> resolved) && (resolved <==> branch != "") {
            RecordExecution(r, success, resolved, branch, commits, message);
          }
      }
    }
  }

  /** A task's whole history, request by request, is the run every fact above is about. */
  method Serve(actions: seq<Action>) returns (store: TaskStore)
    ensures fresh(store) && store.Abs() == After(actions)
  {
    store := new TaskStore();
    for i := 0 to |actions|
      invariant fresh(store) && store.Abs() == After(actions[..i])
    {
      AfterStep(actions, i);
      store.Handle(actions[i]);
    }
    assert actions[..|actions|] == actions;
  }
}
