/**
 Subagent calls and their real output (subagentTracker and its wrappers,
 internal/agentrunner/claude_runner.go): the launch acknowledgment of a
 subagent call is held back and its awaited output emitted in its place.
 */
module Subagents {
  import opened Options
  import opened ToolActivityBlocks
  import opened StageTurn
  import ClaudeTurn
  import Sequences

  const INCOMPLETE_NOTE := "(subagent did not report completion before the turn deadline)"
  const SUBAGENT_CALL_NAME := "Agent"

  predicate IsSubagentCall(name: string) {
    name == SUBAGENT_CALL_NAME || name == "Task"
  }

  datatype Task = Task(id: string, name: string)
  datatype Finished = Finished(agentID: string, outcome: Outcome)
  datatype Tracker = Tracker(
    started: nat, stopped: nat,
    tasks: seq<Task>, placeholders: map<string, string>, results: seq<Finished>)

  const NEW_TRACKER := Tracker(0, 0, [], map[], [])

  function IndexOf(tasks: seq<Task>, id: string): (i: nat)
    ensures i <= |tasks|
    ensures i < |tasks| ==> tasks[i].id == id
    ensures forall k :: 0 <= k < i ==> tasks[k].id != id
  {
    if tasks == [] || tasks[0].id == id then 0 else 1 + IndexOf(tasks[1..], id)
  }

  function WithoutAt<T>(s: seq<T>, i: nat): seq<T> {
    if i < |s| then s[..i] + s[i + 1..] else s
  }

  function WithoutTask(tasks: seq<Task>, id: string): seq<Task> {
    WithoutAt(tasks, IndexOf(tasks, id))
  }

  /** The turn goroutine's stream, interleaved with the SDK's hook goroutines. */
  datatype Op = Stream(e: Event) | HookStart | HookStop(f: Finished)

  predicate HeldBack(e: Event) {
    e.ToolResult? && IsSubagentCall(e.name) && !e.outcome.isError
  }

  function Tracked(t: Tracker, op: Op): Tracker {
    match op
    case HookStart => t.(started := t.started + 1)
    case HookStop(f) => t.(stopped := t.stopped + 1, results := t.results + [f])
    case Stream(e) =>
      match e
      case TextDelta(_) => t
      case ToolCall(id, name, _) => if IsSubagentCall(name) then t.(tasks := t.tasks + [Task(id, name)]) else t
      case ToolResult(id, name, o) =>
        if !IsSubagentCall(name) then t
        else if o.isError then t.(tasks := WithoutTask(t.tasks, id), placeholders := t.placeholders - {id})
        else t.(placeholders := t.placeholders[id := o.result])
  }

  function After(ops: seq<Op>): Tracker {
    if ops == [] then NEW_TRACKER else Tracked(After(ops[..|ops| - 1]), ops[|ops| - 1])
  }

  function StreamOf(ops: seq<Op>): seq<Event> {
    if ops == [] then []
    else StreamOf(ops[..|ops| - 1]) + match ops[|ops| - 1] { case Stream(e) => [e] case _ => [] }
  }

  /** The stream without its held-back acknowledgments, everything else in order. */
  function Passed(es: seq<Event>): seq<Event> {
    if es == [] then [] else Passed(es[..|es| - 1]) + if HeldBack(es[|es| - 1]) then [] else [es[|es| - 1]]
  }

  function TaskOutput(t: Tracker, i: nat): Outcome
    requires i < |t.tasks|
  {
    if i < |t.results| then t.results[i].outcome
    else if t.tasks[i].id in t.placeholders && t.placeholders[t.tasks[i].id] != "" then
      Outcome(t.placeholders[t.tasks[i].id], false)
    else Outcome(INCOMPLETE_NOTE, true)
  }

  function TaskOutputs(t: Tracker): seq<Event> {
    seq(|t.tasks|, i requires 0 <= i < |t.tasks| => ToolResult(t.tasks[i].id, t.tasks[i].name, TaskOutput(t, i)))
  }

  function Strays(t: Tracker): seq<Event> {
    if |t.results| <= |t.tasks| then []
    else seq(|t.results| - |t.tasks|, i requires 0 <= i < |t.results| - |t.tasks| =>
               var f := t.results[|t.tasks| + i]; ToolResult(f.agentID, SUBAGENT_CALL_NAME, f.outcome))
  }

  function Collected(t: Tracker): seq<Event> {
    TaskOutputs(t) + Strays(t)
  }

  // ---- Every subagent call gets exactly one result ----

  function ResultCount(es: seq<Event>, id: string): nat {
    if es == [] then 0
    else ResultCount(es[..|es| - 1], id) + if es[|es| - 1].ToolResult? && es[|es| - 1].id == id then 1 else 0
  }

  lemma {:induction false} ResultCountAppend(a: seq<Event>, b: seq<Event>, id: string)
    ensures ResultCount(a + b, id) == ResultCount(a, id) + ResultCount(b, id)
  {
    if b == [] {
      assert a + b == a;
    } else {
      ResultCountAppend(a, b[..|b| - 1], id);
      assert (a + b)[..|a + b| - 1] == a + b[..|b| - 1];
    }
  }

  predicate Answers(es: seq<Event>, id: string) {
    exists e :: e in es && e.ToolResult? && e.id == id
  }

  /** Results of a stream with pairwise distinct result ids. */
  lemma {:induction false} CountDistinct(es: seq<Event>, id: string)
    requires UniqueResults(es)
    ensures ResultCount(es, id) == if Answers(es, id) then 1 else 0
  {
    if es != [] {
      var p, last := es[..|es| - 1], es[|es| - 1];
      CountDistinct(p, id);
      assert es == p + [last];
      if Answers(p, id) {
        var e :| e in p && e.ToolResult? && e.id == id;
        assert e in es;
      }
    }
  }

  /** The provider's promises about the stream a turn's wrapper sees. */
  predicate Correlated(es: seq<Event>) {
    UniqueCalls(es) && UniqueResults(es) && Echoes(es)
  }

  lemma CorrelatedPrefix(es: seq<Event>)
    requires es != [] && Correlated(es)
    ensures Correlated(es[..|es| - 1])
  {
  }

  predicate DistinctTasks(tasks: seq<Task>) {
    forall i, j :: 0 <= i < j < |tasks| ==> tasks[i].id != tasks[j].id
  }

  predicate Awaited(tasks: seq<Task>, id: string) {
    exists i :: 0 <= i < |tasks| && tasks[i].id == id
  }

  predicate CalledSubagent(es: seq<Event>, id: string) {
    exists i :: 0 <= i < |es| && es[i].ToolCall? && es[i].id == id && IsSubagentCall(es[i].name)
  }

  /** Between calls and collection: a subagent call is either still awaited and
      unanswered, or was answered inline by its failed launch. */
  ghost predicate AccountedFor(tasks: seq<Task>, es: seq<Event>, id: string) {
    && (Awaited(tasks, id) ==> CalledSubagent(es, id))
    && (CalledSubagent(es, id) ==> ResultCount(Passed(es), id) == if Awaited(tasks, id) then 0 else 1)
  }

  ghost predicate Accounted(tasks: seq<Task>, es: seq<Event>) {
    DistinctTasks(tasks) && forall id :: AccountedFor(tasks, es, id)
  }

  lemma PassedSnoc(es: seq<Event>, id: string)
    requires es != []
    ensures var e := es[|es| - 1];
            ResultCount(Passed(es), id) == ResultCount(Passed(es[..|es| - 1]), id) +
              if e.ToolResult? && !HeldBack(e) && e.id == id then 1 else 0
  {
    var p, e := es[..|es| - 1], es[|es| - 1];
    if HeldBack(e) {
      assert Passed(es) == Passed(p);
    } else {
      assert Passed(es) == Passed(p) + [e];
      assert (Passed(p) + [e])[..|Passed(p)|] == Passed(p);
    }
  }

  lemma CalledSnoc(es: seq<Event>, id: string)
    requires es != []
    ensures var e := es[|es| - 1];
            CalledSubagent(es, id) <==> CalledSubagent(es[..|es| - 1], id) || (e.ToolCall? && e.id == id && IsSubagentCall(e.name))
  {
    var p := es[..|es| - 1];
    if i :| 0 <= i < |p| && p[i].ToolCall? && p[i].id == id && IsSubagentCall(p[i].name) {
      assert es[i] == p[i];
    }
  }

  lemma {:induction false} UncalledUnanswered(es: seq<Event>, id: string)
    requires forall i :: 0 <= i < |es| && es[i].ToolResult? ==> es[i].id != id
    ensures ResultCount(Passed(es), id) == 0
  {
    if es != [] {
      UncalledUnanswered(es[..|es| - 1], id);
      PassedSnoc(es, id);
    }
  }

  lemma AwaitedWithout(tasks: seq<Task>, id: string)
    requires DistinctTasks(tasks)
    ensures DistinctTasks(WithoutTask(tasks, id))
    ensures forall x :: Awaited(WithoutTask(tasks, id), x) <==> Awaited(tasks, x) && x != id
  {
    var i := IndexOf(tasks, id);
    if i < |tasks| {
      var rest := WithoutTask(tasks, id);
      forall x ensures Awaited(rest, x) <==> Awaited(tasks, x) && x != id {
        if k :| 0 <= k < |rest| && rest[k].id == x {
          assert rest[k] == tasks[if k < i then k else k + 1];
        }
        if k :| 0 <= k < |tasks| && tasks[k].id == x && x != id {
          assert tasks[k] == rest[if k < i then k else k - 1];
        }
      }
    }
  }

  lemma AwaitedSnoc(tasks: seq<Task>, t: Task)
    ensures forall x :: Awaited(tasks + [t], x) <==> Awaited(tasks, x) || x == t.id
  {
    forall x ensures Awaited(tasks + [t], x) <==> Awaited(tasks, x) || x == t.id {
      if k :| 0 <= k < |tasks| && tasks[k].id == x {
        assert (tasks + [t])[k].id == x;
      }
      assert (tasks + [t])[|tasks|] == t;
    }
  }

  lemma CalledAt(es: seq<Event>, i: nat)
    requires i < |es| && es[i].ToolCall?
    ensures es[i].id in CalledIds(es)
  {
  }

  /** A call is new, and answers nothing. */
  lemma CallIsNew(tasks: seq<Task>, es: seq<Event>)
    requires es != [] && Correlated(es) && Accounted(tasks, es[..|es| - 1]) && es[|es| - 1].ToolCall?
    ensures var p, e := es[..|es| - 1], es[|es| - 1];
            !Awaited(tasks, e.id) && ResultCount(Passed(p), e.id) == 0
  {
    var p, e := es[..|es| - 1], es[|es| - 1];
    UncalledUnanswered(p, e.id);
    assert AccountedFor(tasks, p, e.id);
    if CalledSubagent(p, e.id) {
      var i :| 0 <= i < |p| && p[i].ToolCall? && p[i].id == e.id && IsSubagentCall(p[i].name);
      CalledAt(p, i);
    }
  }

  lemma AccountedCall(tasks: seq<Task>, es: seq<Event>)
    requires es != [] && Correlated(es) && Accounted(tasks, es[..|es| - 1]) && es[|es| - 1].ToolCall?
    ensures var e := es[|es| - 1];
            Accounted(if IsSubagentCall(e.name) then tasks + [Task(e.id, e.name)] else tasks, es)
  {
    var e := es[|es| - 1];
    var tasks' := if IsSubagentCall(e.name) then tasks + [Task(e.id, e.name)] else tasks;
    CallIsNew(tasks, es);
    AwaitedSnoc(tasks, Task(e.id, e.name));
    forall id ensures AccountedFor(tasks', es, id) {
      assert AccountedFor(tasks, es[..|es| - 1], id);
      PassedSnoc(es, id);
      CalledSnoc(es, id);
    }
    assert DistinctTasks(tasks') by {
      forall i | 0 <= i < |tasks| ensures tasks[i].id != e.id {
        assert Awaited(tasks, tasks[i].id);
      }
    }
  }

  /** What one result changes: its own count, unless held back, and no call. */
  lemma ResultMoves(es: seq<Event>, id: string)
    requires es != [] && es[|es| - 1].ToolResult?
    ensures var p, e := es[..|es| - 1], es[|es| - 1];
            && ResultCount(Passed(es), id) == ResultCount(Passed(p), id) + (if !HeldBack(e) && e.id == id then 1 else 0)
            && (CalledSubagent(es, id) <==> CalledSubagent(p, id))
  {
    PassedSnoc(es, id);
    CalledSnoc(es, id);
  }

  /** A subagent call's result arrives under a subagent name, with none before it. */
  lemma ResultOfSubagent(es: seq<Event>)
    requires es != [] && Correlated(es) && es[|es| - 1].ToolResult?
    ensures var p, e := es[..|es| - 1], es[|es| - 1];
            && ResultCount(Passed(p), e.id) == 0
            && (CalledSubagent(p, e.id) ==> IsSubagentCall(e.name))
  {
    var p, e := es[..|es| - 1], es[|es| - 1];
    UncalledUnanswered(p, e.id);
    if CalledSubagent(p, e.id) {
      var i :| 0 <= i < |p| && p[i].ToolCall? && p[i].id == e.id && IsSubagentCall(p[i].name);
      assert es[i] == p[i];
    }
  }

  lemma AccountedResult(tasks: seq<Task>, es: seq<Event>)
    requires es != [] && Correlated(es) && Accounted(tasks, es[..|es| - 1]) && es[|es| - 1].ToolResult?
    ensures var e := es[|es| - 1];
            Accounted(if IsSubagentCall(e.name) && e.outcome.isError then WithoutTask(tasks, e.id) else tasks, es)
  {
    var e := es[|es| - 1];
    var tasks' := if IsSubagentCall(e.name) && e.outcome.isError then WithoutTask(tasks, e.id) else tasks;
    ResultOfSubagent(es);
    AwaitedWithout(tasks, e.id);
    forall id ensures AccountedFor(tasks', es, id) {
      assert AccountedFor(tasks, es[..|es| - 1], id);
      ResultMoves(es, id);
    }
  }

  lemma AccountedText(tasks: seq<Task>, es: seq<Event>)
    requires es != [] && Accounted(tasks, es[..|es| - 1]) && es[|es| - 1].TextDelta?
    ensures Accounted(tasks, es)
  {
    forall id ensures AccountedFor(tasks, es, id) {
      assert AccountedFor(tasks, es[..|es| - 1], id);
      PassedSnoc(es, id);
      CalledSnoc(es, id);
    }
  }

  lemma {:induction false} StaysAccounted(ops: seq<Op>)
    requires Correlated(StreamOf(ops))
    ensures Accounted(After(ops).tasks, StreamOf(ops))
  {
    if ops != [] {
      var prefix, op := ops[..|ops| - 1], ops[|ops| - 1];
      var es := StreamOf(ops);
      if op.Stream? {
        assert es[..|es| - 1] == StreamOf(prefix);
        CorrelatedPrefix(es);
        StaysAccounted(prefix);
        match op.e
        case TextDelta(_) => AccountedText(After(prefix).tasks, es);
        case ToolCall(_, _, _) => AccountedCall(After(prefix).tasks, es);
        case ToolResult(_, _, _) => AccountedResult(After(prefix).tasks, es);
      } else {
        assert es == StreamOf(prefix);
        StaysAccounted(prefix);
      }
    }
  }

  lemma TaskOutputCount(t: Tracker, id: string)
    requires DistinctTasks(t.tasks)
    ensures ResultCount(TaskOutputs(t), id) == if Awaited(t.tasks, id) then 1 else 0
  {
    var es := TaskOutputs(t);
    assert UniqueResults(es);
    CountDistinct(es, id);
    if Answers(es, id) {
      var k :| 0 <= k < |es| && es[k].ToolResult? && es[k].id == id;
      assert t.tasks[k].id == id;
    }
    if Awaited(t.tasks, id) {
      var k :| 0 <= k < |t.tasks| && t.tasks[k].id == id;
      assert es[k] in es && es[k].ToolResult? && es[k].id == id;
    }
  }

  /** The hooks name agents by ids of their own, never by a call's id. */
  predicate ForeignAgents(t: Tracker, es: seq<Event>) {
    forall i :: 0 <= i < |t.results| ==> t.results[i].agentID !in CalledIds(es)
  }

  lemma {:induction false} NoResultNamed(es: seq<Event>, id: string)
    requires forall i :: 0 <= i < |es| && es[i].ToolResult? ==> es[i].id != id
    ensures ResultCount(es, id) == 0
  {
    if es != [] {
      NoResultNamed(es[..|es| - 1], id);
    }
  }

  /** What the caller's own callbacks receive: an error result ends the turn before
      anything is collected. */
  function Delivered(ops: seq<Op>, ending: ClaudeTurn.Ending): seq<Event> {
    Passed(StreamOf(ops)) + if ending.Failed? then [] else Collected(After(ops))
  }

  /** The launch of this call failed, and said so under a subagent's name. */
  predicate FailedInline(es: seq<Event>, id: string) {
    exists i :: 0 <= i < |es| && es[i].ToolResult? && es[i].id == id && IsSubagentCall(es[i].name) && es[i].outcome.isError
  }

  lemma FailedSnoc(es: seq<Event>, id: string)
    requires es != []
    ensures var e := es[|es| - 1];
            FailedInline(es, id) <==>
              FailedInline(es[..|es| - 1], id) || (e.ToolResult? && e.id == id && IsSubagentCall(e.name) && e.outcome.isError)
  {
    var p := es[..|es| - 1];
    if i :| 0 <= i < |p| && p[i].ToolResult? && p[i].id == id && IsSubagentCall(p[i].name) && p[i].outcome.isError {
      assert es[i] == p[i];
    }
  }

  predicate SubagentResults(es: seq<Event>, id: string) {
    forall i :: 0 <= i < |es| && es[i].ToolResult? && es[i].id == id ==> IsSubagentCall(es[i].name)
  }

  /** The last of a stream's results has no other before it. */
  lemma FirstResult(es: seq<Event>)
    requires es != [] && UniqueResults(es)
    ensures var p, e := es[..|es| - 1], es[|es| - 1];
            UniqueResults(p) && (e.ToolResult? ==> ResultCount(Passed(p), e.id) == 0)
  {
    var p, e := es[..|es| - 1], es[|es| - 1];
    if e.ToolResult? {
      UncalledUnanswered(p, e.id);
    }
  }

  lemma {:induction false} InlineCount(es: seq<Event>, id: string)
    requires UniqueResults(es) && SubagentResults(es, id)
    ensures ResultCount(Passed(es), id) == if FailedInline(es, id) then 1 else 0
  {
    if es != [] {
      var p := es[..|es| - 1];
      FirstResult(es);
      assert SubagentResults(p, id);
      InlineCount(p, id);
      PassedSnoc(es, id);
      FailedSnoc(es, id);
    }
  }

  lemma CallInlineCount(es: seq<Event>, id: string)
    requires Correlated(es) && CalledSubagent(es, id)
    ensures ResultCount(Passed(es), id) == if FailedInline(es, id) then 1 else 0
  {
    var c :| 0 <= c < |es| && es[c].ToolCall? && es[c].id == id && IsSubagentCall(es[c].name);
    assert SubagentResults(es, id) by {
      forall i | 0 <= i < |es| && es[i].ToolResult? && es[i].id == id ensures IsSubagentCall(es[i].name) {
        assert i < c || c < i;
      }
    }
    InlineCount(es, id);
  }

  lemma CollectedOnce(ops: seq<Op>, id: string)
    requires Correlated(StreamOf(ops)) && ForeignAgents(After(ops), StreamOf(ops))
    requires CalledSubagent(StreamOf(ops), id)
    ensures ResultCount(Passed(StreamOf(ops)) + Collected(After(ops)), id) == 1
  {
    var t, es := After(ops), StreamOf(ops);
    StaysAccounted(ops);
    assert AccountedFor(t.tasks, es, id);
    ResultCountAppend(Passed(es), Collected(t), id);
    ResultCountAppend(TaskOutputs(t), Strays(t), id);
    TaskOutputCount(t, id);
    var i :| 0 <= i < |es| && es[i].ToolCall? && es[i].id == id && IsSubagentCall(es[i].name);
    assert es[i] in es;
    NoResultNamed(Strays(t), id);
  }

  /** Whatever the hook goroutines do, a subagent call gets exactly one result if and
      only if the turn did not end in an error result or the launch failed inline;
      otherwise it gets none. */
  lemma ExactlyOneResult(ops: seq<Op>, ending: ClaudeTurn.Ending, id: string)
    requires Correlated(StreamOf(ops)) && ForeignAgents(After(ops), StreamOf(ops))
    requires CalledSubagent(StreamOf(ops), id)
    ensures ResultCount(Delivered(ops, ending), id) ==
            if !ending.Failed? || FailedInline(StreamOf(ops), id) then 1 else 0
  {
    if ending.Failed? {
      CallInlineCount(StreamOf(ops), id);
      assert Passed(StreamOf(ops)) + [] == Passed(StreamOf(ops));
    } else {
      CollectedOnce(ops, id);
    }
  }

  lemma StreamSnoc(ops: seq<Op>, e: Event)
    ensures StreamOf(ops + [Stream(e)]) == StreamOf(ops) + [e]
    ensures Passed(StreamOf(ops) + [e]) == Passed(StreamOf(ops)) + if HeldBack(e) then [] else [e]
  {
    assert (ops + [Stream(e)])[..|ops|] == ops;
    assert (StreamOf(ops) + [e])[..|StreamOf(ops)|] == StreamOf(ops);
  }

  lemma CallThenResult(c: Event, r: Event)
    requires c.ToolCall? && r.ToolResult? && r.id == c.id && r.name == c.name
    ensures Correlated([c, r])
    ensures IsSubagentCall(c.name) ==> CalledSubagent([c, r], c.id)
  {
    var es := [c, r];
    assert es[0] == c && es[1] == r && [c][0] == c;
    assert [c][..0] == [] && es[..1] == [c];
    assert UniqueCalls([]) && CalledIds([]) == {};
    assert UniqueCalls([c]);
  }

  /** An error result leaves a launched call dangling: its acknowledgment was held
      back and its output is never collected. */
  lemma ErrorResultLosesOutput() returns (ops: seq<Op>)
    ensures Correlated(StreamOf(ops)) && CalledSubagent(StreamOf(ops), "a")
    ensures Delivered(ops, ClaudeTurn.Failed) == [ToolCall("a", "Agent", "{}")]
    ensures ResultCount(Delivered(ops, ClaudeTurn.Failed), "a") == 0
  {
    var c, r := ToolCall("a", SUBAGENT_CALL_NAME, "{}"), ToolResult("a", SUBAGENT_CALL_NAME, Outcome("launched", false));
    ops := [] + [Stream(c)] + [Stream(r)];
    StreamSnoc([], c);
    StreamSnoc([] + [Stream(c)], r);
    assert StreamOf([]) == [] && Passed([]) == [] && [] + [c] == [c] && [c] + [r] == [c, r];
    CallThenResult(c, r);
    NoResultNamed([c], "a");
    Sequences.Unit([c]);
  }

  /** Every finished subagent's output surfaces exactly once and in stop order;
      a call without one falls back, so none dangles. */
  lemma CollectedInStopOrder(t: Tracker)
    ensures |Collected(t)| == if |t.tasks| < |t.results| then |t.results| else |t.tasks|
    ensures forall i :: 0 <= i < |t.results| ==> Collected(t)[i].ToolResult? && Collected(t)[i].outcome == t.results[i].outcome
    ensures forall i :: 0 <= i < |t.tasks| ==>
              Collected(t)[i].ToolResult? && Collected(t)[i].id == t.tasks[i].id && Collected(t)[i].name == t.tasks[i].name
    ensures forall i :: |t.results| <= i < |t.tasks| ==> Collected(t)[i].outcome.result != ""
  {
    var outputs, strays := TaskOutputs(t), Strays(t);
    forall i | 0 <= i < |t.tasks|
      ensures Collected(t)[i] == ToolResult(t.tasks[i].id, t.tasks[i].name, TaskOutput(t, i))
      ensures |t.results| <= i ==> TaskOutput(t, i).result != ""
    {
      assert Collected(t)[i] == outputs[i];
      assert |INCOMPLETE_NOTE| > 0;
    }
    forall i | |t.tasks| <= i < |t.results|
      ensures Collected(t)[i] == ToolResult(t.results[i].agentID, SUBAGENT_CALL_NAME, t.results[i].outcome)
    {
      assert Collected(t)[i] == strays[i - |t.tasks|];
    }
  }

  // ---- What is collected, read off the turn alone ----

  /** The subagent calls whose launch did not fail, in call order. */
  function Launched(es: seq<Event>, all: seq<Event>): seq<Task> {
    if es == [] then []
    else
      var e := es[|es| - 1];
      Launched(es[..|es| - 1], all) +
      if e.ToolCall? && IsSubagentCall(e.name) && !FailedInline(all, e.id) then [Task(e.id, e.name)] else []
  }

  function StopsOf(ops: seq<Op>): seq<Finished> {
    if ops == [] then []
    else StopsOf(ops[..|ops| - 1]) + match ops[|ops| - 1] { case HookStop(f) => [f] case _ => [] }
  }

  function StartsOf(ops: seq<Op>): nat {
    if ops == [] then 0 else StartsOf(ops[..|ops| - 1]) + if ops[|ops| - 1].HookStart? then 1 else 0
  }

  /** What the launch of a call was acknowledged with, if it was. */
  function Acknowledged(es: seq<Event>, id: string): Option<string> {
    if es == [] then None
    else if HeldBack(es[|es| - 1]) && es[|es| - 1].id == id then Some(es[|es| - 1].outcome.result)
    else Acknowledged(es[..|es| - 1], id)
  }

  lemma {:induction false} LaunchedAgree(es: seq<Event>, a: seq<Event>, b: seq<Event>)
    requires forall id :: id in CalledIds(es) ==> (FailedInline(a, id) <==> FailedInline(b, id))
    ensures Launched(es, a) == Launched(es, b)
  {
    if es != [] {
      CalledIdsSnoc(es);
      LaunchedAgree(es[..|es| - 1], a, b);
    }
  }

  lemma {:induction false} LaunchedAreCalled(es: seq<Event>, all: seq<Event>)
    ensures forall i :: 0 <= i < |Launched(es, all)| ==> Launched(es, all)[i].id in CalledIds(es)
  {
    if es != [] {
      CalledIdsSnoc(es);
      LaunchedAreCalled(es[..|es| - 1], all);
    }
  }

  lemma {:induction false} IndexOfSnoc(tasks: seq<Task>, t: Task, id: string)
    ensures IndexOf(tasks + [t], id) ==
            if IndexOf(tasks, id) < |tasks| then IndexOf(tasks, id) else if t.id == id then |tasks| else |tasks| + 1
  {
    if tasks == [] {
      assert [t][1..] == [] && tasks + [t] == [t];
    } else {
      assert (tasks + [t])[1..] == tasks[1..] + [t];
      IndexOfSnoc(tasks[1..], t, id);
    }
  }

  lemma WithoutAtSnoc<T>(s: seq<T>, t: T, i: nat)
    ensures WithoutAt(s + [t], i) == if i < |s| then WithoutAt(s, i) + [t] else if i == |s| then s else s + [t]
  {
    if i < |s| {
      assert (s + [t])[..i] == s[..i] && (s + [t])[i + 1..] == s[i + 1..] + [t];
      Sequences.Associative(s[..i], s[i + 1..], [t]);
    } else if i == |s| {
      assert (s + [t])[..|s|] == s && (s + [t])[|s| + 1..] == [];
      Sequences.Unit(s);
    }
  }

  lemma WithoutSnoc(tasks: seq<Task>, t: Task, id: string)
    ensures WithoutTask(tasks + [t], id) ==
            if t.id == id && IndexOf(tasks, id) == |tasks| then tasks else WithoutTask(tasks, id) + [t]
  {
    IndexOfSnoc(tasks, t, id);
    WithoutAtSnoc(tasks, t, IndexOf(tasks + [t], id));
  }

  /** One more failed launch takes its call from the launched ones. */
  lemma {:induction false} LaunchedWithout(es: seq<Event>, a: seq<Event>, b: seq<Event>, id: string)
    requires UniqueCalls(es) && forall x :: FailedInline(b, x) <==> FailedInline(a, x) || x == id
    ensures Launched(es, b) == WithoutTask(Launched(es, a), id)
  {
    if es != [] {
      var p, e := es[..|es| - 1], es[|es| - 1];
      LaunchedWithout(p, a, b, id);
      LaunchedAreCalled(p, a);
      Sequences.Unit(Launched(p, a));
      Sequences.Unit(Launched(p, b));
      if e.ToolCall? {
        WithoutSnoc(Launched(p, a), Task(e.id, e.name), id);
      }
    }
  }

  lemma CallNotFailed(es: seq<Event>)
    requires es != [] && Correlated(es) && es[|es| - 1].ToolCall?
    ensures !FailedInline(es, es[|es| - 1].id)
  {
  }

  lemma AddsLaunched(es: seq<Event>)
    requires es != [] && Correlated(es)
    ensures var p, e := es[..|es| - 1], es[|es| - 1];
            Launched(es, es) ==
            match e
            case TextDelta(_) => Launched(p, p)
            case ToolCall(id, name, _) => if IsSubagentCall(name) then Launched(p, p) + [Task(id, name)] else Launched(p, p)
            case ToolResult(id, name, o) => if IsSubagentCall(name) && o.isError then WithoutTask(Launched(p, p), id) else Launched(p, p)
  {
    var p, e := es[..|es| - 1], es[|es| - 1];
    forall id ensures FailedInline(es, id) <==>
      FailedInline(p, id) || (e.ToolResult? && e.id == id && IsSubagentCall(e.name) && e.outcome.isError) { FailedSnoc(es, id); }
    Sequences.Unit(Launched(p, es));
    if e.ToolCall? {
      CallNotFailed(es);
    }
    if e.ToolResult? && IsSubagentCall(e.name) && e.outcome.isError {
      LaunchedWithout(p, p, es, e.id);
    } else {
      LaunchedAgree(p, p, es);
    }
  }

  /** The placeholder kept for a call is its acknowledgment, as long as results are unique. */
  ghost predicate Keeps(placeholders: map<string, string>, es: seq<Event>) {
    forall id :: (id in placeholders <==> Acknowledged(es, id).Some?)
              && (id in placeholders ==> Acknowledged(es, id) == Some(placeholders[id]))
  }

  lemma {:induction false} AcknowledgedBefore(es: seq<Event>, id: string)
    requires Acknowledged(es, id).Some?
    ensures exists i :: 0 <= i < |es| && es[i].ToolResult? && es[i].id == id
  {
    if !(HeldBack(es[|es| - 1]) && es[|es| - 1].id == id) {
      AcknowledgedBefore(es[..|es| - 1], id);
    }
  }

  lemma StepKeeps(t: Tracker, es: seq<Event>)
    requires es != [] && UniqueResults(es) && Keeps(t.placeholders, es[..|es| - 1])
    ensures Keeps(Tracked(t, Stream(es[|es| - 1])).placeholders, es)
  {
    var p, e := es[..|es| - 1], es[|es| - 1];
    var after := Tracked(t, Stream(e)).placeholders;
    forall id ensures (id in after <==> Acknowledged(es, id).Some?) && (id in after ==> Acknowledged(es, id) == Some(after[id])) {
      if e.ToolResult? && e.id == id && Acknowledged(p, id).Some? {
        AcknowledgedBefore(p, id);
      }
    }
  }

  /** In every interleaving of the stream and the hooks the tracker holds the launched
      calls in call order, the outputs in stop order, the acknowledgments and the counts. */
  lemma {:induction false} TrackerIs(ops: seq<Op>)
    requires Correlated(StreamOf(ops))
    ensures var t, es := After(ops), StreamOf(ops);
            && t.tasks == Launched(es, es) && t.results == StopsOf(ops) && Keeps(t.placeholders, es)
            && t.started == StartsOf(ops) && t.stopped == |StopsOf(ops)|
  {
    if ops != [] {
      var prefix, op := ops[..|ops| - 1], ops[|ops| - 1];
      var es := StreamOf(ops);
      Sequences.Unit(StreamOf(prefix));
      Sequences.Unit(StopsOf(prefix));
      if op.Stream? {
        assert es[..|es| - 1] == StreamOf(prefix) && es[|es| - 1] == op.e;
        CorrelatedPrefix(es);
        TrackerIs(prefix);
        AddsLaunched(es);
        StepKeeps(After(prefix), es);
      } else {
        TrackerIs(prefix);
      }
    }
  }

  function FallBack(acknowledgment: Option<string>): Outcome {
    match acknowledgment
    case Some(text) => if text != "" then Outcome(text, false) else Outcome(INCOMPLETE_NOTE, true)
    case None => Outcome(INCOMPLETE_NOTE, true)
  }

  lemma CollectedAt(t: Tracker, i: nat)
    requires i < |Collected(t)|
    ensures |Collected(t)| == if |t.tasks| < |t.results| then |t.results| else |t.tasks|
    ensures i < |t.tasks| ==> Collected(t)[i] == ToolResult(t.tasks[i].id, t.tasks[i].name, TaskOutput(t, i))
    ensures i >= |t.tasks| ==> Collected(t)[i] == ToolResult(t.results[i].agentID, SUBAGENT_CALL_NAME, t.results[i].outcome)
  {
    assert Collected(t)[i] == if i < |t.tasks| then TaskOutputs(t)[i] else Strays(t)[i - |t.tasks|];
  }

  /** What the `i`-th collected result of a turn is. */
  function Expected(ops: seq<Op>, i: nat): Event
    requires i < |Launched(StreamOf(ops), StreamOf(ops))| || i < |StopsOf(ops)|
  {
    var calls, stops := Launched(StreamOf(ops), StreamOf(ops)), StopsOf(ops);
    if i >= |calls| then ToolResult(stops[i].agentID, SUBAGENT_CALL_NAME, stops[i].outcome)
    else ToolResult(calls[i].id, calls[i].name,
           if i < |stops| then stops[i].outcome else FallBack(Acknowledged(StreamOf(ops), calls[i].id)))
  }

  /** So the `i`-th call launched is answered by the `i`-th output to come in; by its own
      acknowledgment when there is none; by the note, as an error, when that is empty;
      and outputs beyond the calls surface under their agents. */
  lemma CollectedExactly(ops: seq<Op>, i: nat)
    requires Correlated(StreamOf(ops))
    ensures i < |Collected(After(ops))| <==> i < |Launched(StreamOf(ops), StreamOf(ops))| || i < |StopsOf(ops)|
    ensures i < |Collected(After(ops))| ==> Collected(After(ops))[i] == Expected(ops, i)
  {
    TrackerIs(ops);
    if i < |Collected(After(ops))| {
      CollectedAt(After(ops), i);
    }
  }

  /** Every agent that finished has its output collected for the call that spawned it;
      the tracker itself never learns which call that was. */
  predicate OwnOutputs(t: Tracker, spawnedBy: map<string, string>) {
    forall i, k :: 0 <= i < |t.tasks| && 0 <= k < |t.results| && Spawned(t, spawnedBy, i, k) ==>
      TaskOutput(t, i) == t.results[k].outcome
  }

  predicate Spawned(t: Tracker, spawnedBy: map<string, string>, i: nat, k: nat)
    requires i < |t.tasks| && k < |t.results|
  {
    t.results[k].agentID in spawnedBy && spawnedBy[t.results[k].agentID] == t.tasks[i].id
  }

  /** The finished agents of calls stopped in the order of their calls, with no call
      between them still unfinished and no agent of another kind stopping in between. */
  predicate StoppedInCallOrder(t: Tracker, spawnedBy: map<string, string>) {
    forall i, k :: 0 <= i < |t.tasks| && 0 <= k < |t.results| && Spawned(t, spawnedBy, i, k) ==> i == k
  }

  /** No two of the outputs on offer, a fallback included, read the same. */
  predicate Telling(t: Tracker) {
    && (forall i, j :: 0 <= i < j < |t.results| ==> t.results[i].outcome != t.results[j].outcome)
    && (forall i, k :: |t.results| <= i < |t.tasks| && 0 <= k < |t.results| ==> TaskOutput(t, i) != t.results[k].outcome)
  }

  /** Whatever the numbers of calls and outputs: matching first in, first out is right
      when agents stop in call order, and right only then where outputs that read
      differently tell the two apart. */
  lemma OwnOutputsExactly(t: Tracker, spawnedBy: map<string, string>)
    ensures StoppedInCallOrder(t, spawnedBy) ==> OwnOutputs(t, spawnedBy)
    ensures Telling(t) ==> (OwnOutputs(t, spawnedBy) <==> StoppedInCallOrder(t, spawnedBy))
  {
    if Telling(t) && OwnOutputs(t, spawnedBy) {
      forall i, k | 0 <= i < |t.tasks| && 0 <= k < |t.results| && Spawned(t, spawnedBy, i, k) ensures i == k {
        assert TaskOutput(t, i) == t.results[k].outcome;
      }
    }
  }

  /** Everything but subagent results. */
  function Others(es: seq<Event>): seq<Event> {
    if es == [] then []
    else
      var e := es[|es| - 1];
      Others(es[..|es| - 1]) + if e.ToolResult? && IsSubagentCall(e.name) then [] else [e]
  }

  /** Text, calls and every other tool's results reach the caller unchanged and in order. */
  lemma {:induction false} OthersPassThrough(es: seq<Event>)
    ensures Others(Passed(es)) == Others(es)
  {
    if es != [] {
      var p, e := es[..|es| - 1], es[|es| - 1];
      OthersPassThrough(p);
      if HeldBack(e) {
        assert Passed(es) == Passed(p);
      } else {
        assert (Passed(p) + [e])[..|Passed(p)|] == Passed(p);
      }
    }
  }

  // ---- The tracker as the source keeps it ----

  class SubagentTracker {
    var started: nat
    var stopped: nat
    var tasks: seq<Task>
    var placeholders: map<string, string>
    var results: seq<Finished>

    ghost function Abs(): Tracker
      reads this
    {
      Tracker(started, stopped, tasks, placeholders, results)
    }

    constructor ()
      ensures Abs() == NEW_TRACKER
    {
      started, stopped, tasks, placeholders, results := 0, 0, [], map[], [];
    }

    method ResolveTask(id: string)
      modifies this`tasks, this`placeholders
      ensures tasks == WithoutTask(old(tasks), id) && placeholders == old(placeholders) - {id}
    {
      for i := 0 to |tasks|
        invariant tasks == old(tasks) && i <= IndexOf(tasks, id)
      {
        if tasks[i].id == id {
          tasks := tasks[..i] + tasks[i + 1..];
          break;
        }
      }
      placeholders := placeholders - {id};
    }

    method Start()
      modifies this
      ensures Abs() == Tracked(old(Abs()), HookStart)
    {
      started := started + 1;
    }

    method Stop(f: Finished)
      modifies this
      ensures Abs() == Tracked(old(Abs()), HookStop(f))
    {
      stopped := stopped + 1;
      results := results + [f];
    }

    /** The wrapped callbacks of one event: what reaches the caller's own. */
    method Forward(e: Event) returns (forwarded: seq<Event>)
      modifies this
      ensures Abs() == Tracked(old(Abs()), Stream(e))
      ensures forwarded == if HeldBack(e) then [] else [e]
    {
      forwarded := [e];
      match e
      case TextDelta(_) =>
      case ToolCall(id, name, _) =>
        if IsSubagentCall(name) {
          tasks := tasks + [Task(id, name)];
        }
      case ToolResult(id, name, o) =>
        if IsSubagentCall(name) {
          if o.isError {
            ResolveTask(id);
          } else {
            placeholders := placeholders[id := o.result];
            forwarded := [];
          }
        }
    }

    method Collect() returns (out: seq<Event>)
      ensures out == Collected(Abs())
    {
      out := [];
      for i := 0 to |tasks|
        invariant out == TaskOutputs(Abs())[..i]
      {
        var task := tasks[i];
        if i < |results| {
          out := out + [ToolResult(task.id, task.name, results[i].outcome)];
        } else if task.id in placeholders && placeholders[task.id] != "" {
          out := out + [ToolResult(task.id, task.name, Outcome(placeholders[task.id], false))];
        } else {
          out := out + [ToolResult(task.id, task.name, Outcome(INCOMPLETE_NOTE, true))];
        }
      }
      var n := |tasks|;
      if n < |results| {
        for i := n to |results|
          invariant out == TaskOutputs(Abs()) + Strays(Abs())[..i - n]
        {
          out := out + [ToolResult(results[i].agentID, SUBAGENT_CALL_NAME, results[i].outcome)];
        }
      }
    }
  }
}
