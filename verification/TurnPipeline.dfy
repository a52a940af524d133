/**
 The Claude path end to end: the message loop's stream, through the subagent
 wrapper, into the persisted turn and the live view.
 */
module TurnPipeline {
  import opened ToolActivityBlocks
  import opened StageTurn
  import opened Subagents
  import C = ClaudeTurn

  lemma PassedOne(p: seq<Event>, e: Event)
    ensures Passed(p + [e]) == if HeldBack(e) then Passed(p) else Passed(p) + [e]
  {
    assert (p + [e])[..|p|] == p;
  }

  lemma {:induction false} PassedKeepsCalls(es: seq<Event>)
    ensures CalledIds(Passed(es)) == CalledIds(es)
    ensures UniqueCalls(Passed(es)) <==> UniqueCalls(es)
  {
    if es != [] {
      var p, e := es[..|es| - 1], es[|es| - 1];
      PassedKeepsCalls(p);
      assert es == p + [e];
      PassedOne(p, e);
      Snoc(p, e);
      Snoc(Passed(p), e);
    }
  }

  lemma {:induction false} PassedKeepsNarration(es: seq<Event>)
    ensures Narration(Passed(es)) == Narration(es)
  {
    if es != [] {
      var p, e := es[..|es| - 1], es[|es| - 1];
      PassedKeepsNarration(p);
      assert es == p + [e];
      PassedOne(p, e);
      C.NarrationAppend(Passed(p), [e]);
      C.NarrationAppend(p, [e]);
      assert [e][..0] == [];
    }
  }

  lemma {:induction false} PassedIsPart(es: seq<Event>, e: Event)
    requires e in Passed(es)
    ensures e in es
  {
    var p, last := es[..|es| - 1], es[|es| - 1];
    if e in Passed(p) {
      PassedIsPart(p, e);
    }
  }

  /** Holding back acknowledgments changes neither the calls nor the narration. */
  lemma PassedKeeps(es: seq<Event>)
    ensures CalledIds(Passed(es)) == CalledIds(es)
    ensures UniqueCalls(Passed(es)) <==> UniqueCalls(es)
    ensures Narration(Passed(es)) == Narration(es)
    ensures forall e :: e in Passed(es) ==> e in es
  {
    PassedKeepsCalls(es);
    PassedKeepsNarration(es);
    forall e | e in Passed(es) ensures e in es { PassedIsPart(es, e); }
  }

  lemma {:induction false} OnlyResults(es: seq<Event>, rs: seq<Event>)
    requires forall r :: r in rs ==> r.ToolResult?
    ensures UniqueCalls(es + rs) <==> UniqueCalls(es)
    ensures Narration(es + rs) == Narration(es)
  {
    if rs == [] {
      assert es + rs == es;
    } else {
      var p, r := rs[..|rs| - 1], rs[|rs| - 1];
      assert r in rs && forall x :: x in p ==> x in rs;
      OnlyResults(es, p);
      assert es + rs == es + p + [r];
      Snoc(es + p, r);
      assert (es + p + [r])[..|es + p|] == es + p;
    }
  }

  lemma {:induction false} CountedTwice(es: seq<Event>, i: nat, id: string)
    requires i < |es| && es[i].ToolResult? && es[i].id == id
    ensures ResultCount(es, id) >= 1
    ensures forall j :: i < j < |es| && es[j].ToolResult? && es[j].id == id ==> ResultCount(es, id) >= 2
  {
    if i < |es| - 1 {
      CountedTwice(es[..|es| - 1], i, id);
      forall j | i < j < |es| && es[j].ToolResult? && es[j].id == id ensures ResultCount(es, id) >= 2 {
        if j < |es| - 1 {
          assert es[..|es| - 1][j] == es[j];
        }
      }
    }
  }

  lemma AtMostOnce(es: seq<Event>)
    requires forall id :: ResultCount(es, id) <= 1
    ensures UniqueResults(es)
  {
    forall i, j | 0 <= i < j < |es| && es[i].ToolResult? && es[j].ToolResult? ensures es[i].id != es[j].id {
      if es[i].id == es[j].id {
        CountedTwice(es, i, es[i].id);
      }
    }
  }

  lemma {:induction false} PassedCount(es: seq<Event>, id: string)
    ensures ResultCount(Passed(es), id) <= ResultCount(es, id)
  {
    if es != [] {
      PassedCount(es[..|es| - 1], id);
      PassedSnoc(es, id);
    }
  }

  /** Agents are named apart from each other and from every call and result. */
  predicate FreshAgents(t: Tracker, es: seq<Event>) {
    && (forall i :: 0 <= i < |t.results| ==>
          t.results[i].agentID != "" && t.results[i].agentID !in CalledIds(es) + C.ResultIds(es))
    && (forall i, j :: 0 <= i < j < |t.results| ==> t.results[i].agentID != t.results[j].agentID)
  }

  lemma StrayCount(t: Tracker, es: seq<Event>, id: string)
    requires FreshAgents(t, es)
    ensures ResultCount(Strays(t), id) <= 1
    ensures id in CalledIds(es) + C.ResultIds(es) ==> ResultCount(Strays(t), id) == 0
  {
    var strays := Strays(t);
    assert UniqueResults(strays);
    CountDistinct(strays, id);
    if Answers(strays, id) {
      var k :| 0 <= k < |strays| && strays[k].ToolResult? && strays[k].id == id;
      assert t.results[|t.tasks| + k].agentID == id;
    }
  }

  lemma CollectedAtMostOnce(ops: seq<Op>, id: string)
    requires Correlated(StreamOf(ops)) && FreshAgents(After(ops), StreamOf(ops))
    ensures ResultCount(Passed(StreamOf(ops)) + Collected(After(ops)), id) <= 1
  {
    var t, es := After(ops), StreamOf(ops);
    if CalledSubagent(es, id) {
      CollectedOnce(ops, id);
    } else {
      StaysAccounted(ops);
      assert AccountedFor(t.tasks, es, id);
      ResultCountAppend(Passed(es), Collected(t), id);
      ResultCountAppend(TaskOutputs(t), Strays(t), id);
      TaskOutputCount(t, id);
      StrayCount(t, es, id);
      PassedCount(es, id);
      CountDistinct(es, id);
      if Answers(es, id) {
        var e :| e in es && e.ToolResult? && e.id == id;
        assert id in C.ResultIds(es);
      }
    }
  }

  lemma DeliveredOnce(ops: seq<Op>, ending: C.Ending, id: string)
    requires Correlated(StreamOf(ops)) && FreshAgents(After(ops), StreamOf(ops))
    ensures ResultCount(Delivered(ops, ending), id) <= 1
  {
    CollectedAtMostOnce(ops, id);
    ResultCountAppend(Passed(StreamOf(ops)), Collected(After(ops)), id);
    assert Passed(StreamOf(ops)) + [] == Passed(StreamOf(ops));
  }

  predicate NonEmptyIds(es: seq<Event>) {
    forall e :: e in es && !e.TextDelta? ==> e.id != ""
  }

  lemma OutputNamed(ops: seq<Op>, k: nat)
    requires Correlated(StreamOf(ops)) && NonEmptyIds(StreamOf(ops)) && k < |After(ops).tasks|
    ensures After(ops).tasks[k].id != ""
  {
    var t, es := After(ops), StreamOf(ops);
    StaysAccounted(ops);
    assert Awaited(t.tasks, t.tasks[k].id) && AccountedFor(t.tasks, es, t.tasks[k].id);
    var i :| 0 <= i < |es| && es[i].ToolCall? && es[i].id == t.tasks[k].id && IsSubagentCall(es[i].name);
    assert es[i] in es;
  }

  lemma StrayNamed(t: Tracker, es: seq<Event>, e: Event)
    requires FreshAgents(t, es) && e in Strays(t)
    ensures e.ToolResult? && e.id != ""
  {
    var k :| 0 <= k < |Strays(t)| && e == Strays(t)[k];
    assert t.results[|t.tasks| + k].agentID == e.id;
  }

  lemma CollectedNamed(ops: seq<Op>, e: Event)
    requires Correlated(StreamOf(ops)) && FreshAgents(After(ops), StreamOf(ops)) && NonEmptyIds(StreamOf(ops))
    requires e in Collected(After(ops))
    ensures e.ToolResult? && e.id != ""
  {
    var t := After(ops);
    if e in TaskOutputs(t) {
      var k :| 0 <= k < |t.tasks| && e == TaskOutputs(t)[k];
      OutputNamed(ops, k);
    } else {
      StrayNamed(t, StreamOf(ops), e);
    }
  }

  lemma DeliveredNamed(ops: seq<Op>, ending: C.Ending)
    requires Correlated(StreamOf(ops)) && FreshAgents(After(ops), StreamOf(ops)) && NonEmptyIds(StreamOf(ops))
    ensures NamedResults(Delivered(ops, ending))
  {
    forall e | e in Delivered(ops, ending) && e.ToolResult? ensures e.id != "" {
      if e in Passed(StreamOf(ops)) {
        PassedIsPart(StreamOf(ops), e);
      } else {
        CollectedNamed(ops, e);
      }
    }
  }

  /** For any Claude message stream with fresh ids, any interleaving of the subagent
      hooks with it and any ending, an error result included: what is persisted is
      the stored live view, and its content is exactly the runner's own text. */
  lemma PersistedTurnIsLiveTurn(sigs: seq<C.Signal>, tools: seq<string>, ops: seq<Op>, ending: C.Ending)
    requires C.FreshIds(sigs)
    requires StreamOf(ops) == C.Folded(C.INITIAL, sigs, tools).emitted
    requires FreshAgents(After(ops), StreamOf(ops)) && NonEmptyIds(StreamOf(ops))
    ensures Recorded(Delivered(ops, ending)).segments == Stored(Live(Delivered(ops, ending)))
    ensures Content(Recorded(Delivered(ops, ending)).segments) == C.Folded(C.INITIAL, sigs, tools).text
  {
    var es, delivered := StreamOf(ops), Delivered(ops, ending);
    C.DraftsAreNeverActivity(sigs, tools);
    C.TextIsNarration(sigs, tools);
    PassedKeeps(es);
    OnlyResults(Passed(es), if ending.Failed? then [] else Collected(After(ops)));
    forall id ensures ResultCount(delivered, id) <= 1 { DeliveredOnce(ops, ending, id); }
    AtMostOnce(delivered);
    DeliveredNamed(ops, ending);
    PersistedIsStoredLive(delivered);
    ContentIsNarration(delivered);
  }

  // ---- Run's own course ----

  datatype RunError = NoError | ErrorResult | ContextDone | NoResult
  datatype RunOutput = RunOutput(content: string, sessionID: string, proposed: seq<DraftCall>)

  /** What Run returns once its loop came to this ending. */
  function Returned(ending: C.Ending, out: RunOutput, contextDone: bool): (RunOutput, RunError) {
    match ending
    case Finished => (out, NoError)
    case Failed => (out, ErrorResult)
    case Closed => if contextDone then (out, ContextDone) else (RunOutput("", "", []), NoResult)
  }

  lemma StreamOne(ops: seq<Op>, i: nat)
    requires i < |ops|
    ensures StreamOf(ops[..i + 1]) == StreamOf(ops[..i]) + (if ops[i].Stream? then [ops[i].e] else [])
    ensures After(ops[..i + 1]) == Tracked(After(ops[..i]), ops[i])
    ensures var es := StreamOf(ops[..i]);
            Passed(StreamOf(ops[..i + 1])) == Passed(es) + (if ops[i].Stream? && !HeldBack(ops[i].e) then [ops[i].e] else [])
  {
    assert ops[..i + 1][..i] == ops[..i];
    if ops[i].Stream? {
      PassedOne(StreamOf(ops[..i]), ops[i].e);
    } else {
      assert StreamOf(ops[..i]) + [] == StreamOf(ops[..i]);
    }
  }

  /** The wrapped callbacks and the hooks, in the order they come in. */
  method Relay(ops: seq<Op>) returns (tracker: SubagentTracker, delivered: seq<Event>)
    ensures fresh(tracker) && tracker.Abs() == After(ops) && delivered == Passed(StreamOf(ops))
  {
    tracker := new SubagentTracker();
    delivered := [];
    for i := 0 to |ops|
      invariant fresh(tracker) && tracker.Abs() == After(ops[..i]) && delivered == Passed(StreamOf(ops[..i]))
    {
      StreamOne(ops, i);
      match ops[i] {
        case HookStart => tracker.Start();
        case HookStop(f) => tracker.Stop(f);
        case Stream(e) =>
          var forwarded := tracker.Forward(e);
          delivered := delivered + forwarded;
      }
    }
    assert ops[..|ops|] == ops;
  }

  /** The turn after its client is ready: drains the messages while hooks come in at
      any point of `ops`, then awaits and emits subagent output unless the loop
      returned an error. */
  method Run(ms: seq<C.Message>, tools: seq<string>, ops: seq<Op>, contextDone: bool)
    returns (out: RunOutput, error: RunError, delivered: seq<Event>)
    requires StreamOf(ops) == C.Folded(C.INITIAL, C.StreamSignals(ms[..C.Consumed(ms)]), tools).emitted
    ensures delivered == Delivered(ops, C.EndingOf(ms))
    ensures error.NoError? <==> C.EndingOf(ms).Finished?
    ensures error.ErrorResult? <==> C.EndingOf(ms).Failed?
    ensures error.ContextDone? <==> C.EndingOf(ms).Closed? && contextDone
    ensures error.NoError? || error.ErrorResult? ==> out.content == Narration(StreamOf(ops))
    ensures !error.NoError? && !error.ErrorResult? ==> out.content == "" && out.sessionID == ""
    ensures error.NoError? || error.ErrorResult? ==> 0 < C.Consumed(ms) && ms[C.Consumed(ms) - 1].ResultMessage?
    ensures error.NoError? || error.ErrorResult? ==> out.sessionID == ms[C.Consumed(ms) - 1].sessionID
    ensures out.proposed == if error.NoResult? then []
                            else C.Folded(C.INITIAL, C.StreamSignals(ms[..C.Consumed(ms)]), tools).accepted
    ensures var sigs := C.StreamSignals(ms[..C.Consumed(ms)]);
            !error.NoResult? && C.FreshIds(sigs) ==> out.proposed == C.Proposals(sigs, tools)
  {
    var ending, content, sessionID, proposed, events := C.Drain(ms, tools);
    var tracker;
    tracker, delivered := Relay(ops);
    if !ending.Failed? {
      var collected := tracker.Collect();
      delivered := delivered + collected;
    } else {
      assert delivered + [] == delivered;
    }
    var returned := Returned(ending, RunOutput(content, sessionID, proposed), contextDone);
    out, error := returned.0, returned.1;
  }
}
