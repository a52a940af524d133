/**
 The message loop of one turn (processMessage and the loop in
 ClaudeRunner.Run, internal/agentrunner/claude_runner.go): text deltas,
 intermediate tool activity and Draft proposals told apart.
 */
module ClaudeTurn {
  import opened Options
  import opened Sequences
  import opened StageTurn
  import opened ToolActivityBlocks

  import A = AssistantText

  datatype Block = Thinking(text: string) | ToolUse(id: string, name: string, input: string) | OtherBlock
  datatype Reply = ToolReturn(id: string, content: string, isError: bool) | OtherReply
  datatype Message =
    | MessageStart
    | TextChunk(text: string)
    | ReasoningChunk(text: string)
    | OtherStream
    | AssistantMessage(blocks: seq<Block>)
    | UserMessage(replies: seq<Reply>)
    | ResultMessage(sessionID: string, isError: bool)

  /** What a message says, one item at a time. */
  datatype Signal =
    | RoundStart
    | Chunk(text: string)
    | Reasoning(text: string)
    | Use(id: string, name: string, input: string)
    | Return(id: string, content: string, isError: bool)

  function BlockSignals(b: Block): seq<Signal> {
    match b
    case Thinking(t) => [Reasoning(t)]
    case ToolUse(id, name, input) => [Use(id, name, input)]
    case OtherBlock => []
  }

  function ReplySignals(r: Reply): seq<Signal> {
    match r
    case ToolReturn(id, content, isError) => [Return(id, content, isError)]
    case OtherReply => []
  }

  function BlocksSignals(bs: seq<Block>): seq<Signal> {
    if bs == [] then [] else BlocksSignals(bs[..|bs| - 1]) + BlockSignals(bs[|bs| - 1])
  }

  function RepliesSignals(rs: seq<Reply>): seq<Signal> {
    if rs == [] then [] else RepliesSignals(rs[..|rs| - 1]) + ReplySignals(rs[|rs| - 1])
  }

  function Signals(m: Message): seq<Signal> {
    match m
    case MessageStart => [RoundStart]
    case TextChunk(t) => [Chunk(t)]
    case ReasoningChunk(t) => [Reasoning(t)]
    case OtherStream => []
    case AssistantMessage(bs) => BlocksSignals(bs)
    case UserMessage(rs) => RepliesSignals(rs)
    case ResultMessage(_, _) => []
  }

  /** A prefix of the stream, up to and without its first ResultMessage. */
  function StreamSignals(ms: seq<Message>): seq<Signal> {
    if ms == [] then [] else StreamSignals(ms[..|ms| - 1]) + Signals(ms[|ms| - 1])
  }

  function Qualified(name: string): string {
    "mcp__draft__" + name
  }

  /** The offered tool a qualified name stands for, if any. */
  function MatchDraft(name: string, tools: seq<string>): (r: Option<string>)
    ensures r.Some? ==> r.value in tools && name == Qualified(r.value)
    ensures r.None? ==> forall t :: t in tools ==> name != Qualified(t)
  {
    if tools == [] then None
    else if name == Qualified(tools[0]) then Some(tools[0])
    else MatchDraft(name, tools[1..])
  }

  datatype State = State(
    text: string, pendingBreak: bool,
    names: map<string, string>, drafts: map<string, DraftCall>,
    accepted: seq<DraftCall>, emitted: seq<Event>)

  const INITIAL := State("", false, map[], map[], [], [])

  function TextEvents(parts: seq<string>): seq<Event> {
    seq(|parts|, i requires 0 <= i < |parts| => TextDelta(parts[i]))
  }

  function Step(s: State, sig: Signal, tools: seq<string>): State {
    match sig
    case RoundStart => s.(pendingBreak := true)
    case Chunk(t) =>
      var parts := A.Added(s.text, s.pendingBreak, t);
      s.(text := s.text + A.Concat(parts), pendingBreak := s.pendingBreak && t == "", emitted := s.emitted + TextEvents(parts))
    case Reasoning(_) => s.(emitted := s.emitted + [TextDelta("")])
    case Use(id, name, input) =>
      (match MatchDraft(name, tools)
       case Some(bare) => s.(drafts := s.drafts[id := DraftCall(id, bare, input)])
       case None => s.(names := s.names[id := name], emitted := s.emitted + [ToolCall(id, name, input)]))
    case Return(id, content, isError) =>
      if id in s.drafts then
        s.(drafts := s.drafts - {id}, accepted := s.accepted + if isError then [] else [s.drafts[id]])
      else
        var name := if id in s.names then s.names[id] else "";
        s.(names := s.names - {id}, emitted := s.emitted + [ToolResult(id, name, Outcome(content, isError))])
  }

  function Folded(s: State, sigs: seq<Signal>, tools: seq<string>): State {
    if sigs == [] then s else Step(Folded(s, sigs[..|sigs| - 1], tools), sigs[|sigs| - 1], tools)
  }

  lemma {:induction false} FoldedAppend(s: State, a: seq<Signal>, b: seq<Signal>, tools: seq<string>)
    ensures Folded(s, a + b, tools) == Folded(Folded(s, a, tools), b, tools)
  {
    if b == [] {
      assert a + b == a;
    } else {
      FoldedAppend(s, a, b[..|b| - 1], tools);
      assert (a + b)[..|a + b| - 1] == a + b[..|b| - 1];
    }
  }

  lemma FoldedOne(s: State, sig: Signal, tools: seq<string>)
    ensures Folded(s, [sig], tools) == Step(s, sig, tools)
  {
    assert [sig][..0] == [];
  }

  // ---- What the turn text is ----

  lemma {:induction false} NarrationAppend(a: seq<Event>, b: seq<Event>)
    ensures Narration(a + b) == Narration(a) + Narration(b)
  {
    if b == [] {
      assert a + b == a;
      assert Narration(a) + "" == Narration(a);
    } else {
      var n := |b| - 1;
      assert (a + b)[..|a + b| - 1] == a + b[..n] && (a + b)[|a + b| - 1] == b[n];
      NarrationAppend(a, b[..n]);
      Associative(Narration(a), Narration(b[..n]), match b[n] { case TextDelta(t) => t case _ => "" });
    }
  }

  lemma {:induction false} NarrationOfParts(parts: seq<string>)
    ensures Narration(TextEvents(parts)) == A.Concat(parts)
  {
    if parts != [] {
      var n := |parts|;
      assert TextEvents(parts)[..n - 1] == TextEvents(parts[..n - 1]);
      NarrationOfParts(parts[..n - 1]);
    }
  }

  /** The builder holds exactly what was relayed, byte for byte. */
  lemma {:induction false} TextIsNarration(sigs: seq<Signal>, tools: seq<string>)
    ensures Narration(Folded(INITIAL, sigs, tools).emitted) == Folded(INITIAL, sigs, tools).text
  {
    if sigs != [] {
      TextIsNarration(sigs[..|sigs| - 1], tools);
      StepKeepsNarration(Folded(INITIAL, sigs[..|sigs| - 1], tools), sigs[|sigs| - 1], tools);
    }
  }

  lemma StepKeepsNarration(s: State, sig: Signal, tools: seq<string>)
    requires Narration(s.emitted) == s.text
    ensures Narration(Step(s, sig, tools).emitted) == Step(s, sig, tools).text
  {
    var s' := Step(s, sig, tools);
    if sig.Chunk? {
      var parts := A.Added(s.text, s.pendingBreak, sig.text);
      NarrationAppend(s.emitted, TextEvents(parts));
      NarrationOfParts(parts);
    } else if s'.emitted != s.emitted {
      QuietSnoc(s.emitted, s'.emitted[|s.emitted|]);
    }
  }

  lemma QuietSnoc(es: seq<Event>, e: Event)
    requires !e.TextDelta? || e.text == ""
    ensures Narration(es + [e]) == Narration(es)
  {
    assert (es + [e])[..|es|] == es;
    assert Narration(es) + "" == Narration(es);
  }

  function Ops(sigs: seq<Signal>): seq<A.Op> {
    if sigs == [] then []
    else
      Ops(sigs[..|sigs| - 1]) +
      match sigs[|sigs| - 1] { case RoundStart => [A.NewRound] case Chunk(t) => [A.Delta(t)] case _ => [] }
  }

  /** The turn's text is its non-empty rounds joined by a blank line. */
  lemma {:induction false} TextIsJoinedRounds(sigs: seq<Signal>, tools: seq<string>)
    ensures var s := Folded(INITIAL, sigs, tools); A.Holds(s.text, s.pendingBreak, Ops(sigs))
    ensures Folded(INITIAL, sigs, tools).text == A.Join(A.NonEmpty(A.Rounds(Ops(sigs))))
  {
    if sigs == [] {
      assert A.Rounds([]) == [""] && [""][..0] == [];
    } else {
      var prefix, sig := sigs[..|sigs| - 1], sigs[|sigs| - 1];
      TextIsJoinedRounds(prefix, tools);
      var s := Folded(INITIAL, prefix, tools);
      match sig
      case RoundStart => A.HoldsNewRound(s.text, s.pendingBreak, Ops(prefix));
      case Chunk(t) => A.HoldsDelta(s.text, s.pendingBreak, Ops(prefix), t, Step(s, sig, tools).text, Step(s, sig, tools).pendingBreak);
      case _ => assert Ops(sigs) == Ops(prefix);
    }
  }

  // ---- Drafts and tool activity never mix ----

  /** The CLI never reuses a tool-use id, and answers each at most once, afterwards. */
  predicate FreshIds(sigs: seq<Signal>) {
    forall i, j :: 0 <= i < j < |sigs| ==>
      && (sigs[i].Use? && sigs[j].Use? ==> sigs[i].id != sigs[j].id)
      && (sigs[i].Return? && sigs[j].Return? ==> sigs[i].id != sigs[j].id)
      && (sigs[i].Return? && sigs[j].Use? ==> sigs[i].id != sigs[j].id)
  }

  function UsedIds(sigs: seq<Signal>): set<string> {
    set s | s in sigs && s.Use? :: s.id
  }

  function ReturnedIds(sigs: seq<Signal>): set<string> {
    set s | s in sigs && s.Return? :: s.id
  }

  function ResultIds(es: seq<Event>): set<string> {
    set e | e in es && e.ToolResult? :: e.id
  }

  function AcceptedIds(cs: seq<DraftCall>): set<string> {
    set c | c in cs :: c.id
  }

  ghost predicate Separated(s: State, used: set<string>, returned: set<string>) {
    && (forall id :: id in s.drafts ==> s.drafts[id].id == id && id in used && id !in returned)
    && s.drafts.Keys !! CalledIds(s.emitted) && s.drafts.Keys !! s.names.Keys
    && CalledIds(s.emitted) <= used && ResultIds(s.emitted) <= returned
    && AcceptedIds(s.accepted) <= used * returned
    && AcceptedIds(s.accepted) !! CalledIds(s.emitted) && AcceptedIds(s.accepted) !! ResultIds(s.emitted)
    && UniqueCalls(s.emitted) && UniqueResults(s.emitted) && Echoes(s.emitted)
    && s.names.Keys <= used
    && OpenNamed(s, returned)
  }

  /** Every call still without a result is remembered under its streamed name. */
  ghost predicate OpenNamed(s: State, returned: set<string>) {
    forall i :: 0 <= i < |s.emitted| && s.emitted[i].ToolCall? && s.emitted[i].id !in returned ==>
      s.emitted[i].id in s.names && s.names[s.emitted[i].id] == s.emitted[i].name
  }

  lemma ResultsSnoc(es: seq<Event>, e: Event)
    ensures ResultIds(es + [e]) == ResultIds(es) + (if e.ToolResult? then {e.id} else {})
    ensures UniqueResults(es) && (e.ToolResult? ==> e.id !in ResultIds(es)) ==> UniqueResults(es + [e])
  {
    var es' := es + [e];
    if UniqueResults(es) && (e.ToolResult? ==> e.id !in ResultIds(es)) {
      forall i, j | 0 <= i < j < |es'| && es'[i].ToolResult? && es'[j].ToolResult?
        ensures es'[i].id != es'[j].id
      {
        assert es'[i] in es;
      }
    }
  }

  lemma EchoesSnoc(es: seq<Event>, e: Event)
    requires Echoes(es)
    requires e.ToolCall? ==> e.id !in ResultIds(es)
    requires e.ToolResult? ==> forall i :: 0 <= i < |es| && es[i].ToolCall? && es[i].id == e.id ==> es[i].name == e.name
    ensures Echoes(es + [e])
  {
    var es' := es + [e];
    forall i, j | 0 <= i < j < |es'|
      ensures es'[i].ToolResult? && es'[j].ToolCall? ==> es'[i].id != es'[j].id
      ensures es'[i].ToolCall? && es'[j].ToolResult? && es'[i].id == es'[j].id ==> es'[i].name == es'[j].name
    {
      assert es'[i] in es;
    }
  }

  /** What emitting one event does to the four facts about the emitted stream. */
  lemma Emit(es: seq<Event>, e: Event)
    requires UniqueCalls(es) && UniqueResults(es) && Echoes(es)
    requires e.ToolCall? ==> e.id !in CalledIds(es) + ResultIds(es)
    requires e.ToolResult? ==> e.id !in ResultIds(es)
    requires e.ToolResult? ==> forall i :: 0 <= i < |es| && es[i].ToolCall? && es[i].id == e.id ==> es[i].name == e.name
    ensures var es' := es + [e];
            && UniqueCalls(es') && UniqueResults(es') && Echoes(es')
            && CalledIds(es') == CalledIds(es) + (if e.ToolCall? then {e.id} else {})
            && ResultIds(es') == ResultIds(es) + (if e.ToolResult? then {e.id} else {})
  {
    Snoc(es, e);
    ResultsSnoc(es, e);
    EchoesSnoc(es, e);
  }

  lemma SeparatedText(s: State, used: set<string>, returned: set<string>, text: string)
    requires Separated(s, used, returned)
    ensures Separated(s.(emitted := s.emitted + [TextDelta(text)]), used, returned)
  {
    Emit(s.emitted, TextDelta(text));
  }

  lemma SeparatedDraft(s: State, used: set<string>, returned: set<string>, c: DraftCall)
    requires Separated(s, used, returned) && c.id !in used + returned
    ensures Separated(s.(drafts := s.drafts[c.id := c]), used + {c.id}, returned)
  {
  }

  lemma OpenNamedCall(s: State, returned: set<string>, id: string, name: string, input: string)
    requires OpenNamed(s, returned) && id !in CalledIds(s.emitted)
    ensures OpenNamed(s.(names := s.names[id := name], emitted := s.emitted + [ToolCall(id, name, input)]), returned)
  {
    forall i | 0 <= i < |s.emitted| && s.emitted[i].ToolCall? ensures s.emitted[i].id != id {
      assert s.emitted[i] in s.emitted;
    }
  }

  /** Everything Separated asks of the Drafts and the accepted. */
  lemma DraftsKeepApart(s: State, used: set<string>, id: string, called: set<string>, names: set<string>)
    requires s.drafts.Keys !! CalledIds(s.emitted) && s.drafts.Keys !! s.names.Keys && AcceptedIds(s.accepted) !! CalledIds(s.emitted)
    requires id !in s.drafts && id !in AcceptedIds(s.accepted)
    requires called == CalledIds(s.emitted) + {id} && names == s.names.Keys + {id}
    ensures s.drafts.Keys !! called && s.drafts.Keys !! names && AcceptedIds(s.accepted) !! called
  {
  }

  lemma SeparatedCall(s: State, used: set<string>, returned: set<string>, id: string, name: string, input: string)
    requires Separated(s, used, returned) && id !in used + returned
    ensures Separated(s.(names := s.names[id := name], emitted := s.emitted + [ToolCall(id, name, input)]), used + {id}, returned)
  {
    var s' := s.(names := s.names[id := name], emitted := s.emitted + [ToolCall(id, name, input)]);
    Emit(s.emitted, ToolCall(id, name, input));
    OpenNamedCall(s, returned, id, name, input);
    DraftsKeepApart(s, used, id, CalledIds(s'.emitted), s'.names.Keys);
  }

  lemma SeparatedVerdict(s: State, used: set<string>, returned: set<string>, id: string, isError: bool)
    requires Separated(s, used, returned) && id in s.drafts
    ensures Separated(s.(drafts := s.drafts - {id}, accepted := s.accepted + if isError then [] else [s.drafts[id]]), used, returned + {id})
  {
    var accepted' := s.accepted + if isError then [] else [s.drafts[id]];
    assert AcceptedIds(accepted') <= AcceptedIds(s.accepted) + {id};
  }

  lemma OpenNamedResult(s: State, returned: set<string>, e: Event)
    requires OpenNamed(s, returned) && e.ToolResult?
    ensures OpenNamed(s.(names := s.names - {e.id}, emitted := s.emitted + [e]), returned + {e.id})
  {
  }

  lemma SeparatedResult(s: State, used: set<string>, returned: set<string>, e: Event)
    requires Separated(s, used, returned) && e.ToolResult? && e.id !in returned && e.id !in s.drafts
    requires e.name == if e.id in s.names then s.names[e.id] else ""
    ensures Separated(s.(names := s.names - {e.id}, emitted := s.emitted + [e]), used, returned + {e.id})
  {
    forall i | 0 <= i < |s.emitted| && s.emitted[i].ToolCall? && s.emitted[i].id == e.id ensures s.emitted[i].name == e.name {
      assert s.emitted[i].id !in returned;
    }
    Emit(s.emitted, e);
    OpenNamedResult(s, returned, e);
  }

  lemma IdsSnoc(sigs: seq<Signal>)
    requires sigs != [] && FreshIds(sigs)
    ensures var prefix, sig := sigs[..|sigs| - 1], sigs[|sigs| - 1];
            && FreshIds(prefix)
            && UsedIds(sigs) == UsedIds(prefix) + (if sig.Use? then {sig.id} else {})
            && ReturnedIds(sigs) == ReturnedIds(prefix) + (if sig.Return? then {sig.id} else {})
            && (sig.Use? ==> sig.id !in UsedIds(prefix) + ReturnedIds(prefix))
            && (sig.Return? ==> sig.id !in ReturnedIds(prefix))
  {
    assert sigs == sigs[..|sigs| - 1] + [sigs[|sigs| - 1]];
  }

  lemma {:induction false} SeparatedTexts(s: State, used: set<string>, returned: set<string>, parts: seq<string>)
    requires Separated(s, used, returned)
    ensures Separated(s.(emitted := s.emitted + TextEvents(parts)), used, returned)
  {
    if parts == [] {
      assert TextEvents(parts) == [] && s.emitted + [] == s.emitted;
    } else {
      var n := |parts| - 1;
      SeparatedTexts(s, used, returned, parts[..n]);
      var s1 := s.(emitted := s.emitted + TextEvents(parts[..n]));
      SeparatedText(s1, used, returned, parts[n]);
      assert s.emitted + TextEvents(parts) == s1.emitted + [TextDelta(parts[n])];
    }
  }

  /** What was written and whether a break is owed play no part. */
  lemma SeparatedAnyText(s: State, used: set<string>, returned: set<string>, text: string, pendingBreak: bool)
    requires Separated(s, used, returned)
    ensures Separated(s.(text := text, pendingBreak := pendingBreak), used, returned)
  {
  }

  lemma SeparatedChunk(s: State, used: set<string>, returned: set<string>, sig: Signal, tools: seq<string>)
    requires Separated(s, used, returned) && sig.Chunk?
    ensures Separated(Step(s, sig, tools), used, returned)
  {
    var parts := A.Added(s.text, s.pendingBreak, sig.text);
    var s1 := s.(emitted := s.emitted + TextEvents(parts));
    SeparatedTexts(s, used, returned, parts);
    SeparatedAnyText(s1, used, returned, Step(s, sig, tools).text, Step(s, sig, tools).pendingBreak);
  }

  lemma {:induction false} StaysSeparated(sigs: seq<Signal>, tools: seq<string>)
    requires FreshIds(sigs)
    ensures Separated(Folded(INITIAL, sigs, tools), UsedIds(sigs), ReturnedIds(sigs))
  {
    if sigs != [] {
      var prefix, sig := sigs[..|sigs| - 1], sigs[|sigs| - 1];
      IdsSnoc(sigs);
      StaysSeparated(prefix, tools);
      var s, used, returned := Folded(INITIAL, prefix, tools), UsedIds(prefix), ReturnedIds(prefix);
      match sig
      case RoundStart =>
      case Chunk(_) => SeparatedChunk(s, used, returned, sig, tools);
      case Reasoning(_) => SeparatedText(s, used, returned, "");
      case Use(id, name, input) =>
        if MatchDraft(name, tools).Some? {
          SeparatedDraft(s, used, returned, DraftCall(id, MatchDraft(name, tools).value, input));
        } else {
          SeparatedCall(s, used, returned, id, name, input);
        }
      case Return(id, content, isError) =>
        if id in s.drafts {
          SeparatedVerdict(s, used, returned, id, isError);
        } else {
          var name := if id in s.names then s.names[id] else "";
          SeparatedResult(s, used, returned, ToolResult(id, name, Outcome(content, isError)));
        }
    }
  }

  /** A call is a Draft or an activity, never both: no accepted Draft's id shows
      up as a call or a result, and what is forwarded correlates by id. */
  lemma DraftsAreNeverActivity(sigs: seq<Signal>, tools: seq<string>)
    requires FreshIds(sigs)
    ensures var s := Folded(INITIAL, sigs, tools);
            && AcceptedIds(s.accepted) !! CalledIds(s.emitted) && AcceptedIds(s.accepted) !! ResultIds(s.emitted)
            && UniqueCalls(s.emitted) && UniqueResults(s.emitted) && Echoes(s.emitted)
  {
    StaysSeparated(sigs, tools);
  }

  // ---- What a turn proposes and forwards, read off its messages alone ----

  /** The call a result answers, if it was made before. */
  function UseOf(sigs: seq<Signal>, id: string): (u: Option<Signal>)
    ensures u.Some? ==> u.value.Use? && u.value.id == id && u.value in sigs
    ensures u.None? ==> forall s :: s in sigs && s.Use? ==> s.id != id
  {
    if sigs == [] then None
    else
      var last := sigs[|sigs| - 1];
      if last.Use? && last.id == id then Some(last) else UseOf(sigs[..|sigs| - 1], id)
  }

  /** The Draft a result answers: a call under the qualified name of an offered tool. */
  function DraftOf(sigs: seq<Signal>, id: string, tools: seq<string>): (c: Option<DraftCall>)
    ensures c.Some? ==> exists u :: u in sigs && u.Use? && u.id == id && c.value.name in tools
                          && u.name == Qualified(c.value.name) && c.value == DraftCall(id, c.value.name, u.input)
    ensures c.None? && UseOf(sigs, id).Some? ==> forall t :: t in tools ==> UseOf(sigs, id).value.name != Qualified(t)
  {
    match UseOf(sigs, id)
    case None => None
    case Some(u) =>
      (match MatchDraft(u.name, tools) case None => None case Some(t) => Some(DraftCall(id, t, u.input)))
  }

  /** What one item, after what came before it, adds to the proposals. */
  function Proposal(before: seq<Signal>, sig: Signal, tools: seq<string>): seq<DraftCall> {
    if sig.Return? && !sig.isError && DraftOf(before, sig.id, tools).Some? then [DraftOf(before, sig.id, tools).value] else []
  }

  /** The Drafts whose results are no errors, in the order of those results. */
  function Proposals(sigs: seq<Signal>, tools: seq<string>): seq<DraftCall> {
    if sigs == [] then []
    else Proposals(sigs[..|sigs| - 1], tools) + Proposal(sigs[..|sigs| - 1], sigs[|sigs| - 1], tools)
  }

  /** What one item adds besides narration: any other call under its own name and
      input, any other result with its own content under the name of its call, and
      nothing of a thought but that there was one. */
  function Activity(before: seq<Signal>, sig: Signal, tools: seq<string>): seq<Event> {
    match sig
    case Use(id, name, input) => if MatchDraft(name, tools).Some? then [] else [ToolCall(id, name, input)]
    case Return(id, content, isError) =>
      if DraftOf(before, id, tools).Some? then []
      else
        var name := if UseOf(before, id).Some? then UseOf(before, id).value.name else "";
        [ToolResult(id, name, Outcome(content, isError))]
    case Reasoning(_) => [TextDelta("")]
    case _ => []
  }

  function Activities(sigs: seq<Signal>, tools: seq<string>): seq<Event> {
    if sigs == [] then []
    else Activities(sigs[..|sigs| - 1], tools) + Activity(sigs[..|sigs| - 1], sigs[|sigs| - 1], tools)
  }

  /** A stream without its narration: tool events, and the empty delta a thought is relayed as. */
  function Tooling(es: seq<Event>): seq<Event> {
    if es == [] then []
    else Tooling(es[..|es| - 1]) + if es[|es| - 1].TextDelta? && es[|es| - 1].text != "" then [] else [es[|es| - 1]]
  }

  lemma ToolingOne(es: seq<Event>, e: Event)
    ensures Tooling(es + [e]) == Tooling(es) + if e.TextDelta? && e.text != "" then [] else [e]
  {
    assert (es + [e])[..|es|] == es;
  }

  lemma {:induction false} ToolingTexts(es: seq<Event>, parts: seq<string>)
    requires forall i :: 0 <= i < |parts| ==> parts[i] != ""
    ensures Tooling(es + TextEvents(parts)) == Tooling(es)
  {
    if parts == [] {
      assert es + TextEvents(parts) == es;
    } else {
      var n := |parts| - 1;
      ToolingTexts(es, parts[..n]);
      ToolingOne(es + TextEvents(parts[..n]), TextDelta(parts[n]));
      assert es + TextEvents(parts) == es + TextEvents(parts[..n]) + [TextDelta(parts[n])];
    }
  }

  /** Still open as a Draft, or as a call, or neither, exactly as the messages say. */
  ghost predicate Remembers(s: State, sigs: seq<Signal>, tools: seq<string>, id: string) {
    var open := UseOf(sigs, id).Some? && id !in ReturnedIds(sigs);
    && (id in s.drafts <==> open && DraftOf(sigs, id, tools).Some?)
    && (id in s.drafts ==> s.drafts[id] == DraftOf(sigs, id, tools).value)
    && (id in s.names <==> open && DraftOf(sigs, id, tools).None?)
    && (id in s.names ==> s.names[id] == UseOf(sigs, id).value.name)
  }

  lemma UseOfSnoc(sigs: seq<Signal>, sig: Signal, id: string)
    ensures UseOf(sigs + [sig], id) == if sig.Use? && sig.id == id then Some(sig) else UseOf(sigs, id)
    ensures id in ReturnedIds(sigs + [sig]) <==> id in ReturnedIds(sigs) || (sig.Return? && sig.id == id)
  {
    assert (sigs + [sig])[..|sigs|] == sigs;
    assert forall x :: x in sigs + [sig] <==> x in sigs || x == sig;
  }

  lemma StepRemembers(s: State, sigs: seq<Signal>, sig: Signal, tools: seq<string>, id: string)
    requires FreshIds(sigs + [sig]) && Remembers(s, sigs, tools, id)
    requires (sig.Use? || sig.Return?) ==> Remembers(s, sigs, tools, sig.id)
    ensures Remembers(Step(s, sig, tools), sigs + [sig], tools, id)
  {
    UseOfSnoc(sigs, sig, id);
    IdsSnoc(sigs + [sig]);
    assert (sigs + [sig])[..|sigs|] == sigs;
    assert UseOf(sigs, id).Some? ==> id in UsedIds(sigs);
  }

  lemma {:induction false} AlwaysRemembers(sigs: seq<Signal>, tools: seq<string>, id: string)
    requires FreshIds(sigs)
    ensures Remembers(Folded(INITIAL, sigs, tools), sigs, tools, id)
  {
    if sigs != [] {
      var prefix, sig := sigs[..|sigs| - 1], sigs[|sigs| - 1];
      assert sigs == prefix + [sig];
      AlwaysRemembers(prefix, tools, id);
      if sig.Use? || sig.Return? {
        AlwaysRemembers(prefix, tools, sig.id);
      }
      StepRemembers(Folded(INITIAL, prefix, tools), prefix, sig, tools, id);
    }
  }

  lemma ChunkAdds(s: State, sigs: seq<Signal>, sig: Signal, tools: seq<string>)
    requires sig.Chunk?
    ensures Step(s, sig, tools).accepted == s.accepted && Tooling(Step(s, sig, tools).emitted) == Tooling(s.emitted)
  {
    assert |A.BREAK| == 2;
    ToolingTexts(s.emitted, A.Added(s.text, s.pendingBreak, sig.text));
  }

  lemma UseAdds(s: State, sigs: seq<Signal>, sig: Signal, tools: seq<string>)
    requires sig.Use?
    ensures Step(s, sig, tools).accepted == s.accepted
    ensures Tooling(Step(s, sig, tools).emitted) == Tooling(s.emitted) + Activity(sigs, sig, tools)
  {
    ToolingOne(s.emitted, ToolCall(sig.id, sig.name, sig.input));
    Unit(Tooling(s.emitted));
  }

  lemma ReturnAdds(s: State, sigs: seq<Signal>, sig: Signal, tools: seq<string>)
    requires FreshIds(sigs + [sig]) && sig.Return? && Remembers(s, sigs, tools, sig.id)
    ensures Step(s, sig, tools).accepted == s.accepted + Proposal(sigs, sig, tools)
    ensures Tooling(Step(s, sig, tools).emitted) == Tooling(s.emitted) + Activity(sigs, sig, tools)
  {
    NotYetReturned(sigs, sig);
    Unit(s.accepted);
    Unit(Tooling(s.emitted));
    if sig.id !in s.drafts {
      ToolingOne(s.emitted, Step(s, sig, tools).emitted[|s.emitted|]);
    }
  }

  lemma StepAdds(s: State, sigs: seq<Signal>, sig: Signal, tools: seq<string>)
    requires FreshIds(sigs + [sig]) && ((sig.Use? || sig.Return?) ==> Remembers(s, sigs, tools, sig.id))
    ensures Step(s, sig, tools).accepted == s.accepted + Proposal(sigs, sig, tools)
    ensures Tooling(Step(s, sig, tools).emitted) == Tooling(s.emitted) + Activity(sigs, sig, tools)
  {
    Unit(s.accepted);
    Unit(Tooling(s.emitted));
    match sig
    case RoundStart =>
    case Chunk(_) => ChunkAdds(s, sigs, sig, tools);
    case Reasoning(_) => ToolingOne(s.emitted, TextDelta(""));
    case Use(_, _, _) => UseAdds(s, sigs, sig, tools);
    case Return(_, _, _) => ReturnAdds(s, sigs, sig, tools);
  }

  lemma NotYetReturned(sigs: seq<Signal>, sig: Signal)
    requires FreshIds(sigs + [sig]) && sig.Return?
    ensures sig.id !in ReturnedIds(sigs)
  {
    IdsSnoc(sigs + [sig]);
    assert (sigs + [sig])[..|sigs|] == sigs;
  }

  /** A turn proposes exactly the calls of offered tools whose results are no errors, in
      the order of these results, each under its bare name with its own input; and
      forwards exactly every other call and result as it came. */
  lemma {:induction false} ProposedAndForwarded(sigs: seq<Signal>, tools: seq<string>)
    requires FreshIds(sigs)
    ensures Folded(INITIAL, sigs, tools).accepted == Proposals(sigs, tools)
    ensures Tooling(Folded(INITIAL, sigs, tools).emitted) == Activities(sigs, tools)
  {
    if sigs != [] {
      var prefix, sig := sigs[..|sigs| - 1], sigs[|sigs| - 1];
      assert sigs == prefix + [sig];
      ProposedAndForwarded(prefix, tools);
      if sig.Use? || sig.Return? {
        AlwaysRemembers(prefix, tools, sig.id);
      }
      StepAdds(Folded(INITIAL, prefix, tools), prefix, sig, tools);
    }
  }

  lemma StepGrows(s: State, sig: Signal, tools: seq<string>)
    ensures s.emitted <= Step(s, sig, tools).emitted
  {
  }

  /** Nothing relayed is ever taken back or moved: with what each prefix relays known,
      so is the order of narration and tools. */
  lemma {:induction false} RelayedGrows(sigs: seq<Signal>, n: nat, tools: seq<string>)
    requires n <= |sigs|
    ensures Folded(INITIAL, sigs[..n], tools).emitted <= Folded(INITIAL, sigs, tools).emitted
  {
    if n == |sigs| {
      assert sigs[..n] == sigs;
    } else {
      var prefix := sigs[..|sigs| - 1];
      RelayedGrows(prefix, n, tools);
      assert prefix[..n] == sigs[..n];
      StepGrows(Folded(INITIAL, prefix, tools), sigs[|sigs| - 1], tools);
    }
  }

  // ---- The items of a message, by place ----

  /** Every block and reply says its one item, in place, and no message says another. */
  lemma MessageSays(m: Message, before: seq<Block>, b: Block, after: seq<Block>, answered: seq<Reply>, r: Reply, later: seq<Reply>)
    ensures Signals(AssistantMessage(before + [b] + after)) ==
            Signals(AssistantMessage(before)) +
            (match b { case Thinking(t) => [Reasoning(t)] case ToolUse(id, name, input) => [Use(id, name, input)] case OtherBlock => [] }) +
            Signals(AssistantMessage(after))
    ensures Signals(UserMessage(answered + [r] + later)) ==
            Signals(UserMessage(answered)) +
            (match r { case ToolReturn(id, content, isError) => [Return(id, content, isError)] case OtherReply => [] }) +
            Signals(UserMessage(later))
    ensures !m.AssistantMessage? && !m.UserMessage? ==>
            Signals(m) ==
            match m {
              case MessageStart => [RoundStart]
              case TextChunk(t) => [Chunk(t)]
              case ReasoningChunk(t) => [Reasoning(t)]
              case _ => []
            }
  {
    BlocksAppend(before + [b], after);
    BlocksAppend(before, [b]);
    RepliesAppend(answered + [r], later);
    RepliesAppend(answered, [r]);
    assert [b][..0] == [] && [r][..0] == [];
  }

  lemma {:induction false} BlocksAppend(a: seq<Block>, b: seq<Block>)
    ensures BlocksSignals(a + b) == BlocksSignals(a) + BlocksSignals(b)
  {
    if b == [] {
      assert a + b == a;
      Unit(BlocksSignals(a));
    } else {
      var n := |b| - 1;
      BlocksAppend(a, b[..n]);
      assert (a + b)[..|a + b| - 1] == a + b[..n] && (a + b)[|a + b| - 1] == b[n];
      Associative(BlocksSignals(a), BlocksSignals(b[..n]), BlockSignals(b[|b| - 1]));
    }
  }

  lemma {:induction false} RepliesAppend(a: seq<Reply>, b: seq<Reply>)
    ensures RepliesSignals(a + b) == RepliesSignals(a) + RepliesSignals(b)
  {
    if b == [] {
      assert a + b == a;
      Unit(RepliesSignals(a));
    } else {
      var n := |b| - 1;
      RepliesAppend(a, b[..n]);
      assert (a + b)[..|a + b| - 1] == a + b[..n] && (a + b)[|a + b| - 1] == b[n];
      Associative(RepliesSignals(a), RepliesSignals(b[..n]), ReplySignals(b[|b| - 1]));
    }
  }

  lemma {:induction false} StreamAppend(a: seq<Message>, b: seq<Message>)
    ensures StreamSignals(a + b) == StreamSignals(a) + StreamSignals(b)
  {
    if b == [] {
      assert a + b == a;
      Unit(StreamSignals(a));
    } else {
      var n := |b| - 1;
      StreamAppend(a, b[..n]);
      assert (a + b)[..|a + b| - 1] == a + b[..n] && (a + b)[|a + b| - 1] == b[n];
      Associative(StreamSignals(a), StreamSignals(b[..n]), Signals(b[|b| - 1]));
    }
  }

  // ---- The loops as the source runs them ----

  class Turn {
    var content: A.AssistantText
    var names: map<string, string>
    var drafts: map<string, DraftCall>
    var accepted: seq<DraftCall>
    var emitted: seq<Event>

    ghost predicate Valid()
      reads this, content
    {
      content.Valid()
    }

    ghost function Abs(): State
      reads this, content
    {
      State(content.text, content.pendingBreak, names, drafts, accepted, emitted)
    }

    constructor ()
      ensures Valid() && fresh(content) && Abs() == INITIAL
    {
      content := new A.AssistantText();
      names, drafts, accepted, emitted := map[], map[], [], [];
    }

    method OnBlock(b: Block, tools: seq<string>)
      requires Valid()
      modifies this`names, this`drafts, this`emitted
      ensures Valid() && Abs() == Folded(old(Abs()), BlockSignals(b), tools)
    {
      ghost var before := Abs();
      match b
      case Thinking(t) =>
        FoldedOne(before, Reasoning(t), tools);
        emitted := emitted + [TextDelta("")];
      case ToolUse(id, name, input) =>
        FoldedOne(before, Use(id, name, input), tools);
        var bare := MatchDraft(name, tools);
        if bare.Some? {
          drafts := drafts[id := DraftCall(id, bare.value, input)];
        } else {
          emitted := emitted + [ToolCall(id, name, input)];
          names := names[id := name];
        }
      case OtherBlock =>
    }

    method OnReply(r: Reply, tools: seq<string>)
      requires Valid()
      modifies this`names, this`drafts, this`accepted, this`emitted
      ensures Valid() && Abs() == Folded(old(Abs()), ReplySignals(r), tools)
    {
      if r.OtherReply? {
        return;
      }
      FoldedOne(Abs(), Return(r.id, r.content, r.isError), tools);
      if r.id in drafts {
        var call := drafts[r.id];
        drafts := drafts - {r.id};
        if !r.isError {
          accepted := accepted + [call];
        }
        return;
      }
      var name := if r.id in names then names[r.id] else "";
      names := names - {r.id};
      emitted := emitted + [ToolResult(r.id, name, Outcome(r.content, r.isError))];
    }

    method OnBlocks(blocks: seq<Block>, tools: seq<string>)
      requires Valid()
      modifies this`names, this`drafts, this`emitted
      ensures Valid() && Abs() == Folded(old(Abs()), BlocksSignals(blocks), tools)
    {
      ghost var before := Abs();
      for i := 0 to |blocks|
        invariant Valid() && Abs() == Folded(before, BlocksSignals(blocks[..i]), tools)
      {
        assert blocks[..i + 1][..i] == blocks[..i];
        FoldedAppend(before, BlocksSignals(blocks[..i]), BlockSignals(blocks[i]), tools);
        OnBlock(blocks[i], tools);
      }
      assert blocks[..|blocks|] == blocks;
    }

    method OnReplies(replies: seq<Reply>, tools: seq<string>)
      requires Valid()
      modifies this`names, this`drafts, this`accepted, this`emitted
      ensures Valid() && Abs() == Folded(old(Abs()), RepliesSignals(replies), tools)
    {
      ghost var before := Abs();
      for i := 0 to |replies|
        invariant Valid() && Abs() == Folded(before, RepliesSignals(replies[..i]), tools)
      {
        assert replies[..i + 1][..i] == replies[..i];
        FoldedAppend(before, RepliesSignals(replies[..i]), ReplySignals(replies[i]), tools);
        OnReply(replies[i], tools);
      }
      assert replies[..|replies|] == replies;
    }

    /** `failed` is the error an error result comes back with, once its text and
        session id have been taken. */
    method ProcessMessage(m: Message, tools: seq<string>) returns (done: bool, failed: bool)
      requires Valid()
      modifies this`names, this`drafts, this`accepted, this`emitted, content
      ensures Valid() && Abs() == Folded(old(Abs()), Signals(m), tools)
      ensures done <==> m.ResultMessage?
      ensures failed <==> m.ResultMessage? && m.isError
    {
      ghost var before := Abs();
      done, failed := false, false;
      match m
      case MessageStart =>
        FoldedOne(before, RoundStart, tools);
        content.StartNewRound();
      case TextChunk(t) =>
        FoldedOne(before, Chunk(t), tools);
        var relayed := content.AppendDelta(t);
        emitted := emitted + TextEvents(relayed);
      case ReasoningChunk(t) =>
        FoldedOne(before, Reasoning(t), tools);
        emitted := emitted + [TextDelta("")];
      case OtherStream =>
      case AssistantMessage(blocks) => OnBlocks(blocks, tools);
      case UserMessage(replies) => OnReplies(replies, tools);
      case ResultMessage(_, isError) => done, failed := true, isError;
    }
  }

  /** How the message loop came to its end. */
  datatype Ending = Finished | Failed | Closed

  /** The turn's first ResultMessage decides; without one the channel closed. */
  function EndingOf(ms: seq<Message>): Ending {
    if ms == [] then Closed
    else if ms[0].ResultMessage? then (if ms[0].isError then Failed else Finished)
    else EndingOf(ms[1..])
  }

  /** How many messages a turn reads: everything up to and with its first ResultMessage. */
  function Consumed(ms: seq<Message>): (n: nat)
    ensures n <= |ms|
    ensures (exists k :: 0 <= k < |ms| && ms[k].ResultMessage?) ==> n > 0 && ms[n - 1].ResultMessage?
  {
    if ms == [] then 0
    else if ms[0].ResultMessage? then 1
    else 1 + Consumed(ms[1..])
  }

  predicate NoResult(ms: seq<Message>, n: nat)
    requires n <= |ms|
  {
    forall k :: 0 <= k < n ==> !ms[k].ResultMessage?
  }

  lemma {:induction false} ConsumedAll(ms: seq<Message>, i: nat)
    requires i <= |ms| && NoResult(ms, i)
    ensures i == |ms| ==> Consumed(ms) == i && EndingOf(ms).Closed?
    ensures i < |ms| && ms[i].ResultMessage? ==>
              Consumed(ms) == i + 1 && EndingOf(ms) == if ms[i].isError then Failed else Finished
  {
    if i > 0 {
      assert forall k :: 0 <= k < i - 1 ==> ms[1..][k] == ms[k + 1];
      ConsumedAll(ms[1..], i - 1);
    }
  }

  /** How far the loop has read: the state it is in, and whether a result ended it. */
  ghost predicate HasRead(ms: seq<Message>, n: nat, done: bool, failed: bool, s: State, tools: seq<string>) {
    && n <= |ms| && s == Folded(INITIAL, StreamSignals(ms[..n]), tools)
    && (if done then n > 0 && NoResult(ms, n - 1) && ms[n - 1].ResultMessage? && failed == ms[n - 1].isError
        else NoResult(ms, n) && !failed)
  }

  lemma ReadMore(ms: seq<Message>, n: nat, s: State, tools: seq<string>)
    requires n < |ms| && HasRead(ms, n, false, false, s, tools)
    ensures var m := ms[n];
            HasRead(ms, n + 1, m.ResultMessage?, m.ResultMessage? && m.isError, Folded(s, Signals(m), tools), tools)
  {
    StreamOneMore(ms, n);
    FoldedAppend(INITIAL, StreamSignals(ms[..n]), Signals(ms[n]), tools);
  }

  lemma StreamOneMore(ms: seq<Message>, n: nat)
    requires n < |ms|
    ensures StreamSignals(ms[..n + 1]) == StreamSignals(ms[..n]) + Signals(ms[n])
  {
    assert ms[..n + 1][..n] == ms[..n];
  }

  lemma ReadAll(ms: seq<Message>, n: nat, done: bool, failed: bool, s: State, tools: seq<string>)
    requires HasRead(ms, n, done, failed, s, tools) && (done || n == |ms|)
    ensures n == Consumed(ms) && EndingOf(ms) == (if !done then Closed else if failed then Failed else Finished)
    ensures s == Folded(INITIAL, StreamSignals(ms[..Consumed(ms)]), tools) && s.text == Narration(s.emitted)
    ensures done ==> n > 0 && ms[n - 1].ResultMessage?
  {
    ConsumedAll(ms, if done then n - 1 else n);
    TextIsNarration(StreamSignals(ms[..n]), tools);
  }

  /** Reads the message channel until the turn's ResultMessage, error or not. */
  method ReadMessages(turn: Turn, ms: seq<Message>, tools: seq<string>) returns (n: nat, done: bool, failed: bool)
    requires turn.Valid() && turn.Abs() == INITIAL
    modifies turn, turn.content
    ensures turn.Valid() && turn.content == old(turn.content)
    ensures HasRead(ms, n, done, failed, turn.Abs(), tools) && (done || n == |ms|)
  {
    n, done, failed := 0, false, false;
    while n < |ms| && !done
      invariant turn.Valid() && turn.content == old(turn.content)
      invariant HasRead(ms, n, done, failed, turn.Abs(), tools)
      decreases |ms| - n, !done
    {
      ReadMore(ms, n, turn.Abs(), tools);
      done, failed := turn.ProcessMessage(ms[n], tools);
      n := n + 1;
    }
  }

  /** Drains one turn. Its content is then exactly what was relayed while it ran. */
  method Drain(ms: seq<Message>, tools: seq<string>)
    returns (ending: Ending, content: string, sessionID: string, proposed: seq<DraftCall>, events: seq<Event>)
    ensures ending == EndingOf(ms)
    ensures !ending.Closed? ==> 0 < Consumed(ms) && ms[Consumed(ms) - 1].ResultMessage?
    ensures !ending.Closed? ==> content == Narration(events) && sessionID == ms[Consumed(ms) - 1].sessionID
    ensures ending.Closed? ==> content == "" && sessionID == ""
    ensures var s := Folded(INITIAL, StreamSignals(ms[..Consumed(ms)]), tools);
            proposed == s.accepted && events == s.emitted
    ensures var sigs := StreamSignals(ms[..Consumed(ms)]);
            FreshIds(sigs) ==> proposed == Proposals(sigs, tools) && Tooling(events) == Activities(sigs, tools)
  {
    ghost var sigs := StreamSignals(ms[..Consumed(ms)]);
    if FreshIds(sigs) {
      ProposedAndForwarded(sigs, tools);
    }
    var turn := new Turn();
    var n, done, failed := ReadMessages(turn, ms, tools);
    ReadAll(ms, n, done, failed, turn.Abs(), tools);
    ending, content, sessionID := Closed, "", "";
    if done {
      ending, content, sessionID := if failed then Failed else Finished, turn.content.text, ms[n - 1].sessionID;
    }
    proposed, events := turn.accepted, turn.emitted;
  }
}
