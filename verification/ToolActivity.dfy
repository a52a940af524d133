/**
 The live view of one agent turn: narration and tool calls coalesced into
 blocks, with every result attached to its call by id
 (frontend/src/toolActivityBlocks.ts).
 */
module ToolActivityBlocks {
  import opened Options
  import opened Sequences

  datatype Outcome = Outcome(result: string, isError: bool)
  datatype Activity = Activity(id: string, name: string, arguments: string, outcome: Option<Outcome>)
  datatype Block = TextBlock(text: string) | ToolsBlock(activities: seq<Activity>)

  /** What a runner reports while a turn runs, in arrival order. */
  datatype Event =
    | TextDelta(text: string)
    | ToolCall(id: string, name: string, arguments: string)
    | ToolResult(id: string, name: string, outcome: Outcome)

  function AppendText(blocks: seq<Block>, text: string): seq<Block> {
    var n := |blocks|;
    if n > 0 && blocks[n - 1].TextBlock? then
      blocks[..n - 1] + [TextBlock(blocks[n - 1].text + text)]
    else
      blocks + [TextBlock(text)]
  }

  function AppendCall(blocks: seq<Block>, activity: Activity): seq<Block> {
    var n := |blocks|;
    if n > 0 && blocks[n - 1].ToolsBlock? then
      blocks[..n - 1] + [ToolsBlock(blocks[n - 1].activities + [activity])]
    else
      blocks + [ToolsBlock([activity])]
  }

  function Resolve(a: Activity, id: string, o: Outcome): Activity {
    if a.id == id then a.(outcome := Some(o)) else a
  }

  function ResolveIn(b: Block, id: string, o: Outcome): Block {
    match b
    case TextBlock(_) => b
    case ToolsBlock(acts) => ToolsBlock(seq(|acts|, j requires 0 <= j < |acts| => Resolve(acts[j], id, o)))
  }

  /** An empty id marks data recorded before ids existed: it falls back to the trailing entry. */
  function AppendResult(blocks: seq<Block>, id: string, o: Outcome): seq<Block> {
    if id == "" then
      var n := |blocks|;
      if n == 0 || blocks[n - 1].TextBlock? || blocks[n - 1].activities == [] then blocks
      else
        var acts := blocks[n - 1].activities;
        blocks[..n - 1] + [ToolsBlock(acts[|acts| - 1 := acts[|acts| - 1].(outcome := Some(o))])]
    else
      seq(|blocks|, i requires 0 <= i < |blocks| => ResolveIn(blocks[i], id, o))
  }

  // ---- A result without an id ----

  /** How many activities come before the last pending one and with it; 0 without one. */
  function PendingEnd(acts: seq<Activity>): (n: nat)
    ensures n <= |acts|
    ensures n > 0 ==> acts[n - 1].outcome.None?
    ensures forall k :: n <= k < |acts| ==> acts[k].outcome.Some?
  {
    if acts == [] || acts[|acts| - 1].outcome.None? then |acts| else PendingEnd(acts[..|acts| - 1])
  }

  /** What the comment describes: the trailing block's last still-pending activity. */
  function AppendToPending(blocks: seq<Block>, o: Outcome): seq<Block> {
    var n := |blocks|;
    if n == 0 || blocks[n - 1].TextBlock? then blocks
    else
      var acts := blocks[n - 1].activities;
      var k := PendingEnd(acts);
      if k == 0 then blocks else blocks[..n - 1] + [ToolsBlock(acts[k - 1 := acts[k - 1].(outcome := Some(o))])]
  }

  /** The code takes the last activity, pending or not: that is what the comment says
      unless it is answered and an earlier one is not, or its answer is replaced. */
  lemma EmptyIdFollowsComment(blocks: seq<Block>, o: Outcome)
    ensures var n := |blocks|;
            AppendResult(blocks, "", o) == AppendToPending(blocks, o) <==>
              || n == 0 || blocks[n - 1].TextBlock? || blocks[n - 1].activities == []
              || var acts := blocks[n - 1].activities;
                 var last := acts[|acts| - 1].outcome;
                 last.None? || (last == Some(o) && forall k :: 0 <= k < |acts| ==> acts[k].outcome.Some?)
  {
    var n := |blocks|;
    if n > 0 && blocks[n - 1].ToolsBlock? && blocks[n - 1].activities != [] {
      var acts := blocks[n - 1].activities;
      var k, m := PendingEnd(acts), |acts| - 1;
      var code := acts[m := acts[m].(outcome := Some(o))];
      var comment := if k == 0 then acts else acts[k - 1 := acts[k - 1].(outcome := Some(o))];
      assert AppendResult(blocks, "", o)[n - 1] == ToolsBlock(code) && AppendToPending(blocks, o)[n - 1] == ToolsBlock(comment);
      assert blocks == blocks[..n - 1] + [blocks[n - 1]];
      if k == 0 {
        assert code[m] == acts[m].(outcome := Some(o)) && comment[m] == acts[m];
        assert acts[m].outcome == Some(o) ==> code == acts;
      } else if k - 1 < m {
        assert code[k - 1] == acts[k - 1] && comment[k - 1].outcome == Some(o);
      }
    }
  }

  /** An answered call loses its answer to the one still pending before it. */
  lemma EmptyIdOverwrites(a: Activity, b: Activity, o: Outcome)
    requires a.outcome.None? && b.outcome.Some? && b.outcome != Some(o)
    ensures AppendResult([ToolsBlock([a, b])], "", o) == [ToolsBlock([a, b.(outcome := Some(o))])]
    ensures AppendToPending([ToolsBlock([a, b])], o) == [ToolsBlock([a.(outcome := Some(o)), b])]
  {
    var before, code, comment := [a, b], [a, b.(outcome := Some(o))], [a.(outcome := Some(o)), b];
    assert before[..1] == [a] && PendingEnd([a]) == 1 && PendingEnd(before) == 1;
    assert before[1 := b.(outcome := Some(o))] == code && before[0 := a.(outcome := Some(o))] == comment;
    assert [ToolsBlock(before)][..0] + [ToolsBlock(code)] == [ToolsBlock(code)];
    assert [ToolsBlock(before)][..0] + [ToolsBlock(comment)] == [ToolsBlock(comment)];
  }

  /** One stream event as the conversation panel applies it; a delta without text changes nothing. */
  function Apply(blocks: seq<Block>, e: Event): seq<Block> {
    match e
    case TextDelta(text) => if text == "" then blocks else AppendText(blocks, text)
    case ToolCall(id, name, arguments) => AppendCall(blocks, Activity(id, name, arguments, None))
    case ToolResult(id, _, o) => AppendResult(blocks, id, o)
  }

  function Live(es: seq<Event>): seq<Block> {
    if es == [] then [] else Apply(Live(es[..|es| - 1]), es[|es| - 1])
  }

  // ---- The order-free description: a skeleton filled from a map ----

  /** The blocks left when every result is dropped from the stream. */
  function Skeleton(es: seq<Event>): seq<Block> {
    if es == [] then []
    else if es[|es| - 1].ToolResult? then Skeleton(es[..|es| - 1])
    else Apply(Skeleton(es[..|es| - 1]), es[|es| - 1])
  }

  function CalledIds(es: seq<Event>): set<string> {
    set e | e in es && e.ToolCall? :: e.id
  }

  /** The provider never reuses a call id within a turn. */
  predicate UniqueCalls(es: seq<Event>) {
    es == [] ||
    (UniqueCalls(es[..|es| - 1]) &&
     (es[|es| - 1].ToolCall? ==> es[|es| - 1].id !in CalledIds(es[..|es| - 1])))
  }

  predicate NamedResults(es: seq<Event>) {
    forall e :: e in es && e.ToolResult? ==> e.id != ""
  }

  /** Per call, the first result that follows it. */
  function FirstResults(es: seq<Event>): map<string, Outcome> {
    if es == [] then map[] else
    var prefix, e := es[..|es| - 1], es[|es| - 1];
    var m := FirstResults(prefix);
    if e.ToolResult? && e.id in CalledIds(prefix) && e.id !in m then m[e.id := e.outcome] else m
  }

  /** Per call, the last result that follows it. */
  function LastResults(es: seq<Event>): map<string, Outcome> {
    if es == [] then map[] else
    var prefix, e := es[..|es| - 1], es[|es| - 1];
    var m := LastResults(prefix);
    if e.ToolResult? && e.id in CalledIds(prefix) then m[e.id := e.outcome] else m
  }

  function FillActivity(a: Activity, m: map<string, Outcome>): Activity {
    if a.id in m then a.(outcome := Some(m[a.id])) else a
  }

  function FillBlock(b: Block, m: map<string, Outcome>): Block {
    match b
    case TextBlock(_) => b
    case ToolsBlock(acts) => ToolsBlock(seq(|acts|, j requires 0 <= j < |acts| => FillActivity(acts[j], m)))
  }

  function Fill(blocks: seq<Block>, m: map<string, Outcome>): seq<Block> {
    seq(|blocks|, i requires 0 <= i < |blocks| => FillBlock(blocks[i], m))
  }

  // ---- Facts about the skeleton ----

  predicate At(blocks: seq<Block>, i: int, j: int) {
    0 <= i < |blocks| && blocks[i].ToolsBlock? && 0 <= j < |blocks[i].activities|
  }

  function IdAt(blocks: seq<Block>, i: int, j: int): string
    requires At(blocks, i, j)
  {
    blocks[i].activities[j].id
  }

  ghost predicate DistinctIds(blocks: seq<Block>) {
    forall i, j, k, l :: At(blocks, i, j) && At(blocks, k, l) && IdAt(blocks, i, j) == IdAt(blocks, k, l) ==>
      i == k && j == l
  }

  ghost predicate IdsIn(blocks: seq<Block>, ids: set<string>) {
    forall i, j :: At(blocks, i, j) ==> IdAt(blocks, i, j) in ids
  }

  lemma CalledIdsSnoc(es: seq<Event>)
    requires es != []
    ensures var e := es[|es| - 1];
            CalledIds(es) == CalledIds(es[..|es| - 1]) + (if e.ToolCall? then {e.id} else {})
  {
    assert es == es[..|es| - 1] + [es[|es| - 1]];
  }

  /** Appending narration or a call moves no entry: it keeps its coordinates. */
  lemma PositionsStable(blocks: seq<Block>, e: Event)
    requires !e.ToolResult?
    ensures forall i, j :: At(blocks, i, j) ==> At(Apply(blocks, e), i, j) && Apply(blocks, e)[i].activities[j] == blocks[i].activities[j]
    ensures forall i, j :: At(Apply(blocks, e), i, j) ==>
              || At(blocks, i, j)
              || (e.ToolCall? && (i, j) == NextSlot(blocks) && IdAt(Apply(blocks, e), i, j) == e.id)
    ensures e.ToolCall? ==> At(Apply(blocks, e), NextSlot(blocks).0, NextSlot(blocks).1)
  {
  }

  /** Where the next call's entry will go. */
  function NextSlot(blocks: seq<Block>): (int, int) {
    var n := |blocks|;
    if n > 0 && blocks[n - 1].ToolsBlock? then (n - 1, |blocks[n - 1].activities|) else (n, 0)
  }

  lemma {:induction false} SkeletonIds(es: seq<Event>)
    ensures IdsIn(Skeleton(es), CalledIds(es))
    ensures UniqueCalls(es) ==> DistinctIds(Skeleton(es))
  {
    if es != [] {
      var prefix, e := es[..|es| - 1], es[|es| - 1];
      SkeletonIds(prefix);
      CalledIdsSnoc(es);
      if !e.ToolResult? {
        PositionsStable(Skeleton(prefix), e);
        var before, after := Skeleton(prefix), Skeleton(es);
        forall i, j | At(after, i, j)
          ensures IdAt(after, i, j) in CalledIds(es)
        {
          assert At(before, i, j) ==> IdAt(before, i, j) in CalledIds(prefix);
        }
        if UniqueCalls(es) {
          forall i, j, k, l | At(after, i, j) && At(after, k, l) && IdAt(after, i, j) == IdAt(after, k, l)
            ensures i == k && j == l
          {
            assert At(before, i, j) ==> IdAt(before, i, j) in CalledIds(prefix);
            assert At(before, k, l) ==> IdAt(before, k, l) in CalledIds(prefix);
          }
        }
      }
    }
  }

  /** A turn's blocks are never empty and always alternate between narration and tools. */
  ghost predicate Alternating(blocks: seq<Block>) {
    && (forall i :: 0 <= i < |blocks| ==>
         match blocks[i] case TextBlock(t) => t != "" case ToolsBlock(acts) => acts != [])
    && (forall i :: 0 < i < |blocks| ==> blocks[i - 1].TextBlock? != blocks[i].TextBlock?)
  }

  lemma {:induction false} LiveAlternates(es: seq<Event>)
    ensures Alternating(Live(es))
  {
    if es != [] {
      LiveAlternates(es[..|es| - 1]);
    }
  }

  lemma FillText(blocks: seq<Block>, m: map<string, Outcome>, text: string)
    ensures AppendText(Fill(blocks, m), text) == Fill(AppendText(blocks, text), m)
  {
  }

  lemma FillCall(blocks: seq<Block>, m: map<string, Outcome>, a: Activity)
    requires a.id !in m
    ensures AppendCall(Fill(blocks, m), a) == Fill(AppendCall(blocks, a), m)
  {
    var n := |blocks|;
    if n > 0 && blocks[n - 1].ToolsBlock? {
      var acts := blocks[n - 1].activities;
      var filled := Fill(blocks, m)[n - 1].activities;
      assert filled + [a] == seq(|acts| + 1, j requires 0 <= j < |acts| + 1 => FillActivity((acts + [a])[j], m));
    } else {
      assert [a] == seq(1, j requires 0 <= j < 1 => FillActivity([a][j], m));
    }
  }

  lemma FillResolve(blocks: seq<Block>, m: map<string, Outcome>, id: string, o: Outcome)
    requires id != ""
    ensures AppendResult(Fill(blocks, m), id, o) == Fill(blocks, m[id := o])
  {
    forall i | 0 <= i < |blocks|
      ensures ResolveIn(FillBlock(blocks[i], m), id, o) == FillBlock(blocks[i], m[id := o])
    {
    }
  }

  lemma FillOther(blocks: seq<Block>, m: map<string, Outcome>, ids: set<string>, id: string, o: Outcome)
    requires IdsIn(blocks, ids) && id !in ids
    ensures Fill(blocks, m[id := o]) == Fill(blocks, m)
  {
    forall i | 0 <= i < |blocks|
      ensures FillBlock(blocks[i], m[id := o]) == FillBlock(blocks[i], m)
    {
      if blocks[i].ToolsBlock? {
        var acts := blocks[i].activities;
        forall j | 0 <= j < |acts| ensures acts[j].id != id { assert At(blocks, i, j); assert IdAt(blocks, i, j) in ids; }
      }
    }
  }

  lemma {:induction false} ResultKeys(es: seq<Event>)
    ensures FirstResults(es).Keys == LastResults(es).Keys <= CalledIds(es)
  {
    if es != [] {
      ResultKeys(es[..|es| - 1]);
      CalledIdsSnoc(es);
    }
  }

  /** The live view is the skeleton filled, per call, with the last result that followed it. */
  lemma {:induction false} LiveIsFilledSkeleton(es: seq<Event>)
    requires UniqueCalls(es) && NamedResults(es)
    ensures Live(es) == Fill(Skeleton(es), LastResults(es))
  {
    if es != [] {
      var prefix, e := es[..|es| - 1], es[|es| - 1];
      assert forall x :: x in prefix ==> x in es;
      assert e in es;
      LiveIsFilledSkeleton(prefix);
      ResultKeys(prefix);
      var sk, m := Skeleton(prefix), LastResults(prefix);
      match e
      case TextDelta(text) => FillText(sk, m, text);
      case ToolCall(id, name, arguments) => FillCall(sk, m, Activity(id, name, arguments, None));
      case ToolResult(id, _, o) =>
        FillResolve(sk, m, id, o);
        if id !in CalledIds(prefix) {
          SkeletonIds(prefix);
          FillOther(sk, m, CalledIds(prefix), id, o);
        }
    }
  }

  // ---- The order of narration and calls ----

  /** One character narrated, or one call made. */
  datatype Mark = Said(c: char) | Called(id: string, name: string, arguments: string)

  function TextMarks(text: string): seq<Mark> {
    seq(|text|, i requires 0 <= i < |text| => Said(text[i]))
  }

  function EventMarks(e: Event): seq<Mark> {
    match e
    case TextDelta(text) => TextMarks(text)
    case ToolCall(id, name, arguments) => [Called(id, name, arguments)]
    case ToolResult(_, _, _) => []
  }

  function StreamMarks(es: seq<Event>): seq<Mark> {
    if es == [] then [] else StreamMarks(es[..|es| - 1]) + EventMarks(es[|es| - 1])
  }

  function BlockMarks(b: Block): seq<Mark> {
    match b
    case TextBlock(text) => TextMarks(text)
    case ToolsBlock(acts) => seq(|acts|, j requires 0 <= j < |acts| => Called(acts[j].id, acts[j].name, acts[j].arguments))
  }

  function Marks(blocks: seq<Block>): seq<Mark> {
    if blocks == [] then [] else Marks(blocks[..|blocks| - 1]) + BlockMarks(blocks[|blocks| - 1])
  }

  lemma MarksSnoc(blocks: seq<Block>, b: Block)
    ensures Marks(blocks + [b]) == Marks(blocks) + BlockMarks(b)
  {
    assert (blocks + [b])[..|blocks|] == blocks;
  }

  lemma MarksLast(blocks: seq<Block>, b: Block, more: seq<Mark>)
    requires blocks != [] && BlockMarks(b) == BlockMarks(blocks[|blocks| - 1]) + more
    ensures Marks(blocks[..|blocks| - 1] + [b]) == Marks(blocks) + more
  {
    MarksSnoc(blocks[..|blocks| - 1], b);
    Associative(Marks(blocks[..|blocks| - 1]), BlockMarks(blocks[|blocks| - 1]), more);
  }

  lemma {:induction false} MarksSame(a: seq<Block>, b: seq<Block>)
    requires |a| == |b| && forall i :: 0 <= i < |a| ==> BlockMarks(a[i]) == BlockMarks(b[i])
    ensures Marks(a) == Marks(b)
  {
    if a != [] {
      MarksSame(a[..|a| - 1], b[..|b| - 1]);
    }
  }

  lemma TextAddsMarks(blocks: seq<Block>, text: string)
    ensures Marks(AppendText(blocks, text)) == Marks(blocks) + TextMarks(text)
  {
    var n := |blocks|;
    if n > 0 && blocks[n - 1].TextBlock? {
      MarksLast(blocks, TextBlock(blocks[n - 1].text + text), TextMarks(text));
    } else {
      MarksSnoc(blocks, TextBlock(text));
    }
  }

  lemma CallAddsMark(blocks: seq<Block>, a: Activity)
    ensures Marks(AppendCall(blocks, a)) == Marks(blocks) + [Called(a.id, a.name, a.arguments)]
  {
    var n, mark := |blocks|, [Called(a.id, a.name, a.arguments)];
    if n > 0 && blocks[n - 1].ToolsBlock? {
      assert BlockMarks(ToolsBlock(blocks[n - 1].activities + [a])) == BlockMarks(blocks[n - 1]) + mark;
      MarksLast(blocks, ToolsBlock(blocks[n - 1].activities + [a]), mark);
    } else {
      assert BlockMarks(ToolsBlock([a])) == mark;
      MarksSnoc(blocks, ToolsBlock([a]));
    }
  }

  lemma ApplyMarks(blocks: seq<Block>, e: Event)
    ensures Marks(Apply(blocks, e)) == Marks(blocks) + EventMarks(e)
  {
    Unit(Marks(blocks));
    match e
    case TextDelta(text) => TextAddsMarks(blocks, text);
    case ToolCall(id, name, arguments) => CallAddsMark(blocks, Activity(id, name, arguments, None));
    case ToolResult(id, _, o) => ResultMarks(blocks, id, o);
  }

  lemma ResultMarks(blocks: seq<Block>, id: string, o: Outcome)
    ensures Marks(AppendResult(blocks, id, o)) == Marks(blocks)
  {
    var after := AppendResult(blocks, id, o);
    forall i | 0 <= i < |blocks| ensures BlockMarks(after[i]) == BlockMarks(blocks[i]) { }
    MarksSame(after, blocks);
  }

  /** For every stream, whatever its ids and results: read block by block, the view says
      what the stream said and lists the calls it made, in one and the same order. */
  lemma {:induction false} LiveInOrder(es: seq<Event>)
    ensures Marks(Live(es)) == StreamMarks(es)
  {
    if es != [] {
      LiveInOrder(es[..|es| - 1]);
      ApplyMarks(Live(es[..|es| - 1]), es[|es| - 1]);
    }
  }

  predicate Open(b: Block) {
    b.ToolsBlock? ==> forall j :: 0 <= j < |b.activities| ==> b.activities[j].outcome.None?
  }

  lemma OpenBlocksEqual(a: Block, b: Block)
    requires Open(a) && Open(b) && a.TextBlock? == b.TextBlock? && BlockMarks(a) == BlockMarks(b)
    ensures a == b
  {
    if a.TextBlock? {
      forall i | 0 <= i < |a.text| ensures |b.text| == |a.text| && a.text[i] == b.text[i] {
        assert |TextMarks(a.text)| == |TextMarks(b.text)| && TextMarks(a.text)[i] == TextMarks(b.text)[i];
      }
      assert |TextMarks(a.text)| == |a.text| && |TextMarks(b.text)| == |b.text|;
    } else {
      assert |BlockMarks(a)| == |a.activities| && |BlockMarks(b)| == |b.activities|;
      forall j | 0 <= j < |a.activities| ensures a.activities[j] == b.activities[j] {
        assert BlockMarks(a)[j] == BlockMarks(b)[j];
      }
    }
  }

  /** The longest stretch of one kind at the end starts here. */
  predicate Stretch(marks: seq<Mark>, from: int, said: bool) {
    && 0 <= from < |marks| && (forall k :: from <= k < |marks| ==> marks[k].Said? == said)
    && (from > 0 ==> marks[from - 1].Said? != said)
  }

  lemma OneStretch(marks: seq<Mark>, x: int, y: int, a: bool, b: bool)
    requires Stretch(marks, x, a) && Stretch(marks, y, b)
    ensures x == y && a == b
  {
    assert marks[|marks| - 1].Said? == a == b;
  }

  /** An alternating view's last block is that stretch of its marks. */
  lemma LastStretch(blocks: seq<Block>) returns (from: int)
    requires blocks != [] && Alternating(blocks)
    ensures var last, marks := blocks[|blocks| - 1], Marks(blocks);
            && Stretch(marks, from, last.TextBlock?) && (from == 0 <==> |blocks| == 1)
            && marks[..from] == Marks(blocks[..|blocks| - 1]) && marks[from..] == BlockMarks(last)
  {
    var n := |blocks|;
    var marks, last := Marks(blocks), blocks[n - 1];
    from := |marks| - |BlockMarks(last)|;
    assert |BlockMarks(last)| > 0;
    assert forall k :: 0 <= k < |BlockMarks(last)| ==> BlockMarks(last)[k].Said? == last.TextBlock?;
    if n > 1 {
      var before := blocks[n - 2];
      assert blocks[..n - 1][..n - 2] == blocks[..n - 2];
      assert Marks(blocks[..n - 1]) == Marks(blocks[..n - 2]) + BlockMarks(before);
      assert |BlockMarks(before)| > 0 && BlockMarks(before)[|BlockMarks(before)| - 1].Said? == before.TextBlock?;
    }
  }

  ghost predicate Openly(blocks: seq<Block>) {
    Alternating(blocks) && forall i :: 0 <= i < |blocks| ==> Open(blocks[i])
  }

  lemma OpenlyPrefix(blocks: seq<Block>)
    requires blocks != [] && Openly(blocks)
    ensures Openly(blocks[..|blocks| - 1]) && blocks == blocks[..|blocks| - 1] + [blocks[|blocks| - 1]]
  {
  }

  lemma SameLast(a: seq<Block>, b: seq<Block>)
    requires a != [] && b != [] && Openly(a) && Openly(b) && Marks(a) == Marks(b)
    ensures a[|a| - 1] == b[|b| - 1] && Marks(a[..|a| - 1]) == Marks(b[..|b| - 1])
  {
    var x := LastStretch(a);
    var y := LastStretch(b);
    OneStretch(Marks(a), x, y, a[|a| - 1].TextBlock?, b[|b| - 1].TextBlock?);
    OpenBlocksEqual(a[|a| - 1], b[|b| - 1]);
  }

  lemma SaysSomething(blocks: seq<Block>)
    requires Alternating(blocks)
    ensures Marks(blocks) == [] <==> blocks == []
  {
    if blocks != [] {
      var from := LastStretch(blocks);
    }
  }

  /** So there is only one way to say these marks in alternating blocks: with the order of
      a stream and the results of its calls, its view is fixed. */
  lemma {:induction false} OneView(a: seq<Block>, b: seq<Block>)
    requires Openly(a) && Openly(b) && Marks(a) == Marks(b)
    ensures a == b
  {
    SaysSomething(a);
    SaysSomething(b);
    if a != [] {
      SameLast(a, b);
      OpenlyPrefix(a);
      OpenlyPrefix(b);
      OneView(a[..|a| - 1], b[..|b| - 1]);
    }
  }

  lemma TextOpenly(blocks: seq<Block>, text: string)
    requires Openly(blocks) && text != ""
    ensures Openly(AppendText(blocks, text))
  {
  }

  lemma CallOpenly(blocks: seq<Block>, a: Activity)
    requires Openly(blocks) && a.outcome.None?
    ensures Openly(AppendCall(blocks, a))
  {
  }

  lemma {:induction false} SkeletonInOrder(es: seq<Event>)
    ensures Openly(Skeleton(es)) && Marks(Skeleton(es)) == StreamMarks(es)
  {
    if es != [] {
      var p, e := es[..|es| - 1], es[|es| - 1];
      SkeletonInOrder(p);
      if e.ToolResult? {
        Unit(StreamMarks(p));
      } else {
        ApplyMarks(Skeleton(p), e);
        match e
        case TextDelta(text) => if text != "" { TextOpenly(Skeleton(p), text); }
        case ToolCall(id, name, arguments) => CallOpenly(Skeleton(p), Activity(id, name, arguments, None));
      }
    }
  }

  /** The skeleton that both views fill is the one alternating view, without results, of
      what the stream said and called, in its order. */
  lemma SkeletonExactly(es: seq<Event>, blocks: seq<Block>)
    ensures blocks == Skeleton(es) <==> Openly(blocks) && Marks(blocks) == StreamMarks(es)
  {
    SkeletonInOrder(es);
    if Openly(blocks) && Marks(blocks) == StreamMarks(es) {
      OneView(blocks, Skeleton(es));
    }
  }
}
