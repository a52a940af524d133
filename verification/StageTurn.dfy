/**
 The persisted record of one agent turn (runStageTurn,
 internal/api/stage_conversation.go): the same stream folded in place, a
 pending call remembered by the index coordinates of its entry.
 */
module StageTurn {
  import opened Options
  import opened ToolActivityBlocks

  const MAX_PERSISTED := 2048
  const TRUNCATION_NOTE := "\n[truncated: exceeded the persisted size limit]"

  /** Strings here are byte strings, as they are in the source. */
  function Truncate(s: string): string {
    if |s| > MAX_PERSISTED then s[..MAX_PERSISTED] + TRUNCATION_NOTE else s
  }

  /** A text that fits is kept as it is; of a longer one, the first part that fits, marked
      as cut. Storing it again changes nothing. */
  lemma TruncateExactly(s: string, t: string)
    ensures |s| <= MAX_PERSISTED ==> Truncate(s) == s
    ensures |s| > MAX_PERSISTED ==> s[..MAX_PERSISTED] <= Truncate(s) && Truncate(s)[MAX_PERSISTED..] == TRUNCATION_NOTE
    ensures Truncate(Truncate(s)) == Truncate(s)
    ensures Truncate(s) == Truncate(t) <==>
            s == t || (|s| > MAX_PERSISTED && |t| > MAX_PERSISTED && s[..MAX_PERSISTED] == t[..MAX_PERSISTED])
  {
    assert |TRUNCATION_NOTE| > 0;
    if |s| > MAX_PERSISTED {
      assert Truncate(s)[..MAX_PERSISTED] == s[..MAX_PERSISTED];
    }
    if |t| > MAX_PERSISTED {
      assert Truncate(t)[..MAX_PERSISTED] == t[..MAX_PERSISTED];
    }
  }

  datatype Entry = Entry(name: string, arguments: string, result: string, isError: bool)
  datatype Segment = TextSegment(text: string) | ToolsSegment(activity: seq<Entry>)
  datatype Slot = Slot(seg: nat, act: nat)
  datatype Turn = Turn(segments: seq<Segment>, pending: map<string, Slot>)

  // ---- Specification: one callback as a function of the turn so far ----

  predicate InRange(segments: seq<Segment>, slot: Slot) {
    slot.seg < |segments| && segments[slot.seg].ToolsSegment? && slot.act < |segments[slot.seg].activity|
  }

  predicate SlotsInRange(t: Turn) {
    forall id :: id in t.pending ==> InRange(t.segments, t.pending[id])
  }

  function OnText(t: Turn, text: string): (t': Turn)
    requires SlotsInRange(t)
    ensures SlotsInRange(t')
  {
    var n := |t.segments|;
    if text == "" then t
    else if n > 0 && t.segments[n - 1].TextSegment? then
      t.(segments := t.segments[n - 1 := TextSegment(t.segments[n - 1].text + text)])
    else
      t.(segments := t.segments + [TextSegment(text)])
  }

  function OnCall(t: Turn, id: string, name: string, arguments: string): (t': Turn)
    requires SlotsInRange(t)
    ensures SlotsInRange(t')
  {
    var n := |t.segments|;
    var entry := Entry(name, Truncate(arguments), "", false);
    if n > 0 && t.segments[n - 1].ToolsSegment? then
      var acts := t.segments[n - 1].activity;
      Turn(t.segments[n - 1 := ToolsSegment(acts + [entry])], t.pending[id := Slot(n - 1, |acts|)])
    else
      Turn(t.segments + [ToolsSegment([entry])], t.pending[id := Slot(n, 0)])
  }

  function OnResult(t: Turn, id: string, o: Outcome): (t': Turn)
    requires SlotsInRange(t)
    ensures SlotsInRange(t')
  {
    if id in t.pending then
      var slot := t.pending[id];
      var acts := t.segments[slot.seg].activity;
      var resolved := acts[slot.act].(result := Truncate(o.result), isError := o.isError);
      Turn(t.segments[slot.seg := ToolsSegment(acts[slot.act := resolved])], t.pending - {id})
    else t
  }

  function Record(t: Turn, e: Event): (t': Turn)
    requires SlotsInRange(t)
    ensures SlotsInRange(t')
  {
    match e
    case TextDelta(text) => OnText(t, text)
    case ToolCall(id, name, arguments) => OnCall(t, id, name, arguments)
    case ToolResult(id, _, o) => OnResult(t, id, o)
  }

  function Recorded(es: seq<Event>): (t: Turn)
    ensures SlotsInRange(t)
  {
    if es == [] then Turn([], map[]) else Record(Recorded(es[..|es| - 1]), es[|es| - 1])
  }

  // ---- What the live view looks like once stored ----

  function StoredEntry(a: Activity): Entry {
    match a.outcome
    case None => Entry(a.name, Truncate(a.arguments), "", false)
    case Some(o) => Entry(a.name, Truncate(a.arguments), Truncate(o.result), o.isError)
  }

  function StoredBlock(b: Block): Segment {
    match b
    case TextBlock(text) => TextSegment(text)
    case ToolsBlock(acts) => ToolsSegment(seq(|acts|, j requires 0 <= j < |acts| => StoredEntry(acts[j])))
  }

  function Stored(blocks: seq<Block>): seq<Segment> {
    seq(|blocks|, i requires 0 <= i < |blocks| => StoredBlock(blocks[i]))
  }

  /** A slot names its own call's entry: the blocks hold that id at those coordinates. */
  ghost predicate Names(blocks: seq<Block>, slot: Slot, id: string) {
    At(blocks, slot.seg, slot.act) && IdAt(blocks, slot.seg, slot.act) == id
  }

  lemma StoreText(blocks: seq<Block>, t: Turn, text: string)
    requires SlotsInRange(t) && t.segments == Stored(blocks)
    ensures OnText(t, text).segments == Stored(Apply(blocks, TextDelta(text)))
  {
  }

  lemma StoreCall(blocks: seq<Block>, t: Turn, id: string, name: string, arguments: string)
    requires SlotsInRange(t) && t.segments == Stored(blocks)
    ensures OnCall(t, id, name, arguments).segments == Stored(Apply(blocks, ToolCall(id, name, arguments)))
  {
    var n := |blocks|;
    var a := Activity(id, name, arguments, None);
    if n > 0 && blocks[n - 1].ToolsBlock? {
      assert StoredBlock(ToolsBlock(blocks[n - 1].activities + [a])).activity
          == StoredBlock(blocks[n - 1]).activity + [StoredEntry(a)];
    } else {
      assert StoredBlock(ToolsBlock([a])).activity == [StoredEntry(a)];
    }
  }

  lemma StoreResult(blocks: seq<Block>, m: map<string, Outcome>, t: Turn, id: string, o: Outcome)
    requires SlotsInRange(t) && t.segments == Stored(Fill(blocks, m))
    requires id in t.pending && DistinctIds(blocks) && Names(blocks, t.pending[id], id)
    ensures OnResult(t, id, o).segments == Stored(Fill(blocks, m[id := o]))
  {
    var slot := t.pending[id];
    var before, after := Stored(Fill(blocks, m)), Stored(Fill(blocks, m[id := o]));
    forall i | 0 <= i < |blocks| && i != slot.seg ensures after[i] == before[i] {
      if blocks[i].ToolsBlock? {
        forall j | 0 <= j < |blocks[i].activities| ensures blocks[i].activities[j].id != id {
          assert At(blocks, i, j);
        }
      }
    }
    var acts := blocks[slot.seg].activities;
    forall j | 0 <= j < |acts| && j != slot.act ensures acts[j].id != id {
      assert At(blocks, slot.seg, j);
    }
    assert after[slot.seg].activity == OnResult(t, id, o).segments[slot.seg].activity;
  }

  /** A recorded turn against its skeleton, the results so far and the ids called so far. */
  ghost predicate Tracks(t: Turn, sk: seq<Block>, m: map<string, Outcome>, ids: set<string>) {
    && t.segments == Stored(Fill(sk, m))
    && t.pending.Keys == ids - m.Keys
    && forall id :: id in t.pending ==> Names(sk, t.pending[id], id)
  }

  lemma TracksText(t: Turn, sk: seq<Block>, m: map<string, Outcome>, ids: set<string>, text: string)
    requires SlotsInRange(t) && Tracks(t, sk, m, ids)
    ensures Tracks(OnText(t, text), Apply(sk, TextDelta(text)), m, ids)
  {
    StoreText(Fill(sk, m), t, text);
    FillText(sk, m, text);
    PositionsStable(sk, TextDelta(text));
  }

  lemma TracksCall(t: Turn, sk: seq<Block>, m: map<string, Outcome>, ids: set<string>, id: string, name: string, arguments: string)
    requires SlotsInRange(t) && Tracks(t, sk, m, ids) && id !in ids && id !in m
    ensures Tracks(OnCall(t, id, name, arguments), Apply(sk, ToolCall(id, name, arguments)), m, ids + {id})
  {
    var sk', t' := Apply(sk, ToolCall(id, name, arguments)), OnCall(t, id, name, arguments);
    assert t'.segments == Stored(Fill(sk', m)) by {
      StoreCall(Fill(sk, m), t, id, name, arguments);
      FillCall(sk, m, Activity(id, name, arguments, None));
    }
    CallNames(t, sk, m, ids, id, name, arguments);
  }

  lemma CallNames(t: Turn, sk: seq<Block>, m: map<string, Outcome>, ids: set<string>, id: string, name: string, arguments: string)
    requires SlotsInRange(t) && Tracks(t, sk, m, ids) && id !in ids && id !in m
    ensures var t' := OnCall(t, id, name, arguments);
            forall x :: x in t'.pending ==> Names(Apply(sk, ToolCall(id, name, arguments)), t'.pending[x], x)
  {
    var sk', t' := Apply(sk, ToolCall(id, name, arguments)), OnCall(t, id, name, arguments);
    PositionsStable(sk, ToolCall(id, name, arguments));
    forall x | x in t'.pending ensures Names(sk', t'.pending[x], x) {
      if x != id {
        assert Names(sk, t.pending[x], x);
      }
    }
  }

  lemma TracksResult(t: Turn, sk: seq<Block>, m: map<string, Outcome>, ids: set<string>, id: string, o: Outcome)
    requires SlotsInRange(t) && Tracks(t, sk, m, ids) && DistinctIds(sk)
    ensures Tracks(OnResult(t, id, o), sk, if id in ids && id !in m then m[id := o] else m, ids)
  {
    if id in t.pending {
      StoreResult(sk, m, t, id, o);
    }
  }

  /** For any stream whose call ids are not reused: the stored segments are the
      skeleton filled with each call's first result, and the pending slots are
      exactly the unanswered calls, each naming its own entry. */
  lemma {:induction false} RecordedIsFilledSkeleton(es: seq<Event>)
    requires UniqueCalls(es)
    ensures Recorded(es).segments == Stored(Fill(Skeleton(es), FirstResults(es)))
    ensures Recorded(es).pending.Keys == CalledIds(es) - FirstResults(es).Keys
    ensures forall id :: id in Recorded(es).pending ==> Names(Skeleton(es), Recorded(es).pending[id], id)
  {
    if es != [] {
      var prefix, e := es[..|es| - 1], es[|es| - 1];
      RecordedIsFilledSkeleton(prefix);
      CalledIdsSnoc(es);
      ResultKeys(prefix);
      SkeletonIds(prefix);
      var t, sk, m, ids := Recorded(prefix), Skeleton(prefix), FirstResults(prefix), CalledIds(prefix);
      match e
      case TextDelta(text) => TracksText(t, sk, m, ids, text);
      case ToolCall(id, name, arguments) => TracksCall(t, sk, m, ids, id, name, arguments);
      case ToolResult(id, _, o) => TracksResult(t, sk, m, ids, id, o);
      assert Tracks(Record(t, e), Skeleton(es), FirstResults(es), CalledIds(es));
    }
  }

  // ---- Agreement of the persisted and the live view ----

  function StoredOutcome(o: Outcome): Outcome {
    Outcome(Truncate(o.result), o.isError)
  }

  lemma StoredFillAgree(blocks: seq<Block>, m: map<string, Outcome>, m': map<string, Outcome>)
    requires m.Keys == m'.Keys
    requires forall id :: id in m ==> StoredOutcome(m[id]) == StoredOutcome(m'[id])
    ensures Stored(Fill(blocks, m)) == Stored(Fill(blocks, m'))
  {
    forall i | 0 <= i < |blocks| ensures StoredBlock(FillBlock(blocks[i], m)) == StoredBlock(FillBlock(blocks[i], m')) {
    }
  }

  lemma {:induction false} CalledHasEntry(es: seq<Event>, id: string) returns (i: nat, j: nat)
    requires id in CalledIds(es)
    ensures At(Skeleton(es), i, j) && IdAt(Skeleton(es), i, j) == id
  {
    var prefix, e := es[..|es| - 1], es[|es| - 1];
    CalledIdsSnoc(es);
    if !e.ToolResult? {
      PositionsStable(Skeleton(prefix), e);
    }
    if e.ToolCall? && e.id == id {
      var (k, l) := NextSlot(Skeleton(prefix));
      i, j := k, l;
    } else {
      i, j := CalledHasEntry(prefix, id);
    }
  }

  /** The persisted view is the stored live view exactly when the last result of every
      call is, as stored, its first; what came between does not matter. */
  lemma {:induction false} PersistedAgreesWithLive(es: seq<Event>)
    requires UniqueCalls(es) && NamedResults(es)
    ensures Recorded(es).segments == Stored(Live(es)) <==>
            forall id :: id in FirstResults(es) ==>
              id in LastResults(es) && StoredOutcome(FirstResults(es)[id]) == StoredOutcome(LastResults(es)[id])
  {
    var sk, first, last := Skeleton(es), FirstResults(es), LastResults(es);
    RecordedIsFilledSkeleton(es);
    LiveIsFilledSkeleton(es);
    ResultKeys(es);
    if forall id :: id in first ==> StoredOutcome(first[id]) == StoredOutcome(last[id]) {
      StoredFillAgree(sk, first, last);
    }
    if Recorded(es).segments == Stored(Live(es)) {
      forall id | id in first ensures StoredOutcome(first[id]) == StoredOutcome(last[id]) {
        var i, j := CalledHasEntry(es, id);
        assert Stored(Fill(sk, first))[i].activity[j] == Stored(Fill(sk, last))[i].activity[j];
      }
    }
  }

  /** At most one result per call: what every provider the runners drive promises. */
  predicate UniqueResults(es: seq<Event>) {
    forall i, j :: 0 <= i < j < |es| && es[i].ToolResult? && es[j].ToolResult? ==> es[i].id != es[j].id
  }

  /** A result never precedes its own call, and carries the name its call streamed under. */
  predicate Echoes(es: seq<Event>) {
    forall i, j :: 0 <= i < j < |es| ==>
      && (es[i].ToolResult? && es[j].ToolCall? ==> es[i].id != es[j].id)
      && (es[i].ToolCall? && es[j].ToolResult? && es[i].id == es[j].id ==> es[i].name == es[j].name)
  }

  lemma {:induction false} UniqueResultsFirstIsLast(es: seq<Event>)
    requires UniqueResults(es)
    ensures FirstResults(es) == LastResults(es)
    ensures forall id :: id in FirstResults(es) ==> exists k :: 0 <= k < |es| && es[k].ToolResult? && es[k].id == id
  {
    if es != [] {
      var prefix := es[..|es| - 1];
      UniqueResultsFirstIsLast(prefix);
      forall id | id in FirstResults(es)
        ensures exists k :: 0 <= k < |es| && es[k].ToolResult? && es[k].id == id
      {
        if id in FirstResults(prefix) {
          var k :| 0 <= k < |prefix| && prefix[k].ToolResult? && prefix[k].id == id;
          assert es[k].ToolResult? && es[k].id == id;
        } else {
          assert es[|es| - 1].ToolResult? && es[|es| - 1].id == id;
        }
      }
    }
  }

  lemma PersistedIsStoredLive(es: seq<Event>)
    requires UniqueCalls(es) && NamedResults(es) && UniqueResults(es)
    ensures Recorded(es).segments == Stored(Live(es))
  {
    UniqueResultsFirstIsLast(es);
    PersistedAgreesWithLive(es);
  }

  lemma OutcomesDiffer(a: Outcome, b: Outcome, c: char, d: char)
    requires a.result == [c] && b.result == [d] && c != d
    ensures StoredOutcome(a) != StoredOutcome(b)
  {
    assert a.result[0] != b.result[0];
    TruncateExactly(a.result, b.result);
  }

  lemma PersistedDiffers(es: seq<Event>, id: string)
    requires UniqueCalls(es) && NamedResults(es) && id in FirstResults(es) && id in LastResults(es)
    requires StoredOutcome(FirstResults(es)[id]) != StoredOutcome(LastResults(es)[id])
    ensures Recorded(es).segments != Stored(Live(es))
  {
    PersistedAgreesWithLive(es);
  }

  /** A second result for one call makes the two views part ways: the persisted
      one keeps the first, the live one shows the last. */
  lemma RepeatedResultDiverges() returns (es: seq<Event>)
    ensures |es| == 3 && UniqueCalls(es) && NamedResults(es)
    ensures Recorded(es).segments != Stored(Live(es))
  {
    var c := ToolCall("a", "Read", "{}");
    var r1, r2 := ToolResult("a", "Read", Outcome("x", false)), ToolResult("a", "Read", Outcome("y", false));
    var es1, es2, es3 := [c], [c, r1], [c, r1, r2];
    es := es3;
    assert es3[..2] == es2 && es2[..1] == es1 && es1[..0] == [];
    assert c in es1 && c in es2;
    assert UniqueCalls([]) && CalledIds([]) == {} && FirstResults([]) == map[];
    assert UniqueCalls(es1);
    assert UniqueCalls(es2);
    assert UniqueCalls(es3);
    assert FirstResults(es1) == map[] && LastResults(es1) == map[];
    assert FirstResults(es2) == map["a" := r1.outcome] && LastResults(es2) == map["a" := r1.outcome];
    assert FirstResults(es3)["a"] == r1.outcome && LastResults(es3)["a"] == r2.outcome;
    OutcomesDiffer(FirstResults(es3)["a"], LastResults(es3)["a"], 'x', 'y');
    PersistedDiffers(es3, "a");
  }

  // ---- Arrival order of results never matters ----

  predicate Touches(e: Event, id: string) {
    !e.TextDelta? && e.id == id
  }

  /** Two streams no later event can tell apart by their segments. */
  ghost predicate Same(x: seq<Event>, y: seq<Event>) {
    && Skeleton(x) == Skeleton(y) && FirstResults(x) == FirstResults(y)
    && CalledIds(x) == CalledIds(y) && (UniqueCalls(x) <==> UniqueCalls(y))
  }

  lemma Snoc(x: seq<Event>, e: Event)
    ensures Skeleton(x + [e]) == if e.ToolResult? then Skeleton(x) else Apply(Skeleton(x), e)
    ensures FirstResults(x + [e]) ==
            if e.ToolResult? && e.id in CalledIds(x) && e.id !in FirstResults(x)
            then FirstResults(x)[e.id := e.outcome] else FirstResults(x)
    ensures CalledIds(x + [e]) == CalledIds(x) + (if e.ToolCall? then {e.id} else {})
    ensures UniqueCalls(x + [e]) <==> UniqueCalls(x) && (e.ToolCall? ==> e.id !in CalledIds(x))
  {
    CalledIdsSnoc(x + [e]);
    assert (x + [e])[..|x|] == x;
  }

  lemma SameSnoc(x: seq<Event>, y: seq<Event>, e: Event)
    requires Same(x, y)
    ensures Same(x + [e], y + [e])
  {
    Snoc(x, e);
    Snoc(y, e);
  }

  /** What a result adds to the first results. */
  function WithResult(m: map<string, Outcome>, called: set<string>, r: Event): map<string, Outcome>
    requires r.ToolResult?
  {
    if r.id in called && r.id !in m then m[r.id := r.outcome] else m
  }

  lemma ResultsCommute(m: map<string, Outcome>, called: set<string>, r: Event, e: Event)
    requires r.ToolResult? && e.ToolResult? && e.id != r.id
    ensures WithResult(WithResult(m, called, r), called, e) == WithResult(WithResult(m, called, e), called, r)
  {
  }

  lemma AfterResult(x: seq<Event>, r: Event)
    requires r.ToolResult?
    ensures Skeleton(x + [r]) == Skeleton(x) && CalledIds(x + [r]) == CalledIds(x) && (UniqueCalls(x + [r]) <==> UniqueCalls(x))
    ensures FirstResults(x + [r]) == WithResult(FirstResults(x), CalledIds(x), r)
  {
    Snoc(x, r);
  }

  lemma SwapResults(x: seq<Event>, r: Event, e: Event)
    requires r.ToolResult? && e.ToolResult? && e.id != r.id
    ensures Same(x + [r] + [e], x + [e] + [r])
  {
    AfterResult(x, r);
    AfterResult(x + [r], e);
    AfterResult(x, e);
    AfterResult(x + [e], r);
    ResultsCommute(FirstResults(x), CalledIds(x), r, e);
  }

  lemma SwapOther(x: seq<Event>, r: Event, e: Event)
    requires r.ToolResult? && !e.ToolResult? && !Touches(e, r.id)
    ensures Same(x + [r] + [e], x + [e] + [r])
  {
    Snoc(x, r);
    Snoc(x + [r], e);
    Snoc(x, e);
    Snoc(x + [e], r);
  }

  lemma SwapAdjacent(x: seq<Event>, r: Event, e: Event)
    requires r.ToolResult? && !Touches(e, r.id)
    ensures Same(x + [r] + [e], x + [e] + [r])
  {
    if e.ToolResult? {
      SwapResults(x, r, e);
    } else {
      SwapOther(x, r, e);
    }
  }

  lemma {:induction false} SameSuffix(x: seq<Event>, y: seq<Event>, c: seq<Event>)
    requires Same(x, y)
    ensures Same(x + c, y + c)
    decreases |c|
  {
    if c == [] {
      assert x + c == x && y + c == y;
    } else {
      SameSnoc(x, y, c[0]);
      SameSuffix(x + [c[0]], y + [c[0]], c[1..]);
      assert x + c == x + [c[0]] + c[1..] && y + c == y + [c[0]] + c[1..];
    }
  }

  lemma {:induction false} MovePastRun(a: seq<Event>, r: Event, b: seq<Event>)
    requires r.ToolResult? && forall e :: e in b ==> !Touches(e, r.id)
    ensures Same(a + [r] + b, a + b + [r])
    decreases |b|
  {
    if b == [] {
      assert a + [r] + b == a + b + [r];
    } else {
      var e, rest := b[0], b[1..];
      assert e in b && forall x :: x in rest ==> x in b;
      SwapAdjacent(a, r, e);
      SameSuffix(a + [r] + [e], a + [e] + [r], rest);
      MovePastRun(a + [e], r, rest);
      assert a + [r] + b == a + [r] + [e] + rest && a + b + [r] == a + [e] + rest + [r];
    }
  }

  /** A result moved past narration, other calls and other results, in any
      context, leaves the segments as they were. */
  lemma ResultOrderIrrelevant(a: seq<Event>, r: Event, b: seq<Event>, c: seq<Event>)
    requires r.ToolResult? && forall e :: e in b ==> !Touches(e, r.id)
    requires UniqueCalls(a + [r] + b + c)
    ensures UniqueCalls(a + b + [r] + c)
    ensures Recorded(a + [r] + b + c).segments == Recorded(a + b + [r] + c).segments
  {
    MovePastRun(a, r, b);
    SameSuffix(a + [r] + b, a + b + [r], c);
    RecordedIsFilledSkeleton(a + [r] + b + c);
    RecordedIsFilledSkeleton(a + b + [r] + c);
  }

  // ---- Content and activity, derived from the finished segments ----

  function Content(segments: seq<Segment>): string {
    if segments == [] then ""
    else Content(segments[..|segments| - 1]) + match segments[|segments| - 1] { case TextSegment(t) => t case ToolsSegment(_) => "" }
  }

  function Flattened(segments: seq<Segment>): seq<Entry> {
    if segments == [] then []
    else Flattened(segments[..|segments| - 1]) + match segments[|segments| - 1] { case TextSegment(_) => [] case ToolsSegment(a) => a }
  }

  /** Everything narrated, in the order it was streamed. */
  function Narration(es: seq<Event>): string {
    if es == [] then "" else Narration(es[..|es| - 1]) + match es[|es| - 1] { case TextDelta(t) => t case _ => "" }
  }

  lemma {:induction false} ContentUpdate(segments: seq<Segment>, i: nat, s: Segment)
    requires i < |segments| && segments[i].ToolsSegment? && s.ToolsSegment?
    ensures Content(segments[i := s]) == Content(segments)
  {
    var n := |segments|;
    if i < n - 1 {
      assert segments[i := s][..n - 1] == segments[..n - 1][i := s];
      ContentUpdate(segments[..n - 1], i, s);
    } else {
      assert segments[i := s][..n - 1] == segments[..n - 1];
    }
  }

  lemma ContentRecord(t: Turn, e: Event)
    requires SlotsInRange(t)
    ensures Content(Record(t, e).segments) == Content(t.segments) + match e { case TextDelta(text) => text case _ => "" }
  {
    var before, after := t.segments, Record(t, e).segments;
    var n := |before|;
    if |after| == n + 1 {
      assert after[..n] == before;
    } else if e.TextDelta? && e.text != "" {
      assert after[..n - 1] == before[..n - 1];
    } else if after != before {
      var i := if e.ToolCall? then n - 1 else t.pending[e.id].seg;
      assert after == before[i := after[i]];
      ContentUpdate(before, i, after[i]);
    }
  }

  /** No streamed narration is lost or reordered, whatever the tool events do. */
  lemma {:induction false} ContentIsNarration(es: seq<Event>)
    ensures Content(Recorded(es).segments) == Narration(es)
  {
    if es != [] {
      ContentIsNarration(es[..|es| - 1]);
      ContentRecord(Recorded(es[..|es| - 1]), es[|es| - 1]);
    }
  }

  // ---- Activity lists every call once, in call order ----

  function Calls(es: seq<Event>): seq<Activity> {
    if es == [] then []
    else
      Calls(es[..|es| - 1]) +
      match es[|es| - 1] { case ToolCall(id, name, arguments) => [Activity(id, name, arguments, None)] case _ => [] }
  }

  function Activities(blocks: seq<Block>): seq<Activity> {
    if blocks == [] then []
    else Activities(blocks[..|blocks| - 1]) + match blocks[|blocks| - 1] { case TextBlock(_) => [] case ToolsBlock(acts) => acts }
  }

  function Entries(acts: seq<Activity>, m: map<string, Outcome>): seq<Entry> {
    seq(|acts|, j requires 0 <= j < |acts| => StoredEntry(FillActivity(acts[j], m)))
  }

  lemma ApplyActivities(blocks: seq<Block>, e: Event)
    requires !e.ToolResult?
    ensures Activities(Apply(blocks, e)) ==
            Activities(blocks) + match e { case ToolCall(id, name, arguments) => [Activity(id, name, arguments, None)] case _ => [] }
  {
    var after, n := Apply(blocks, e), |blocks|;
    if |after| == n + 1 {
      assert after[..n] == blocks;
    } else if after != blocks {
      assert after[..n - 1] == blocks[..n - 1];
    }
  }

  lemma {:induction false} SkeletonActivities(es: seq<Event>)
    ensures Activities(Skeleton(es)) == Calls(es)
  {
    if es != [] {
      var p, e := es[..|es| - 1], es[|es| - 1];
      SkeletonActivities(p);
      if !e.ToolResult? {
        ApplyActivities(Skeleton(p), e);
      }
    }
  }

  lemma {:induction false} FlattenedIsEntries(blocks: seq<Block>, m: map<string, Outcome>)
    ensures Flattened(Stored(Fill(blocks, m))) == Entries(Activities(blocks), m)
  {
    if blocks != [] {
      var n := |blocks| - 1;
      FlattenedIsEntries(blocks[..n], m);
      assert Stored(Fill(blocks, m))[..n] == Stored(Fill(blocks[..n], m));
    }
  }

  /** Each call streamed appears exactly once among the turn's activity, in call
      order, carrying its own first result or none. */
  lemma ActivityIsCalls(es: seq<Event>)
    requires UniqueCalls(es)
    ensures Flattened(Recorded(es).segments) == Entries(Calls(es), FirstResults(es))
  {
    RecordedIsFilledSkeleton(es);
    FlattenedIsEntries(Skeleton(es), FirstResults(es));
    SkeletonActivities(es);
  }

  /** Segments are never empty and alternate between narration and tools. */
  predicate Alternates(segments: seq<Segment>) {
    && (forall i :: 0 <= i < |segments| ==> segments[i] != TextSegment("") && segments[i] != ToolsSegment([]))
    && (forall i :: 0 < i < |segments| ==> segments[i - 1].TextSegment? != segments[i].TextSegment?)
  }

  lemma RecordAlternates(t: Turn, e: Event)
    requires SlotsInRange(t) && Alternates(t.segments)
    ensures Alternates(Record(t, e).segments)
  {
    var before, after := t.segments, Record(t, e).segments;
    match e
    case TextDelta(text) =>
      assert forall i :: 0 <= i < |before| - 1 ==> after[i] == before[i];
    case ToolCall(_, _, _) =>
      assert after[|after| - 1].activity != [];
    case ToolResult(id, _, _) =>
      assert |after| == |before|;
      assert forall i :: 0 <= i < |before| ==> after[i].TextSegment? == before[i].TextSegment?;
      assert id in t.pending ==> |after[t.pending[id].seg].activity| > 0;
  }

  lemma {:induction false} SegmentsAlternate(es: seq<Event>)
    ensures Alternates(Recorded(es).segments)
  {
    if es != [] {
      SegmentsAlternate(es[..|es| - 1]);
      RecordAlternates(Recorded(es[..|es| - 1]), es[|es| - 1]);
    }
  }

  // ---- The closures and the loop as the source runs them ----

  datatype DraftCall = DraftCall(id: string, name: string, arguments: string)

  predicate Offers(tools: seq<string>, name: string) {
    exists k :: 0 <= k < |tools| && tools[k] == name
  }

  /** Only a call to a tool this turn offered is trusted as a proposal. */
  function Trusted(calls: seq<DraftCall>, tools: seq<string>): seq<DraftCall> {
    if calls == [] then []
    else Trusted(calls[..|calls| - 1], tools) + if Offers(tools, calls[|calls| - 1].name) then [calls[|calls| - 1]] else []
  }

  /** The state the turn's callbacks share, and what they relayed so far. */
  class Recorder {
    var segments: seq<Segment>
    var pending: map<string, Slot>
    var relayed: seq<Event>

    ghost predicate Valid()
      reads this
    {
      Turn(segments, pending) == Recorded(relayed)
    }

    constructor ()
      ensures Valid() && relayed == []
    {
      segments, pending, relayed := [], map[], [];
    }

    method OnToolCall(id: string, name: string, arguments: string)
      requires Valid()
      modifies this
      ensures Valid() && relayed == old(relayed) + [ToolCall(id, name, arguments)]
    {
      relayed := relayed + [ToolCall(id, name, arguments)];
      assert relayed[..|relayed| - 1] == old(relayed);
      var entry := Entry(name, Truncate(arguments), "", false);
      var n := |segments|;
      if n > 0 && segments[n - 1].ToolsSegment? {
        segments := segments[n - 1 := ToolsSegment(segments[n - 1].activity + [entry])];
        pending := pending[id := Slot(n - 1, |segments[n - 1].activity| - 1)];
      } else {
        segments := segments + [ToolsSegment([entry])];
        pending := pending[id := Slot(|segments| - 1, 0)];
      }
    }

    method OnToolResult(id: string, name: string, o: Outcome)
      requires Valid()
      modifies this
      ensures Valid() && relayed == old(relayed) + [ToolResult(id, name, o)]
    {
      relayed := relayed + [ToolResult(id, name, o)];
      assert relayed[..|relayed| - 1] == old(relayed);
      if id in pending {
        var slot := pending[id];
        pending := pending - {id};
        var acts := segments[slot.seg].activity;
        var entry := acts[slot.act].(result := Truncate(o.result), isError := o.isError);
        segments := segments[slot.seg := ToolsSegment(acts[slot.act := entry])];
      }
    }

    method OnDelta(text: string)
      requires Valid()
      modifies this
      ensures Valid() && relayed == old(relayed) + [TextDelta(text)]
    {
      relayed := relayed + [TextDelta(text)];
      assert relayed[..|relayed| - 1] == old(relayed);
      if text != "" {
        var n := |segments|;
        if n > 0 && segments[n - 1].TextSegment? {
          segments := segments[n - 1 := TextSegment(segments[n - 1].text + text)];
        } else {
          segments := segments + [TextSegment(text)];
        }
      }
    }
  }

  /** What the runner hands back, its error included. */
  datatype RunnerOutput = RunnerOutput(calls: seq<DraftCall>, single: Option<DraftCall>, sessionID: string, failed: bool)

  /** The older single call counts only where the list is empty. */
  function Proposals(out: RunnerOutput): seq<DraftCall> {
    if out.calls == [] && out.single.Some? then [out.single.value] else out.calls
  }

  method TrustProposals(out: RunnerOutput, tools: seq<string>) returns (proposed: seq<DraftCall>, streamed: seq<DraftCall>)
    ensures proposed == streamed == Trusted(Proposals(out), tools)
  {
    var calls := out.calls;
    if |calls| == 0 && out.single.Some? {
      calls := [out.single.value];
    }
    proposed, streamed := [], [];
    for i := 0 to |calls|
      invariant proposed == streamed == Trusted(calls[..i], tools)
    {
      assert calls[..i + 1][..i] == calls[..i];
      var offered := OffersToolNamed(tools, calls[i].name);
      if offered {
        proposed := proposed + [calls[i]];
        streamed := streamed + [calls[i]];
      }
    }
    assert calls[..|calls|] == calls;
  }

  /** One turn, failed or not: what was relayed, with the trusted proposals streamed
      after it, and what is left to persist. */
  method RunStageTurn(events: seq<Event>, out: RunnerOutput, tools: seq<string>)
    returns (content: string, proposed: seq<DraftCall>, activity: seq<Entry>, segments: seq<Segment>, sessionID: string, failed: bool,
             relayed: seq<Event>, streamed: seq<DraftCall>)
    ensures relayed == events && streamed == proposed
    ensures sessionID == out.sessionID && failed == out.failed
    ensures content == Narration(events)
    ensures proposed == Trusted(Proposals(out), tools)
    ensures out.calls != [] || out.single.None? ==> proposed == Trusted(out.calls, tools)
    ensures out.calls == [] && out.single.Some? ==> proposed == Trusted([out.single.value], tools)
    ensures activity == Flattened(segments)
    ensures UniqueCalls(events) ==> activity == Entries(Calls(events), FirstResults(events))
    ensures UniqueCalls(events) ==> segments == Stored(Fill(Skeleton(events), FirstResults(events)))
    ensures UniqueCalls(events) && NamedResults(events) && UniqueResults(events) ==> segments == Stored(Live(relayed))
  {
    var turn := new Recorder();
    for i := 0 to |events|
      invariant turn.Valid() && turn.relayed == events[..i]
      invariant fresh(turn)
    {
      match events[i]
      case TextDelta(text) => turn.OnDelta(text);
      case ToolCall(id, name, arguments) => turn.OnToolCall(id, name, arguments);
      case ToolResult(id, name, o) => turn.OnToolResult(id, name, o);
      assert events[..i + 1] == events[..i] + [events[i]];
    }
    assert events[..|events|] == events;
    segments, relayed := turn.segments, turn.relayed;

    proposed, streamed := TrustProposals(out, tools);

    content, activity, sessionID, failed := "", [], out.sessionID, out.failed;
    for i := 0 to |segments|
      invariant content == Content(segments[..i]) && activity == Flattened(segments[..i])
    {
      assert segments[..i + 1][..i] == segments[..i];
      match segments[i]
      case TextSegment(text) => content := content + text;
      case ToolsSegment(acts) => activity := activity + acts;
    }
    assert segments[..|segments|] == segments;
    ContentIsNarration(events);
    if UniqueCalls(events) {
      RecordedIsFilledSkeleton(events);
      ActivityIsCalls(events);
      if NamedResults(events) && UniqueResults(events) {
        PersistedIsStoredLive(events);
      }
    }
  }

  method OffersToolNamed(tools: seq<string>, name: string) returns (offered: bool)
    ensures offered <==> Offers(tools, name)
  {
    for i := 0 to |tools|
      invariant forall k :: 0 <= k < i ==> tools[k] != name
    {
      if tools[i] == name {
        return true;
      }
    }
    return false;
  }

  /** These positions, in order, are exactly those of the offered calls. */
  predicate Picks(at: seq<nat>, calls: seq<DraftCall>, tools: seq<string>) {
    && (forall i, j :: 0 <= i < j < |at| ==> at[i] < at[j])
    && (forall k :: 0 <= k < |at| ==> at[k] < |calls|)
    && (forall i :: 0 <= i < |calls| ==> (i in at <==> Offers(tools, calls[i].name)))
  }

  function Selected(calls: seq<DraftCall>, at: seq<nat>): seq<DraftCall>
    requires forall k :: 0 <= k < |at| ==> at[k] < |calls|
  {
    seq(|at|, k requires 0 <= k < |at| => calls[at[k]])
  }

  lemma PicksSnoc(at: seq<nat>, calls: seq<DraftCall>, call: DraftCall, tools: seq<string>)
    requires Picks(at, calls, tools)
    ensures Picks(if Offers(tools, call.name) then at + [|calls|] else at, calls + [call], tools)
  {
    var at', calls' := if Offers(tools, call.name) then at + [|calls|] else at, calls + [call];
    forall i | 0 <= i < |calls'| ensures i in at' <==> Offers(tools, calls'[i].name) {
      if i < |calls| {
        assert calls'[i] == calls[i];
      }
    }
  }

  lemma SelectedSnoc(at: seq<nat>, calls: seq<DraftCall>, call: DraftCall)
    requires forall k :: 0 <= k < |at| ==> at[k] < |calls|
    ensures Selected(calls + [call], at) == Selected(calls, at)
    ensures Selected(calls + [call], at + [|calls|]) == Selected(calls, at) + [call]
  {
  }

  lemma TrustedSnoc(calls: seq<DraftCall>, call: DraftCall, tools: seq<string>)
    ensures Trusted(calls + [call], tools) == Trusted(calls, tools) + if Offers(tools, call.name) then [call] else []
  {
    assert (calls + [call])[..|calls|] == calls;
  }

  /** The trusted calls are the ones selected by these positions: none is dropped,
      repeated or moved. */
  lemma {:induction false} TrustedIsOfferedSubsequence(calls: seq<DraftCall>, tools: seq<string>) returns (at: seq<nat>)
    ensures Picks(at, calls, tools) && Trusted(calls, tools) == Selected(calls, at)
  {
    at := [];
    if calls != [] {
      var rest, call := calls[..|calls| - 1], calls[|calls| - 1];
      var before := TrustedIsOfferedSubsequence(rest, tools);
      PicksSnoc(before, rest, call, tools);
      SelectedSnoc(before, rest, call);
      TrustedSnoc(rest, call, tools);
      assert calls == rest + [call];
      if Offers(tools, call.name) {
        at := before + [|rest|];
      } else {
        at := before;
      }
    }
  }
}
