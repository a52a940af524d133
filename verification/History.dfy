/**
 Replaying a conversation into a fresh session's system prompt within a byte
 budget (recentHistoryWithinBudget and systemPromptWithHistory,
 internal/agentrunner/claude_runner.go). Strings are byte strings.
 */
module History {
  import Sequences

  datatype Message = Message(role: string, content: string)

  const MAX_REPLAY := 8 * 1024
  const HEADER := "\n\n## Prior conversation (restored after restart)\n"
  const OMITTED := "(earliest" + " turns omitted to keep this within the CLI's command-line limit)\n"

  /** What a message is counted as: one byte more than its rendered line. */
  function Size(m: Message): nat {
    |m.role| + |m.content| + 4
  }

  function Total(ms: seq<Message>): nat {
    if ms == [] then 0 else Size(ms[0]) + Total(ms[1..])
  }

  function Line(m: Message): string {
    m.role + ": " + m.content + "\n"
  }

  function Rendered(ms: seq<Message>): string {
    if ms == [] then "" else Rendered(ms[..|ms| - 1]) + Line(ms[|ms| - 1])
  }

  lemma {:induction false} LongerIsLarger(ms: seq<Message>, i: nat, j: nat)
    requires i <= j <= |ms|
    ensures Total(ms[j..]) + (j - i) * 4 <= Total(ms[i..])
    decreases j - i
  {
    if i < j {
      LongerIsLarger(ms, i + 1, j);
      assert ms[i..][1..] == ms[i + 1..];
    }
  }

  /** The suffix from here fits, or is the last message alone; no longer one fits. */
  predicate Longest(history: seq<Message>, start: nat, budget: nat) {
    && start < |history|
    && (Total(history[start..]) <= budget || start == |history| - 1)
    && forall j :: 0 <= j < start ==> Total(history[j..]) > budget
  }

  lemma LongestIsUnique(history: seq<Message>, a: nat, b: nat, budget: nat)
    requires Longest(history, a, budget) && Longest(history, b, budget)
    ensures a == b
  {
  }

  /** Keeps the longest recent part that fits, at least the last message; anything
      dropped is reported. */
  method RecentWithinBudget(history: seq<Message>, budget: nat) returns (kept: seq<Message>, truncated: bool)
    requires history != []
    ensures |kept| <= |history| && kept == history[|history| - |kept|..]
    ensures Longest(history, |history| - |kept|, budget)
    ensures truncated <==> kept != history
  {
    var total := 0;
    var start := |history| - 1;
    var i := |history| - 1;
    while i >= 0
      invariant -1 <= i < |history| && start == (if i == |history| - 1 then i else i + 1)
      invariant total == Total(history[i + 1..])
      invariant i < |history| - 1 ==> total <= budget || start == |history| - 1
    {
      var size := |history[i].role| + |history[i].content| + 4;
      assert history[i..][1..] == history[i + 1..];
      if total + size > budget && i != |history| - 1 {
        break;
      }
      total := total + size;
      start := i;
      i := i - 1;
    }
    kept, truncated := history[start..], start > 0;
    forall j | 0 <= j < start ensures Total(history[j..]) > budget {
      LongerIsLarger(history, j, start - 1);
    }
  }

  lemma {:induction false} TotalSnoc(ms: seq<Message>, m: Message)
    ensures Total(ms + [m]) == Total(ms) + Size(m)
  {
    if ms == [] {
      assert ms + [m] == [m] && [m][1..] == [];
    } else {
      assert (ms + [m])[0] == ms[0] && (ms + [m])[1..] == ms[1..] + [m];
      TotalSnoc(ms[1..], m);
    }
  }

  /** The count covers the rendered lines, with a byte to spare for each. */
  lemma {:induction false} RenderedWithinTotal(ms: seq<Message>)
    ensures |Rendered(ms)| + |ms| == Total(ms)
  {
    if ms != [] {
      var n := |ms| - 1;
      RenderedWithinTotal(ms[..n]);
      assert ms == ms[..n] + [ms[n]];
      TotalSnoc(ms[..n], ms[n]);
    }
  }

  /** Every line replayed from a suffix that fits stays within the budget together. */
  lemma ReplayWithinBudget(history: seq<Message>, start: nat, budget: nat)
    requires Longest(history, start, budget)
    ensures |Rendered(history[start..])| < budget || start == |history| - 1
  {
    RenderedWithinTotal(history[start..]);
  }

  function Replay(prompt: string, history: seq<Message>, start: nat): string
    requires start <= |history|
  {
    prompt + HEADER + (if start > 0 then OMITTED else "") + Rendered(history[start..])
  }

  // ---- Reading a replay back ----

  /** Where the character first comes, or the end. */
  function Find(c: char, text: string, from: nat): (i: nat)
    requires from <= |text|
    ensures from <= i <= |text| && (i < |text| ==> text[i] == c) && forall k :: from <= k < i ==> text[k] != c
    decreases |text| - from
  {
    if from == |text| || text[from] == c then from else Find(c, text, from + 1)
  }

  /** A reader of replayed lines: a role up to the colon, a space, the content up to the
      end of the line. */
  function ReadLines(text: string): seq<Message> {
    var colon := Find(':', text, 0);
    if colon + 2 > |text| then []
    else
      var end := Find('\n', text, colon + 2);
      if end == |text| then [] else [Message(text[..colon], text[colon + 2..end])] + ReadLines(text[end + 1..])
  }

  /** A plain role, as the two in use are, and a content that keeps to its line. */
  predicate OneLine(m: Message) {
    ':' !in m.role && '(' !in m.role && '\n' !in m.content
  }

  predicate OneLiners(ms: seq<Message>) {
    forall i :: 0 <= i < |ms| ==> OneLine(ms[i])
  }

  lemma FindIs(c: char, text: string, from: nat, i: nat)
    requires from <= i <= |text| && (i < |text| ==> text[i] == c) && forall k :: from <= k < i ==> text[k] != c
    ensures Find(c, text, from) == i
  {
  }

  lemma ReadsLine(m: Message, rest: string)
    requires OneLine(m)
    ensures ReadLines(Line(m) + rest) == [m] + ReadLines(rest)
  {
    var text, colon := Line(m) + rest, |m.role|;
    var end := colon + 2 + |m.content|;
    assert text[..colon] == m.role && text[colon] == ':' && text[colon + 2..end] == m.content && text[end] == '\n';
    assert forall k :: 0 <= k < colon ==> text[k] == m.role[k];
    assert forall k :: colon + 2 <= k < end ==> text[k] == m.content[k - colon - 2];
    FindIs(':', text, 0, colon);
    FindIs('\n', text, colon + 2, end);
    assert text[end + 1..] == rest;
  }

  lemma {:induction false} RenderedFirst(m: Message, ms: seq<Message>)
    ensures Rendered([m] + ms) == Line(m) + Rendered(ms)
  {
    var all := [m] + ms;
    if ms == [] {
      assert all == [m] && all[..0] == [] && Rendered([m]) == "" + Line(m);
      Sequences.Unit(Line(m));
    } else {
      var n := |ms| - 1;
      assert all[..|all| - 1] == [m] + ms[..n] && all[|all| - 1] == ms[n];
      RenderedFirst(m, ms[..n]);
      Sequences.Associative(Line(m), Rendered(ms[..n]), Line(ms[n]));
    }
  }

  /** Reading inverts rendering, whatever the messages, as long as they can be told apart. */
  lemma {:induction false} RenderedReadsBack(ms: seq<Message>)
    requires OneLiners(ms)
    ensures ReadLines(Rendered(ms)) == ms
  {
    if ms != [] {
      assert ms == [ms[0]] + ms[1..];
      assert forall i :: 0 <= i < |ms| - 1 ==> ms[1..][i] == ms[i + 1];
      RenderedReadsBack(ms[1..]);
      RenderedFirst(ms[0], ms[1..]);
      ReadsLine(ms[0], Rendered(ms[1..]));
    }
  }

  /** What a replay says: whether turns were omitted, and the messages it carries. */
  function ReadReplay(prompt: string, text: string): (bool, seq<Message>) {
    var start := |prompt| + |HEADER|;
    if start > |text| || prompt + HEADER != text[..start] then (false, [])
    else
      var body := text[start..];
      if OMITTED <= body then (true, ReadLines(body[|OMITTED|..])) else (false, ReadLines(body))
  }

  lemma OmissionIsNoMessage(ms: seq<Message>)
    requires OneLiners(ms)
    ensures !(OMITTED <= Rendered(ms))
  {
    if ms != [] {
      assert ms == [ms[0]] + ms[1..];
      RenderedFirst(ms[0], ms[1..]);
      assert OneLine(ms[0]) && Rendered(ms)[0] == Line(ms[0])[0];
      assert ms[0].role != "" ==> Rendered(ms)[0] in ms[0].role;
      assert OMITTED[0] == '(' && Rendered(ms)[0] != '(';
    }
  }

  /** After the prompt comes the heading, the omission exactly when there is one, and then
      just the messages kept, in order, each with its role and content. */
  lemma ReplayReadsBack(prompt: string, history: seq<Message>, start: nat)
    requires start <= |history| && OneLiners(history[start..])
    ensures prompt <= Replay(prompt, history, start)
    ensures ReadReplay(prompt, Replay(prompt, history, start)) == (start > 0, history[start..])
  {
    var kept, head := history[start..], prompt + HEADER;
    var body := (if start > 0 then OMITTED else "") + Rendered(kept);
    Sequences.Associative(head, if start > 0 then OMITTED else "", Rendered(kept));
    assert Replay(prompt, history, start) == head + body;
    assert (head + body)[..|head|] == head && (head + body)[|head|..] == body;
    RenderedReadsBack(kept);
    if start > 0 {
      assert body[|OMITTED|..] == Rendered(kept);
    } else {
      assert body == Rendered(kept);
      OmissionIsNoMessage(kept);
    }
  }

  /** The prompt a fresh session gets: unchanged without history, otherwise followed
      by the longest recent part that fits, the omission noted exactly when there is one. */
  method SystemPromptWithHistory(prompt: string, history: seq<Message>) returns (text: string)
    ensures history == [] ==> text == prompt
    ensures history != [] ==> exists start :: Longest(history, start, MAX_REPLAY) && text == Replay(prompt, history, start)
  {
    if |history| == 0 {
      return prompt;
    }
    var kept, truncated := RecentWithinBudget(history, MAX_REPLAY);
    text := prompt + HEADER;
    if truncated {
      text := text + OMITTED;
    } else {
      assert text + "" == text;
    }
    ghost var before := text;
    for i := 0 to |kept|
      invariant text == before + Rendered(kept[..i])
    {
      assert kept[..i + 1][..i] == kept[..i];
      text := text + Line(kept[i]);
    }
    assert kept[..|kept|] == kept;
    ghost var start := |history| - |kept|;
    assert start > 0 <==> truncated;
    assert text == Replay(prompt, history, start);
  }
}
