/**
 Server-sent events: the server's printer (beginStageStream,
 internal/api/stage_conversation.go) and the browser's incremental line parser
 (streamSSE, frontend/src/api.ts), a subset of section 9.2 of the WHATWG HTML
 standard. Payloads are the JSON texts themselves.
 */
module Sse {
  import opened Sequences
  import opened Utf8

  const NEWLINE: CodePoint := 10
  const PREFIX: Text := [0x64, 0x61, 0x74, 0x61, 0x3A, 0x20]  // data:, a colon and a space

  function IndexFrom(t: Text, from: nat): (i: nat)
    requires from <= |t|
    ensures from <= i <= |t|
    ensures i < |t| ==> t[i] == NEWLINE
    ensures forall k :: from <= k < i ==> t[k] != NEWLINE
    decreases |t| - from
  {
    if from == |t| || t[from] == NEWLINE then from else IndexFrom(t, from + 1)
  }

  /** The first newline, or the length when there is none. */
  function IndexOfNewline(t: Text): (i: nat)
    ensures i <= |t|
    ensures i < |t| ==> t[i] == NEWLINE
    ensures forall k :: 0 <= k < i ==> t[k] != NEWLINE
  {
    IndexFrom(t, 0)
  }

  lemma IndexIs(t: Text, i: nat)
    requires i <= |t| && (i < |t| ==> t[i] == NEWLINE) && forall k :: 0 <= k < i ==> t[k] != NEWLINE
    ensures IndexOfNewline(t) == i
  {
  }

  /** White space and line terminators as the language's trim takes them away. */
  predicate Blank(c: CodePoint) {
    || 9 <= c <= 13 || c == 0x20 || c == 0xA0 || c == 0x1680 || 0x2000 <= c <= 0x200A
    || c == 0x2028 || c == 0x2029 || c == 0x202F || c == 0x205F || c == 0x3000 || c == 0xFEFF
  }

  function TrimStart(t: Text): Text {
    if t != [] && Blank(t[0]) then TrimStart(t[1..]) else t
  }

  function TrimEnd(t: Text): Text {
    if t != [] && Blank(t[|t| - 1]) then TrimEnd(t[..|t| - 1]) else t
  }

  function Trim(t: Text): Text {
    TrimEnd(TrimStart(t))
  }

  /** What one complete line adds to the events. */
  function Payload(line: Text): seq<Text> {
    var trimmed := Trim(line);
    if PREFIX <= trimmed then [trimmed[|PREFIX|..]] else []
  }

  /** The complete lines of a text. */
  function Lines(t: Text): seq<Text> {
    var i := IndexOfNewline(t);
    if i == |t| then [] else [t[..i]] + Lines(t[i + 1..])
  }

  /** What follows the last newline, still to be completed. */
  function Tail(t: Text): Text {
    var i := IndexOfNewline(t);
    if i == |t| then t else Tail(t[i + 1..])
  }

  function Payloads(lines: seq<Text>): seq<Text> {
    if lines == [] then [] else Payloads(lines[..|lines| - 1]) + Payload(lines[|lines| - 1])
  }

  /** The events of a whole text: one per complete data line; an unfinished last line says nothing. */
  function Events(t: Text): seq<Text> {
    Payloads(Lines(t))
  }

  function Joined(chunks: seq<seq<Byte>>): seq<Byte> {
    if chunks == [] then [] else chunks[0] + Joined(chunks[1..])
  }

  /** The whole body as text. */
  function Decoded(body: seq<Byte>): Text {
    FeedAll(FRESH, body).1
  }

  // ---- What lines and payloads are ----

  predicate AllBlank(t: Text) {
    forall i :: 0 <= i < |t| ==> Blank(t[i])
  }

  /** A text with nothing to trim at either end. */
  predicate Trimmed(t: Text) {
    t != [] ==> !Blank(t[0]) && !Blank(t[|t| - 1])
  }

  lemma {:induction false} TrimStartIs(t: Text)
    ensures |TrimStart(t)| <= |t| && TrimStart(t) == t[|t| - |TrimStart(t)|..] && AllBlank(t[..|t| - |TrimStart(t)|])
    ensures TrimStart(t) != [] ==> !Blank(TrimStart(t)[0])
  {
    if t != [] && Blank(t[0]) {
      TrimStartIs(t[1..]);
      var n := |t| - |TrimStart(t)|;
      assert forall i :: 0 < i < n ==> t[..n][i] == t[1..][..n - 1][i - 1];
    }
  }

  lemma {:induction false} TrimEndIs(t: Text)
    ensures |TrimEnd(t)| <= |t| && TrimEnd(t) == t[..|TrimEnd(t)|] && AllBlank(t[|TrimEnd(t)|..])
    ensures TrimEnd(t) != [] ==> !Blank(TrimEnd(t)[|TrimEnd(t)| - 1])
  {
    if t != [] && Blank(t[|t| - 1]) {
      TrimEndIs(t[..|t| - 1]);
      var n := |TrimEnd(t)|;
      assert forall i :: n <= i < |t| - 1 ==> t[i] == t[..|t| - 1][n..][i - n];
    }
  }

  /** Blanks at both ends, and what is left between them. */
  ghost predicate Surrounds(before: Text, core: Text, after: Text, t: Text) {
    AllBlank(before) && AllBlank(after) && Trimmed(core) && t == before + core + after
  }

  lemma TrimSurrounds(t: Text) returns (before: Text, after: Text)
    ensures Surrounds(before, Trim(t), after, t)
  {
    TrimStartIs(t);
    TrimEndIs(TrimStart(t));
    var n := |t| - |TrimStart(t)|;
    before, after := t[..n], TrimStart(t)[|Trim(t)|..];
    Associative(before, Trim(t), after);
    TrimmedStart(TrimStart(t));
  }

  lemma {:induction false} TrimmedStart(t: Text)
    requires t != [] ==> !Blank(t[0])
    ensures TrimEnd(t) != [] ==> !Blank(TrimEnd(t)[0])
  {
    TrimEndIs(t);
  }

  lemma CoreShows(a: Text, x: Text, b: Text, t: Text)
    requires Surrounds(a, x, b, t)
    ensures |t| == |a| + |x| + |b| && (AllBlank(t) <==> x == [])
    ensures forall i :: 0 <= i < |a| || |a| + |x| <= i < |t| ==> Blank(t[i])
    ensures x != [] ==> !Blank(t[|a|]) && !Blank(t[|a| + |x| - 1])
  {
    assert forall i :: 0 <= i < |t| ==> t[i] == if i < |a| then a[i] else if i < |a| + |x| then x[i - |a|] else b[i - |a| - |x|];
    assert x != [] ==> t[|a|] == x[0];
  }

  lemma SurroundsOnce(a: Text, x: Text, b: Text, c: Text, y: Text, d: Text, t: Text)
    requires Surrounds(a, x, b, t) && Surrounds(c, y, d, t)
    ensures x == y
  {
    CoreShows(a, x, b, t);
    CoreShows(c, y, d, t);
    if x != [] {
      assert |a| == |c| && |x| == |y|;
      assert x == t[|a|..|a| + |x|] && y == t[|c|..|c| + |y|];
    }
  }

  /** A line is a data line exactly if, blanks around it aside, it is the prefix and a
      payload, which then neither is empty nor ends in a blank. */
  lemma PayloadExactly(line: Text, p: Text)
    ensures Payload(line) == [p] <==> exists before, after :: Surrounds(before, PREFIX + p, after, line)
    ensures |Payload(line)| <= 1 && (Payload(line) == [p] ==> p != [] && !Blank(p[|p| - 1]))
  {
    var before, after := TrimSurrounds(line);
    if Payload(line) == [p] {
      assert Trim(line) == PREFIX + p;
      assert (PREFIX + p)[|PREFIX| - 1] == 0x20;
    }
    if c, d :| Surrounds(c, PREFIX + p, d, line) {
      SurroundsOnce(c, PREFIX + p, d, before, Trim(line), after, line);
      assert (PREFIX + p)[|PREFIX|..] == p;
    }
  }

  function Unlined(lines: seq<Text>): Text {
    if lines == [] then [] else lines[0] + [NEWLINE] + Unlined(lines[1..])
  }

  lemma UnlinedFirst(line: Text, lines: seq<Text>)
    ensures Unlined([line] + lines) == line + [NEWLINE] + Unlined(lines)
  {
    assert ([line] + lines)[1..] == lines;
  }

  lemma OffTheFront(t: Text, i: nat)
    requires i < |t| && t[i] == NEWLINE
    ensures t == t[..i] + [NEWLINE] + t[i + 1..]
  {
  }

  /** The lines, each ended by its newline, and the unfinished rest make up the text. */
  lemma {:induction false} LinesExactly(t: Text)
    ensures Unlined(Lines(t)) + Tail(t) == t && NEWLINE !in Tail(t)
    ensures forall i :: 0 <= i < |Lines(t)| ==> NEWLINE !in Lines(t)[i]
    decreases |t|
  {
    var i := IndexOfNewline(t);
    if i == |t| {
      Unit(t);
    } else {
      var rest := t[i + 1..];
      LinesExactly(rest);
      UnlinedFirst(t[..i], Lines(rest));
      Associative(t[..i] + [NEWLINE], Unlined(Lines(rest)), Tail(rest));
      OffTheFront(t, i);
    }
  }

  // ---- Lines are independent of what follows ----

  lemma IndexAppend(a: Text, b: Text)
    ensures IndexOfNewline(a + b) == if IndexOfNewline(a) < |a| then IndexOfNewline(a) else |a| + IndexOfNewline(b)
  {
    IndexIs(a + b, if IndexOfNewline(a) < |a| then IndexOfNewline(a) else |a| + IndexOfNewline(b));
  }

  /** Text arriving later joins the unfinished line and changes nothing before it. */
  lemma {:induction false} LinesSplit(a: Text, b: Text)
    ensures Lines(a + b) == Lines(a) + Lines(Tail(a) + b)
    decreases |a|
  {
    var i := IndexOfNewline(a);
    if i == |a| {
      Unit(Lines(a + b));
    } else {
      IndexAppend(a, b);
      assert (a + b)[..i] == a[..i] && (a + b)[i + 1..] == a[i + 1..] + b;
      LinesSplit(a[i + 1..], b);
      Associative([a[..i]], Lines(a[i + 1..]), Lines(Tail(a[i + 1..]) + b));
    }
  }

  lemma PayloadsOne(lines: seq<Text>, line: Text)
    ensures Payloads(lines + [line]) == Payloads(lines) + Payload(line)
  {
    assert (lines + [line])[..|lines|] == lines;
  }

  lemma {:induction false} PayloadsAppend(a: seq<Text>, b: seq<Text>)
    ensures Payloads(a + b) == Payloads(a) + Payloads(b)
  {
    if b == [] {
      Unit(a);
      Unit(Payloads(a));
    } else {
      var earlier, last := b[..|b| - 1], b[|b| - 1];
      assert b == earlier + [last];
      Associative(a, earlier, [last]);
      PayloadsOne(a + earlier, last);
      PayloadsOne(earlier, last);
      PayloadsAppend(a, earlier);
      Associative(Payloads(a), Payloads(earlier), Payload(last));
    }
  }

  /** The lines seen and the unfinished one carry everything the rest needs. */
  ghost predicate Carries(total: Text, seen: seq<Text>, buffer: Text, later: Text) {
    Lines(total) == seen + Lines(buffer + later)
  }

  lemma CarriesOn(total: Text, seen: seq<Text>, buffer: Text, text: Text, later: Text)
    requires Carries(total, seen, buffer, text + later)
    ensures Carries(total, seen + Lines(buffer + text), Tail(buffer + text), later)
  {
    Associative(buffer, text, later);
    LinesSplit(buffer + text, later);
    Associative(seen, Lines(buffer + text), Lines(Tail(buffer + text) + later));
  }

  lemma {:induction false} TailIsUnfinished(t: Text)
    ensures Lines(Tail(t)) == []
    decreases |t|
  {
    if IndexOfNewline(t) < |t| {
      TailIsUnfinished(t[IndexOfNewline(t) + 1..]);
    }
  }

  lemma OneTail(t: Text)
    requires IndexOfNewline(t) < |t|
    ensures Tail(t) == Tail(t[IndexOfNewline(t) + 1..])
  {
  }

  lemma OneLine(t: Text, seen: seq<Text>, line: Text, rest: Text)
    requires IndexOfNewline(t) < |t| && line == t[..IndexOfNewline(t)] && rest == t[IndexOfNewline(t) + 1..]
    ensures seen + Lines(t) == (seen + [line]) + Lines(rest)
  {
    Associative(seen, [line], Lines(rest));
  }

  /** The inner loop: takes every complete line off the buffer. */
  method TakeLines(arrived: Text) returns (events: seq<Text>, buffer: Text)
    ensures events == Events(arrived) && buffer == Tail(arrived)
  {
    events, buffer := [], arrived;
    ghost var seen: seq<Text> := [];
    Unit(Lines(arrived));
    var newlineIndex := IndexOfNewline(buffer);
    while newlineIndex < |buffer|
      invariant newlineIndex == IndexOfNewline(buffer)
      invariant seen + Lines(buffer) == Lines(arrived) && Tail(buffer) == Tail(arrived)
      invariant events == Payloads(seen)
      decreases |buffer|
    {
      OneTail(buffer);
      OneLine(buffer, seen, buffer[..newlineIndex], buffer[newlineIndex + 1..]);
      PayloadsOne(seen, buffer[..newlineIndex]);
      seen := seen + [buffer[..newlineIndex]];
      var line := Trim(buffer[..newlineIndex]);
      buffer := buffer[newlineIndex + 1..];
      if PREFIX <= line {
        events := events + [line[|PREFIX|..]];
      } else {
        Unit(events);
      }
      newlineIndex := IndexOfNewline(buffer);
    }
    Unit(seen);
  }

  /** The client's loop, chunk by chunk; the events do not depend on how the bytes
      were cut into chunks. */
  method StreamSSE(chunks: seq<seq<Byte>>) returns (events: seq<Text>)
    ensures events == Events(Decoded(Joined(chunks)))
  {
    var decoder := FRESH;
    var buffer: Text := [];
    events := [];
    ghost var total, seen: seq<Text> := Decoded(Joined(chunks)), [];
    assert chunks[0..] == chunks;
    Unit(total);
    Unit(Lines(total));
    for k := 0 to |chunks|
      invariant Carries(total, seen, buffer, FeedAll(decoder, Joined(chunks[k..])).1)
      invariant Lines(buffer) == [] && events == Payloads(seen)
    {
      assert chunks[k..][1..] == chunks[k + 1..];
      FeedSplit(decoder, chunks[k], Joined(chunks[k + 1..]));
      var (decoder', text) := FeedAll(decoder, chunks[k]);
      CarriesOn(total, seen, buffer, text, FeedAll(decoder', Joined(chunks[k + 1..])).1);
      TailIsUnfinished(buffer + text);
      PayloadsAppend(seen, Lines(buffer + text));
      seen := seen + Lines(buffer + text);
      var more;
      more, buffer := TakeLines(buffer + text);
      decoder, events := decoder', events + more;
    }
    assert chunks[|chunks|..] == [];
    Unit(buffer);
    Unit(seen);
  }

  // ---- Parsing inverts printing ----

  function Frame(payload: Text): Text {
    PREFIX + payload + [NEWLINE, NEWLINE]
  }

  function Printed(payloads: seq<Text>): Text {
    if payloads == [] then [] else Frame(payloads[0]) + Printed(payloads[1..])
  }

  /** A JSON object on one line. */
  predicate ObjectText(t: Text) {
    |t| >= 2 && t[0] == 0x7B && t[|t| - 1] == 0x7D && NEWLINE !in t && Scalars(t)
  }

  lemma NoNewline(t: Text)
    requires NEWLINE !in t
    ensures IndexOfNewline(t) == |t|
  {
    IndexIs(t, |t|);
  }

  lemma DataLine(payload: Text)
    requires ObjectText(payload)
    ensures var line := PREFIX + payload; IndexOfNewline(line) == |line| && Payload(line) == [payload] && Payload([]) == []
  {
    var line := PREFIX + payload;
    NoNewline(line);
    assert Trim(line) == line && line[|PREFIX|..] == payload;
  }

  lemma FrameLines(line: Text, rest: Text)
    requires IndexOfNewline(line) == |line|
    ensures Lines(line + [NEWLINE, NEWLINE] + rest) == [line, []] + Lines(rest)
  {
    var blank := [NEWLINE] + rest;
    var t := line + ([NEWLINE] + blank);
    assert line + [NEWLINE, NEWLINE] + rest == t;
    IndexAppend(line, [NEWLINE] + blank);
    assert t[..|line|] == line && t[|line| + 1..] == blank;
    assert blank[..0] == [] && blank[1..] == rest;
    Associative([line], [[]], Lines(rest));
  }

  lemma FrameParses(payload: Text, rest: Text)
    requires ObjectText(payload)
    ensures Events(Frame(payload) + rest) == [payload] + Events(rest)
  {
    var line := PREFIX + payload;
    DataLine(payload);
    FrameLines(line, rest);
    PayloadsAppend([line, []], Lines(rest));
    PayloadsOne([], line);
    PayloadsOne([line], []);
    assert [line] + [[]] == [line, []] && [] + [line] == [line];
    Unit(Payload(line));
  }

  lemma {:induction false} ParsePrinted(payloads: seq<Text>)
    requires forall p :: p in payloads ==> ObjectText(p)
    ensures Events(Printed(payloads)) == payloads
  {
    if payloads != [] {
      assert payloads[0] in payloads;
      assert forall p :: p in payloads[1..] ==> p in payloads;
      FrameParses(payloads[0], Printed(payloads[1..]));
      ParsePrinted(payloads[1..]);
    }
  }

  lemma FrameScalars(payload: Text)
    requires ObjectText(payload)
    ensures Scalars(Frame(payload)) && PREFIX <= Frame(payload)
  {
    assert Frame(payload) == PREFIX + (payload + [NEWLINE, NEWLINE]);
  }

  lemma ScalarsAppend(a: Text, b: Text)
    requires Scalars(a) && Scalars(b)
    ensures Scalars(a + b)
  {
  }

  lemma {:induction false} PrintedScalars(payloads: seq<Text>)
    requires forall p :: p in payloads ==> ObjectText(p)
    ensures Scalars(Printed(payloads))
    ensures payloads != [] ==> PREFIX <= Printed(payloads)
  {
    if payloads != [] {
      assert payloads[0] in payloads;
      assert forall p :: p in payloads[1..] ==> p in payloads;
      PrintedScalars(payloads[1..]);
      FrameScalars(payloads[0]);
      ScalarsAppend(Frame(payloads[0]), Printed(payloads[1..]));
    }
  }

  /** Whatever the network does to the chunk boundaries, the client receives exactly
      the events the server printed, once each and in order. */
  lemma WireRoundTrip(payloads: seq<Text>)
    requires forall p :: p in payloads ==> ObjectText(p)
    ensures Events(Decoded(Encode(Printed(payloads)))) == payloads
  {
    PrintedScalars(payloads);
    DecodeEncode(Printed(payloads));
    ParsePrinted(payloads);
  }

  /** A connection cut short anywhere yields the first events of the whole, no others. */
  lemma CutShortIsPrefix(body: seq<Byte>, n: nat)
    requires n <= |body|
    ensures Events(Decoded(body[..n])) <= Events(Decoded(body))
  {
    assert body == body[..n] + body[n..];
    FeedSplit(FRESH, body[..n], body[n..]);
    var first, later := Decoded(body[..n]), FeedAll(FeedAll(FRESH, body[..n]).0, body[n..]).1;
    LinesSplit(first, later);
    PayloadsAppend(Lines(first), Lines(Tail(first) + later));
  }
}
