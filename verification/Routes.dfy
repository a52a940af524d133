/**
 The address bar (frontend/src/url.ts): routes to paths and back, through
 percent-encoding (section 2.1 of RFC 3986) of UTF-8 bytes as the browser's
 encodeURIComponent and decodeURIComponent do it. None is their thrown error.
 */
module Routes {
  import opened Options
  import opened Utf8

  const SLASH: CodePoint := 0x2F
  const PERCENT: CodePoint := 0x25

  // ---- Percent-encoding ----

  predicate Alphanumeric(c: CodePoint) {
    0x30 <= c <= 0x39 || 0x41 <= c <= 0x5A || 0x61 <= c <= 0x7A
  }

  /** Letters, digits and - _ . ! ~ * ' ( ) pass unencoded. */
  predicate Unreserved(c: CodePoint) {
    Alphanumeric(c) || c in {0x2D, 0x5F, 0x2E, 0x21, 0x7E, 0x2A, 0x27, 0x28, 0x29}
  }

  function HexDigit(n: int): CodePoint
    requires 0 <= n < 16
  {
    if n < 10 then 0x30 + n else 0x41 + n - 10
  }

  function HexValue(c: CodePoint): Option<int> {
    if 0x30 <= c <= 0x39 then Some(c - 0x30)
    else if 0x41 <= c <= 0x46 then Some(c - 0x41 + 10)
    else if 0x61 <= c <= 0x66 then Some(c - 0x61 + 10)
    else None
  }

  function Escape(b: Byte): Text {
    [PERCENT, HexDigit(b / 16), HexDigit(b % 16)]
  }

  function Escapes(bs: seq<Byte>): Text {
    if bs == [] then [] else Escape(bs[0]) + Escapes(bs[1..])
  }

  function EncodeOne(c: CodePoint): Text {
    if Unreserved(c) then [c] else Escapes(Bytes(c))
  }

  /** A lone surrogate has no encoding. */
  function EncodeComponent(t: Text): Option<Text> {
    if t == [] then Some([])
    else if Surrogate(t[0]) then None
    else
      match EncodeComponent(t[1..])
      case None => None
      case Some(rest) => Some(EncodeOne(t[0]) + rest)
  }

  /** The byte an escape at the front stands for. */
  function Unescape(t: Text): Option<Byte> {
    if |t| < 3 || t[0] != PERCENT then None
    else
      match (HexValue(t[1]), HexValue(t[2]))
      case (Some(h), Some(l)) => if 0 <= h < 16 && 0 <= l < 16 then Some(16 * h + l) else None
      case _ => None
  }

  function Unescapes(t: Text, n: nat): Option<seq<Byte>> {
    if n == 0 then Some([]) else
    match Unescape(t)
    case None => None
    case Some(b) =>
      match Unescapes(t[3..], n - 1)
      case None => None
      case Some(bs) => Some([b] + bs)
  }

  /** How many bytes a sequence with this first byte has. */
  function SequenceLength(b: Byte): Option<nat> {
    if b < 0x80 then Some(1)
    else if 0xC0 <= b < 0xE0 then Some(2)
    else if 0xE0 <= b < 0xF0 then Some(3)
    else if 0xF0 <= b < 0xF8 then Some(4)
    else None
  }

  function Assembled(bs: seq<Byte>): int
    requires 1 <= |bs| <= 4
  {
    match |bs|
    case 1 => bs[0] as int
    case 2 => (bs[0] as int - 0xC0) * 0x40 + (bs[1] as int - 0x80)
    case 3 => (bs[0] as int - 0xE0) * 0x1000 + (bs[1] as int - 0x80) * 0x40 + (bs[2] as int - 0x80)
    case _ => (bs[0] as int - 0xF0) * 0x40000 + (bs[1] as int - 0x80) * 0x1000 + (bs[2] as int - 0x80) * 0x40 + (bs[3] as int - 0x80)
  }

  /** The scalar a complete sequence encodes, if it is a valid encoding of one. */
  function Scalar(bs: seq<Byte>): Option<CodePoint>
    requires 1 <= |bs| <= 4
  {
    var c := Assembled(bs);
    if 0 <= c <= 0x10FFFF && !Surrogate(c) && Bytes(c) == bs then Some(c) else None
  }

  /** One decoded code point and how much of the text it took. */
  function DecodeOne(t: Text): Option<(CodePoint, nat)>
    requires t != []
  {
    if t[0] != PERCENT then Some((t[0], 1)) else
    match Unescape(t)
    case None => None
    case Some(b) =>
      match SequenceLength(b)
      case None => None
      case Some(n) =>
        match Unescapes(t, n)
        case None => None
        case Some(bs) =>
          if 1 <= |bs| <= 4 && 3 * n <= |t| then
            match Scalar(bs)
            case None => None
            case Some(c) => Some((c, 3 * n))
          else None
  }

  function DecodeComponent(t: Text): Option<Text> {
    if t == [] then Some([]) else
    match DecodeOne(t)
    case None => None
    case Some((c, n)) =>
      if 1 <= n <= |t| then
        match DecodeComponent(t[n..])
        case None => None
        case Some(rest) => Some([c] + rest)
      else None
  }

  lemma HexRoundTrip(n: int)
    requires 0 <= n < 16
    ensures HexValue(HexDigit(n)) == Some(n) && HexDigit(n) != SLASH
  {
  }

  lemma UnescapeEscape(b: Byte, rest: Text)
    ensures Unescape(Escape(b) + rest) == Some(b) && (Escape(b) + rest)[3..] == rest
  {
    HexRoundTrip(b / 16);
    HexRoundTrip(b % 16);
  }

  lemma {:induction false} UnescapesEscapes(bs: seq<Byte>, rest: Text)
    ensures Unescapes(Escapes(bs) + rest, |bs|) == Some(bs)
    ensures |Escapes(bs)| == 3 * |bs|
  {
    if bs != [] {
      assert Escapes(bs) + rest == Escape(bs[0]) + (Escapes(bs[1..]) + rest);
      UnescapeEscape(bs[0], Escapes(bs[1..]) + rest);
      UnescapesEscapes(bs[1..], rest);
      assert [bs[0]] + bs[1..] == bs;
    }
  }

  lemma AssembledBytes(c: CodePoint)
    ensures Assembled(Bytes(c)) == c
  {
    var d, e := c / 0x40, c / 0x40 / 0x40;
    SixBits(c);
    assert c == d * 0x40 + c % 0x40 && d == e * 0x40 + d % 0x40 && e == e / 0x40 * 0x40 + e % 0x40;
  }

  lemma LengthOfBytes(c: CodePoint)
    ensures SequenceLength(Bytes(c)[0]) == Some(|Bytes(c)|)
  {
  }

  lemma ScalarBytes(c: CodePoint)
    requires !Surrogate(c)
    ensures Scalar(Bytes(c)) == Some(c) && SequenceLength(Bytes(c)[0]) == Some(|Bytes(c)|)
  {
    AssembledBytes(c);
    LengthOfBytes(c);
  }

  lemma FirstEscape(bs: seq<Byte>, rest: Text)
    requires bs != []
    ensures var t := Escapes(bs) + rest; Unescape(t) == Some(bs[0]) && t[0] == PERCENT
  {
    assert Escapes(bs) + rest == Escape(bs[0]) + (Escapes(bs[1..]) + rest);
    UnescapeEscape(bs[0], Escapes(bs[1..]) + rest);
  }

  lemma DecodesSequence(t: Text, bs: seq<Byte>, c: CodePoint)
    requires 1 <= |bs| <= 4 && 3 * |bs| <= |t| && t[0] == PERCENT && Unescape(t) == Some(bs[0])
    requires SequenceLength(bs[0]) == Some(|bs|) && Unescapes(t, |bs|) == Some(bs) && Scalar(bs) == Some(c)
    ensures DecodeOne(t) == Some((c, 3 * |bs|))
  {
  }

  lemma DecodeEscapes(bs: seq<Byte>, c: CodePoint, rest: Text)
    requires 1 <= |bs| <= 4 && Scalar(bs) == Some(c) && SequenceLength(bs[0]) == Some(|bs|)
    ensures var t := Escapes(bs) + rest; t != [] && DecodeOne(t) == Some((c, 3 * |bs|)) && 3 * |bs| <= |t| && t[3 * |bs|..] == rest
  {
    UnescapesEscapes(bs, rest);
    FirstEscape(bs, rest);
    DecodesSequence(Escapes(bs) + rest, bs, c);
  }

  lemma DecodeEncodeOne(c: CodePoint, rest: Text)
    requires !Surrogate(c)
    ensures var one := EncodeOne(c);
            one + rest != [] && DecodeOne(one + rest) == Some((c, |one|)) && |one| >= 1 && (one + rest)[|one|..] == rest
  {
    if !Unreserved(c) {
      ScalarBytes(c);
      DecodeEscapes(Bytes(c), c, rest);
      UnescapesEscapes(Bytes(c), rest);
    }
  }

  /** Decoding undoes encoding. */
  lemma {:induction false} ComponentRoundTrip(t: Text)
    requires EncodeComponent(t).Some?
    ensures DecodeComponent(EncodeComponent(t).value) == Some(t)
  {
    if t != [] {
      ComponentRoundTrip(t[1..]);
      DecodeEncodeOne(t[0], EncodeComponent(t[1..]).value);
      assert [t[0]] + t[1..] == t;
    }
  }

  /** Encoding fails exactly on a lone surrogate. */
  lemma {:induction false} EncodeFails(t: Text)
    ensures EncodeComponent(t).Some? <==> Scalars(t)
  {
    if t != [] {
      EncodeFails(t[1..]);
      if Scalars(t[1..]) && !Surrogate(t[0]) {
        assert forall i :: 0 < i < |t| ==> t[i] == t[1..][i - 1];
      }
      if Scalars(t) {
        assert forall i :: 0 <= i < |t| - 1 ==> t[1..][i] == t[i + 1];
      }
    }
  }

  /** A text spells an id: character by character, or in escapes of the one way a scalar
      is written in bytes. */
  predicate Spells(t: Text, id: Text) {
    if t == [] || id == [] then t == id
    else if t[0] != PERCENT then id[0] == t[0] && Spells(t[1..], id[1..])
    else
      var bytes := Bytes(id[0]);
      !Surrogate(id[0]) && 3 * |bytes| <= |t| && Unescapes(t, |bytes|) == Some(bytes) && Spells(t[3 * |bytes|..], id[1..])
  }

  /** An escape stands for a byte in its two hexadecimal digits, letters of either case. */
  lemma EscapesExactly(t: Text, b: Byte)
    ensures Unescape(t) == Some(b) <==>
            |t| >= 3 && t[0] == PERCENT && StandsFor(t[1], b / 16) && StandsFor(t[2], b % 16)
  {
    if |t| >= 3 {
      StandsExactly(t[1], b / 16);
      StandsExactly(t[2], b % 16);
    }
  }

  predicate StandsFor(c: CodePoint, n: int)
    requires 0 <= n < 16
  {
    c == HexDigit(n) || (n >= 10 && c == HexDigit(n) + 0x20)
  }

  lemma StandsExactly(c: CodePoint, n: int)
    requires 0 <= n < 16
    ensures StandsFor(c, n) <==> HexValue(c) == Some(n)
  {
  }

  lemma EscapedFirst(t: Text, bs: seq<Byte>)
    requires t != [] && bs != [] && Unescapes(t, |bs|) == Some(bs)
    ensures Unescape(t) == Some(bs[0])
  {
  }

  lemma DecodesOneExactly(t: Text, c: CodePoint, n: nat)
    requires t != [] && t[0] == PERCENT
    ensures DecodeOne(t) == Some((c, n)) <==>
            !Surrogate(c) && n == 3 * |Bytes(c)| && n <= |t| && Unescapes(t, |Bytes(c)|) == Some(Bytes(c))
  {
    if !Surrogate(c) && n == 3 * |Bytes(c)| && n <= |t| && Unescapes(t, |Bytes(c)|) == Some(Bytes(c)) {
      ScalarBytes(c);
      EscapedFirst(t, Bytes(c));
      DecodesSequence(t, Bytes(c), c);
    }
    if DecodeOne(t) == Some((c, n)) {
      UnescapesLength(t, SequenceLength(Unescape(t).value).value);
    }
  }

  lemma {:induction false} UnescapesLength(t: Text, n: nat)
    requires Unescapes(t, n).Some?
    ensures |Unescapes(t, n).value| == n
  {
    if n > 0 {
      UnescapesLength(t[3..], n - 1);
    }
  }

  /** Decoding takes exactly the texts that spell something, and gives what they spell:
      no overlong sequence, no surrogate, no stray byte is let through. */
  lemma {:induction false} DecodesExactly(t: Text, id: Text)
    ensures DecodeComponent(t) == Some(id) <==> Spells(t, id)
    decreases |t|
  {
    if t != [] && id != [] {
      var n := if t[0] != PERCENT then 1 else 3 * |Bytes(id[0])|;
      if t[0] == PERCENT {
        DecodesOneExactly(t, id[0], n);
      }
      if n <= |t| {
        DecodesExactly(t[n..], id[1..]);
      }
      if DecodeOne(t) == Some((id[0], n)) && n <= |t| && DecodeComponent(t[n..]) == Some(id[1..]) {
        assert [id[0]] + id[1..] == id;
      }
    }
  }

  predicate SlashFree(t: Text) {
    forall i :: 0 <= i < |t| ==> t[i] != SLASH
  }

  lemma {:induction false} EscapesSlashFree(bs: seq<Byte>)
    ensures SlashFree(Escapes(bs)) && (bs != [] ==> Escapes(bs) != [])
  {
    if bs != [] {
      HexRoundTrip(bs[0] / 16);
      HexRoundTrip(bs[0] % 16);
      EscapesSlashFree(bs[1..]);
    }
  }

  /** An encoded id is one path segment: never empty, never holding a slash. */
  lemma {:induction false} EncodedIsOneSegment(t: Text)
    requires EncodeComponent(t).Some?
    ensures SlashFree(EncodeComponent(t).value) && (t != [] ==> EncodeComponent(t).value != [])
  {
    if t != [] {
      EncodedIsOneSegment(t[1..]);
      EscapesSlashFree(Bytes(t[0]));
    }
  }

  // ---- Paths ----

  const CHAT: Text := [0x63, 0x68, 0x61, 0x74]
  const PROJECTS: Text := [0x70, 0x72, 0x6F, 0x6A, 0x65, 0x63, 0x74, 0x73]
  const TASKS: Text := [0x74, 0x61, 0x73, 0x6B, 0x73]
  const NEW_TASK: Text := [0x6E, 0x65, 0x77, 0x2D, 0x74, 0x61, 0x73, 0x6B]
  const DRAFT: Text := [0x64, 0x72, 0x61, 0x66, 0x74]

  datatype Tab = Projects | Chat
  /** An id left out is None. */
  datatype Route = Route(tab: Tab, projectId: Option<Text>, taskId: Option<Text>, newTaskSessionId: Option<Text>, draft: bool)

  const HOME := Route(Projects, None, None, None, false)

  function SlashFrom(t: Text, from: nat): (i: nat)
    requires from <= |t|
    ensures from <= i <= |t|
    ensures i < |t| ==> t[i] == SLASH
    ensures forall k :: from <= k < i ==> t[k] != SLASH
    decreases |t| - from
  {
    if from == |t| || t[from] == SLASH then from else SlashFrom(t, from + 1)
  }

  function Split(t: Text): seq<Text> {
    var i := SlashFrom(t, 0);
    if i == |t| then [t] else [t[..i]] + Split(t[i + 1..])
  }

  function NonEmpty(parts: seq<Text>): seq<Text> {
    if parts == [] then []
    else (if parts[0] == [] then [] else [parts[0]]) + NonEmpty(parts[1..])
  }

  function Segments(path: Text): seq<Text> {
    NonEmpty(Split(path))
  }

  function ParseSegments(s: seq<Text>): Option<Route> {
    if |s| == 1 && s[0] == CHAT then Some(HOME.(tab := Chat))
    else if |s| == 1 && s[0] == PROJECTS then Some(HOME)
    else if |s| == 2 && s[0] == PROJECTS then
      match DecodeComponent(s[1])
      case None => None
      case Some(p) => Some(HOME.(projectId := Some(p)))
    else if |s| == 4 && s[0] == PROJECTS && (s[2] == NEW_TASK || s[2] == TASKS) then
      match (DecodeComponent(s[1]), DecodeComponent(s[3]))
      case (Some(p), Some(x)) =>
        Some(if s[2] == NEW_TASK then HOME.(projectId := Some(p), newTaskSessionId := Some(x))
             else HOME.(projectId := Some(p), taskId := Some(x)))
      case _ => None
    else if |s| == 5 && s[0] == PROJECTS && s[2] == TASKS && s[4] == DRAFT then
      match (DecodeComponent(s[1]), DecodeComponent(s[3]))
      case (Some(p), Some(x)) => Some(HOME.(projectId := Some(p), taskId := Some(x), draft := true))
      case _ => None
    else Some(HOME)
  }

  function ParsePath(path: Text): Option<Route> {
    ParseSegments(Segments(path))
  }

  /** An id that is there and not empty. */
  predicate Given(id: Option<Text>) {
    id.Some? && id.value != []
  }

  /** A path written as its segments, each behind a slash. */
  function Path(segments: seq<Text>): Text {
    if segments == [] then [] else [SLASH] + (segments[0] + Path(segments[1..]))
  }

  function Encoded(id: Option<Text>): Option<Text> {
    if id.Some? then EncodeComponent(id.value) else None
  }

  function RouteSegments(r: Route): Option<seq<Text>> {
    if r.tab.Chat? then Some([CHAT])
    else if !Given(r.projectId) then Some([PROJECTS])
    else
      match Encoded(r.projectId)
      case None => None
      case Some(p) =>
        if Given(r.newTaskSessionId) then
          match Encoded(r.newTaskSessionId)
          case None => None
          case Some(x) => Some([PROJECTS, p, NEW_TASK, x])
        else if Given(r.taskId) then
          match Encoded(r.taskId)
          case None => None
          case Some(x) => Some(if r.draft then [PROJECTS, p, TASKS, x, DRAFT] else [PROJECTS, p, TASKS, x])
        else Some([PROJECTS, p])
  }

  function RouteToPath(r: Route): Option<Text> {
    match RouteSegments(r)
    case None => None
    case Some(segments) => Some(Path(segments))
  }

  /** The routes the application moves between. */
  predicate Canonical(r: Route) {
    && (r.projectId.Some? ==> r.projectId.value != []) && (r.taskId.Some? ==> r.taskId.value != [])
    && (r.newTaskSessionId.Some? ==> r.newTaskSessionId.value != [])
    && (r.tab.Chat? ==> r == HOME.(tab := Chat))
    && (r.taskId.Some? || r.newTaskSessionId.Some? ==> r.projectId.Some?)
    && !(r.taskId.Some? && r.newTaskSessionId.Some?)
    && (r.draft ==> r.taskId.Some?)
  }

  predicate SegmentLike(t: Text) {
    t != [] && SlashFree(t)
  }

  lemma SlashIs(t: Text, i: nat)
    requires i <= |t| && (i < |t| ==> t[i] == SLASH) && forall k :: 0 <= k < i ==> t[k] != SLASH
    ensures SlashFrom(t, 0) == i
  {
  }

  lemma SplitLast(s: Text)
    requires SlashFree(s)
    ensures Split(s) == [s]
  {
    SlashIs(s, |s|);
  }

  lemma SplitAt(s: Text, rest: Text)
    requires SlashFree(s)
    ensures Split(s + ([SLASH] + rest)) == [s] + Split(rest)
  {
    var t := s + ([SLASH] + rest);
    SlashIs(t, |s|);
    assert t[..|s|] == s && t[|s| + 1..] == rest;
  }

  /** Splitting a segment off the front of a path. */
  lemma SplitOff(s: Text, segments: seq<Text>)
    requires SlashFree(s)
    ensures Split(s + Path(segments)) == [s] + (if segments == [] then [] else Split(segments[0] + Path(segments[1..])))
  {
    if segments == [] {
      SplitLast(s);
      assert s + Path(segments) == s && [s] + [] == [s];
    } else {
      SplitAt(s, segments[0] + Path(segments[1..]));
    }
  }

  lemma {:induction false} SplitPath(segments: seq<Text>)
    requires segments != [] && forall i :: 0 <= i < |segments| ==> SegmentLike(segments[i])
    ensures Split(segments[0] + Path(segments[1..])) == segments
  {
    SplitOff(segments[0], segments[1..]);
    if |segments| > 1 {
      assert forall i :: 0 <= i < |segments| - 1 ==> segments[1..][i] == segments[i + 1];
      SplitPath(segments[1..]);
    }
    assert [segments[0]] + segments[1..] == segments;
  }

  lemma {:induction false} AllNonEmpty(parts: seq<Text>)
    requires forall i :: 0 <= i < |parts| ==> parts[i] != []
    ensures NonEmpty(parts) == parts
  {
    if parts != [] {
      AllNonEmpty(parts[1..]);
      assert [parts[0]] + parts[1..] == parts;
    }
  }

  /** Writing segments as a path and reading them back changes nothing. */
  lemma PathSegments(segments: seq<Text>)
    requires segments != [] && forall i :: 0 <= i < |segments| ==> SegmentLike(segments[i])
    ensures Segments(Path(segments)) == segments && Split(Path(segments)) == [[]] + segments
  {
    SplitOff([], segments);
    assert [] + Path(segments) == Path(segments);
    SplitPath(segments);
    var parts := [[]] + segments;
    assert Split(Path(segments)) == parts && parts[1..] == segments && parts[0] == [];
    AllNonEmpty(segments);
    assert NonEmpty(parts) == [] + NonEmpty(segments);
    assert [] + segments == segments;
  }

  lemma EncodedId(id: Text)
    requires id != [] && EncodeComponent(id).Some?
    ensures SegmentLike(EncodeComponent(id).value) && DecodeComponent(EncodeComponent(id).value) == Some(id)
  {
    EncodedIsOneSegment(id);
    ComponentRoundTrip(id);
  }

  lemma IdsEncode(r: Route)
    requires Canonical(r) && RouteSegments(r).Some?
    ensures forall id :: id in {r.projectId, r.taskId, r.newTaskSessionId} && id.Some? ==>
              id.value != [] && EncodeComponent(id.value).Some? && SegmentLike(EncodeComponent(id.value).value)
              && DecodeComponent(EncodeComponent(id.value).value) == id
  {
    forall id | id in {r.projectId, r.taskId, r.newTaskSessionId} && id.Some?
      ensures id.value != [] && EncodeComponent(id.value).Some? && SegmentLike(EncodeComponent(id.value).value)
      ensures DecodeComponent(EncodeComponent(id.value).value) == id
    {
      EncodedId(id.value);
    }
  }

  lemma SegmentsParseBack(r: Route)
    requires Canonical(r) && RouteSegments(r).Some?
    ensures ParseSegments(RouteSegments(r).value) == Some(r)
  {
    IdsEncode(r);
  }

  lemma SegmentsAreSegments(r: Route)
    requires Canonical(r) && RouteSegments(r).Some?
    ensures var s := RouteSegments(r).value; s != [] && forall i :: 0 <= i < |s| ==> SegmentLike(s[i])
  {
    IdsEncode(r);
  }

  /** Parsing inverts printing on every canonical route the address bar can show. */
  lemma ParseInvertsPrint(r: Route)
    requires Canonical(r) && RouteToPath(r).Some?
    ensures ParsePath(RouteToPath(r).value) == Some(r)
  {
    SegmentsAreSegments(r);
    PathSegments(RouteSegments(r).value);
    SegmentsParseBack(r);
  }

  /** The route without whatever an address has no place for. */
  function Tidied(r: Route): Route {
    if r.tab.Chat? then HOME.(tab := Chat)
    else if !Given(r.projectId) then HOME
    else if Given(r.newTaskSessionId) then HOME.(projectId := r.projectId, newTaskSessionId := r.newTaskSessionId)
    else if Given(r.taskId) then HOME.(projectId := r.projectId, taskId := r.taskId, draft := r.draft)
    else HOME.(projectId := r.projectId)
  }

  /** Any route at all, canonical or not, prints as its tidied form, which its address parses to. */
  lemma PrintsTidied(r: Route)
    ensures Canonical(Tidied(r)) && (Canonical(r) <==> Tidied(r) == r)
    ensures RouteToPath(r) == RouteToPath(Tidied(r))
    ensures RouteToPath(r).Some? ==> ParsePath(RouteToPath(r).value) == Some(Tidied(r))
  {
    if RouteToPath(Tidied(r)).Some? {
      ParseInvertsPrint(Tidied(r));
    }
  }

  lemma {:induction false} SegmentsNotEmpty(parts: seq<Text>, i: nat)
    requires i < |NonEmpty(parts)|
    ensures NonEmpty(parts)[i] != []
  {
    if parts[0] == [] {
      assert NonEmpty(parts) == NonEmpty(parts[1..]);
      SegmentsNotEmpty(parts[1..], i);
    } else if i > 0 {
      SegmentsNotEmpty(parts[1..], i - 1);
    }
  }

  /** Whatever path is loaded, what it parses to is canonical. */
  lemma ParsedIsCanonical(path: Text)
    requires ParsePath(path).Some?
    ensures Canonical(ParsePath(path).value)
  {
    var s := Segments(path);
    forall i | 0 <= i < |s| ensures s[i] != [] { SegmentsNotEmpty(Split(path), i); }
  }

  // ---- When a path parses, and when what it parses to prints ----

  /** The segments of a recognized path that stand for ids. */
  function IdSegments(s: seq<Text>): seq<Text> {
    if |s| == 2 && s[0] == PROJECTS then [s[1]]
    else if |s| == 4 && s[0] == PROJECTS && (s[2] == NEW_TASK || s[2] == TASKS) then [s[1], s[3]]
    else if |s| == 5 && s[0] == PROJECTS && s[2] == TASKS && s[4] == DRAFT then [s[1], s[3]]
    else []
  }

  /** Parsing throws on exactly the recognized paths with an id that does not decode;
      every other malformed path does fall back to the default. */
  lemma ParseFailsExactly(path: Text)
    ensures var ids := IdSegments(Segments(path));
            && (ParsePath(path).None? <==> exists i :: 0 <= i < |ids| && DecodeComponent(ids[i]).None?)
            && (ids == [] ==> ParsePath(path) in {Some(HOME), Some(HOME.(tab := Chat))})
  {
    var s, ids := Segments(path), IdSegments(Segments(path));
    if ids != [] {
      assert ids[0] == s[1] && (|ids| == 2 ==> ids[1] == s[3]);
    }
  }

  /** The route a path of these segments stands for, when its ids decode. */
  predicate Shows(s: seq<Text>, r: Route) {
    match |IdSegments(s)|
    case 0 => r == if s == [CHAT] then HOME.(tab := Chat) else HOME
    case 1 => r == HOME.(projectId := DecodeComponent(s[1])) && r.projectId.Some?
    case _ =>
      && r.tab.Projects? && r.projectId.Some? && r.projectId == DecodeComponent(s[1])
      && (if s[2] == NEW_TASK then r.newTaskSessionId else r.taskId) == DecodeComponent(s[3]) != None
      && (if s[2] == NEW_TASK then r.taskId else r.newTaskSessionId) == None
      && (r.draft <==> |s| == 5)
  }

  lemma NoIdParses(s: seq<Text>, r: Route)
    requires IdSegments(s) == []
    ensures ParseSegments(s) == Some(if s == [CHAT] then HOME.(tab := Chat) else HOME)
  {
  }

  lemma OneIdParses(s: seq<Text>, r: Route)
    requires |IdSegments(s)| == 1
    ensures ParseSegments(s) == Some(r) <==> Shows(s, r)
    ensures ParseSegments(s).Some? ==> ParseSegments(s).value.tab.Projects?
  {
  }

  lemma TwoIdsParse(s: seq<Text>, r: Route)
    requires |IdSegments(s)| == 2
    ensures ParseSegments(s) == Some(r) <==> Shows(s, r)
    ensures ParseSegments(s).Some? ==> ParseSegments(s).value.tab.Projects?
  {
  }

  /** Every path, the malformed included, parses to the one route its segments stand for;
      the chat tab, in particular, is the answer for /chat alone. */
  lemma ParsesExactly(path: Text, r: Route)
    ensures ParsePath(path) == Some(r) <==> Shows(Segments(path), r)
    ensures ParsePath(path).Some? && ParsePath(path).value.tab.Chat? <==> Segments(path) == [CHAT]
  {
    var s := Segments(path);
    if IdSegments(s) == [] {
      NoIdParses(s, r);
    } else if |IdSegments(s)| == 1 {
      OneIdParses(s, r);
    } else {
      TwoIdsParse(s, r);
    }
  }

  lemma {:induction false} NonEmptyAppend(a: seq<Text>, b: seq<Text>)
    ensures NonEmpty(a + b) == NonEmpty(a) + NonEmpty(b)
  {
    if a == [] {
      assert a + b == b;
    } else {
      assert (a + b)[0] == a[0] && (a + b)[1..] == a[1..] + b;
      NonEmptyAppend(a[1..], b);
    }
  }

  lemma {:induction false} SplitAppend(a: Text, b: Text)
    ensures Split(a + ([SLASH] + b)) == Split(a) + Split(b)
  {
    var i := SlashFrom(a, 0);
    if i == |a| {
      SplitAt(a, b);
    } else {
      var rest := a[i + 1..];
      assert a + ([SLASH] + b) == a[..i] + ([SLASH] + (rest + ([SLASH] + b)));
      SplitAt(a[..i], rest + ([SLASH] + b));
      SplitAppend(rest, b);
      assert [a[..i]] + (Split(rest) + Split(b)) == [a[..i]] + Split(rest) + Split(b);
    }
  }

  /** A path's segments are its stretches between slashes, empty ones skipped: a slash
      separates two paths, and a stretch without one is a segment if there is anything in it. */
  lemma SegmentsExactly(a: Text, b: Text)
    ensures Segments(a + ([SLASH] + b)) == Segments(a) + Segments(b)
    ensures SlashFree(a) ==> Segments(a) == if a == [] then [] else [a]
  {
    SplitAppend(a, b);
    NonEmptyAppend(Split(a), Split(b));
    if SlashFree(a) {
      SplitLast(a);
      assert [a][1..] == [] && NonEmpty([]) == [];
    }
  }

  /** Only an escape can fail to decode. */
  lemma {:induction false} PlainDecodes(t: Text)
    requires PERCENT !in t
    ensures DecodeComponent(t) == Some(t)
  {
    if t != [] {
      assert t[0] in t && forall c :: c in t[1..] ==> c in t;
      PlainDecodes(t[1..]);
      assert [t[0]] + t[1..] == t;
    }
  }

  lemma {:induction false} SplitPlain(t: Text)
    requires PERCENT !in t
    ensures forall i :: 0 <= i < |Split(t)| ==> PERCENT !in Split(t)[i]
  {
    var i := SlashFrom(t, 0);
    if i < |t| {
      SplitPlain(t[i + 1..]);
    }
  }

  lemma {:induction false} NonEmptyPlain(parts: seq<Text>)
    requires forall i :: 0 <= i < |parts| ==> PERCENT !in parts[i]
    ensures forall i :: 0 <= i < |NonEmpty(parts)| ==> PERCENT !in NonEmpty(parts)[i]
  {
    if parts != [] {
      assert forall i :: 0 <= i < |parts| - 1 ==> parts[1..][i] == parts[i + 1];
      NonEmptyPlain(parts[1..]);
    }
  }

  /** A path without a percent sign never throws, and its ids are its segments. */
  lemma PlainPathParses(path: Text)
    requires PERCENT !in path
    ensures ParsePath(path).Some?
    ensures var ids := IdSegments(Segments(path)); forall i :: 0 <= i < |ids| ==> DecodeComponent(ids[i]) == Some(ids[i])
  {
    var ids := IdSegments(Segments(path));
    SplitPlain(path);
    NonEmptyPlain(Split(path));
    forall i | 0 <= i < |ids| ensures DecodeComponent(ids[i]) == Some(ids[i]) { PlainDecodes(ids[i]); }
    ParseFailsExactly(path);
  }

  /** `/projects/%` throws, where the comment promises the default. */
  lemma MalformedEscapeThrows() returns (path: Text)
    ensures path == Path([PROJECTS, [PERCENT]]) && ParsePath(path).None?
  {
    var segments := [PROJECTS, [PERCENT]];
    path := Path(segments);
    assert SlashFree(PROJECTS) && SlashFree([PERCENT]);
    PathSegments(segments);
    assert Unescape([PERCENT]).None?;
  }

  lemma {:induction false} UnescapesPlain(t: Text, n: nat)
    requires Unescapes(t, n).Some?
    ensures 3 * n <= |t| && Scalars(t[..3 * n])
  {
    if n > 0 {
      UnescapesPlain(t[3..], n - 1);
      assert HexValue(t[1]).Some? && HexValue(t[2]).Some?;
      assert t[..3 * n] == t[..3] + t[3..][..3 * (n - 1)];
    }
  }

  lemma DecodeOneScalar(t: Text)
    requires t != [] && DecodeOne(t).Some?
    ensures var (c, n) := DecodeOne(t).value; n <= |t| && (Surrogate(c) <==> !Scalars(t[..n]))
  {
    if t[0] == PERCENT {
      UnescapesPlain(t, SequenceLength(Unescape(t).value).value);
    }
  }

  /** An id holds a lone surrogate exactly if its segment does, unescaped. */
  lemma {:induction false} DecodedScalars(t: Text)
    requires DecodeComponent(t).Some?
    ensures Scalars(DecodeComponent(t).value) <==> Scalars(t)
    decreases |t|
  {
    if t != [] {
      var (c, n) := DecodeOne(t).value;
      DecodeOneScalar(t);
      DecodedScalars(t[n..]);
      ScalarsAppend(t[..n], t[n..]);
      ScalarsAppend([c], DecodeComponent(t[n..]).value);
      assert [c][0] == c && t[..n] + t[n..] == t;
    }
  }

  lemma ScalarsAppend(a: Text, b: Text)
    ensures Scalars(a + b) <==> Scalars(a) && Scalars(b)
  {
    assert forall i :: 0 <= i < |a| ==> (a + b)[i] == a[i];
    assert forall i :: 0 <= i < |b| ==> (a + b)[|a| + i] == b[i];
  }

  predicate AllScalars(ts: seq<Text>) {
    forall i :: 0 <= i < |ts| ==> Scalars(ts[i])
  }

  lemma {:induction false} SplitScalars(t: Text)
    requires Scalars(t)
    ensures AllScalars(Split(t))
  {
    var i := SlashFrom(t, 0);
    if i < |t| {
      SplitScalars(t[i + 1..]);
    }
  }

  lemma {:induction false} NonEmptyScalars(parts: seq<Text>)
    requires AllScalars(parts)
    ensures AllScalars(NonEmpty(parts))
  {
    if parts != [] {
      assert forall i :: 0 <= i < |parts| - 1 ==> parts[1..][i] == parts[i + 1];
      NonEmptyScalars(parts[1..]);
    }
  }

  lemma IdsAreScalars(path: Text)
    requires Scalars(path)
    ensures AllScalars(IdSegments(Segments(path)))
  {
    SplitScalars(path);
    NonEmptyScalars(Split(path));
  }

  lemma IdPrints(segment: Text)
    requires DecodeComponent(segment).Some?
    ensures EncodeComponent(DecodeComponent(segment).value).Some? <==> Scalars(segment)
  {
    DecodedScalars(segment);
    EncodeFails(DecodeComponent(segment).value);
  }

  lemma SegmentsPrint(s: seq<Text>)
    requires ParseSegments(s).Some? && Canonical(ParseSegments(s).value)
    ensures RouteSegments(ParseSegments(s).value).Some? <==> AllScalars(IdSegments(s))
  {
    var ids := IdSegments(s);
    if |ids| == 1 {
      assert ids[0] == s[1];
      IdPrints(s[1]);
    } else if |ids| == 2 {
      assert ids[0] == s[1] && ids[1] == s[3];
      IdPrints(s[1]);
      IdPrints(s[3]);
    }
  }

  /** What a path parses to can be printed exactly if its ids hold no lone surrogate,
      which an address bar never shows. */
  lemma ParsedPrints(path: Text)
    requires ParsePath(path).Some?
    ensures RouteToPath(ParsePath(path).value).Some? <==> AllScalars(IdSegments(Segments(path)))
    ensures Scalars(path) ==> RouteToPath(ParsePath(path).value).Some?
  {
    ParsedIsCanonical(path);
    SegmentsPrint(Segments(path));
    if Scalars(path) {
      IdsAreScalars(path);
    }
  }

  /** So correcting the address bar settles at once, whatever decodable path was loaded:
      the corrected path parses to the same route and needs no further correction. */
  lemma CorrectionSettles(path: Text)
    requires ParsePath(path).Some? && Scalars(path)
    ensures RouteToPath(ParsePath(path).value).Some?
    ensures var corrected := RouteToPath(ParsePath(path).value).value;
            ParsePath(corrected) == ParsePath(path) && RouteToPath(ParsePath(corrected).value) == Some(corrected)
  {
    ParsedPrints(path);
    ParsedIsCanonical(path);
    ParseInvertsPrint(ParsePath(path).value);
  }

  /** Distinct canonical routes never share an address. */
  lemma PathsDistinct(r: Route, q: Route)
    requires Canonical(r) && Canonical(q) && RouteToPath(r).Some? && RouteToPath(r) == RouteToPath(q)
    ensures r == q
  {
    ParseInvertsPrint(r);
    ParseInvertsPrint(q);
  }
}
