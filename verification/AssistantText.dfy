/**
 One turn's assistant text, built from the live delta stream alone
 (assistantText, internal/agentrunner/claude_runner.go).
 */
module AssistantText {
  import opened Sequences

  const BREAK := "\n\n"

  datatype Op = NewRound | Delta(text: string)

  /** The text of every round, the last one still open. */
  function Rounds(ops: seq<Op>): (rs: seq<string>)
    ensures rs != []
  {
    if ops == [] then [""] else
    var rs := Rounds(ops[..|ops| - 1]);
    match ops[|ops| - 1]
    case NewRound => rs + [""]
    case Delta(t) => rs[|rs| - 1 := rs[|rs| - 1] + t]
  }

  function NonEmpty(rs: seq<string>): seq<string> {
    if rs == [] then []
    else NonEmpty(rs[..|rs| - 1]) + if rs[|rs| - 1] == "" then [] else [rs[|rs| - 1]]
  }

  function Join(rs: seq<string>): string {
    if rs == [] then ""
    else if |rs| == 1 then rs[0]
    else Join(rs[..|rs| - 1]) + BREAK + rs[|rs| - 1]
  }

  function Concat(parts: seq<string>): string {
    if parts == [] then "" else Concat(parts[..|parts| - 1]) + parts[|parts| - 1]
  }

  lemma {:induction false} JoinNonEmpty(rs: seq<string>)
    ensures Join(NonEmpty(rs)) == "" <==> NonEmpty(rs) == []
    ensures forall r :: r in NonEmpty(rs) ==> r != ""
  {
    if rs != [] {
      JoinNonEmpty(rs[..|rs| - 1]);
    }
  }

  lemma JoinSnoc(rs: seq<string>, r: string)
    ensures Join(rs + [r]) == if rs == [] then r else Join(rs) + BREAK + r
  {
    assert (rs + [r])[..|rs|] == rs;
  }

  /** The builder holds the non-empty rounds joined by a blank line, and a break
      is due exactly when a later round is open and still empty. */
  ghost predicate Holds(text: string, pendingBreak: bool, ops: seq<Op>) {
    var rs := Rounds(ops);
    && text == Join(NonEmpty(rs))
    && (pendingBreak <==> |rs| > 1 && rs[|rs| - 1] == "")
  }

  lemma HoldsNewRound(text: string, pendingBreak: bool, ops: seq<Op>)
    requires Holds(text, pendingBreak, ops)
    ensures Holds(text, true, ops + [NewRound])
  {
    assert (ops + [NewRound])[..|ops|] == ops;
    var rs := Rounds(ops);
    assert (rs + [""])[..|rs|] == rs;
    assert NonEmpty(rs + [""]) == NonEmpty(rs);
  }

  /** What one non-empty delta adds to the text. */
  function Added(text: string, pendingBreak: bool, delta: string): seq<string> {
    if delta == "" then []
    else if pendingBreak && text != "" then [BREAK, delta]
    else [delta]
  }

  lemma ConcatAdded(text: string, pendingBreak: bool, delta: string)
    ensures Concat(Added(text, pendingBreak, delta)) ==
            if delta == "" then "" else if pendingBreak && text != "" then BREAK + delta else delta
  {
    assert [BREAK, delta][..1] == [BREAK] && [delta][..0] == [] && [BREAK][..0] == [];
    assert Concat([BREAK]) == BREAK;
  }

  lemma NonEmptySnoc(rs: seq<string>, r: string)
    ensures NonEmpty(rs + [r]) == if r == "" then NonEmpty(rs) else NonEmpty(rs) + [r]
  {
    assert (rs + [r])[..|rs|] == rs;
  }

  lemma ExtendOpenRound(closed: seq<string>, last: string, delta: string)
    ensures Join(closed + [last + delta]) == Join(closed + [last]) + delta
  {
    JoinSnoc(closed, last + delta);
    JoinSnoc(closed, last);
    if closed != [] {
      Associative(Join(closed) + BREAK, last, delta);
    }
  }

  lemma OpenEmptyRound(closed: seq<string>, delta: string)
    requires Join(closed) == "" <==> closed == []
    ensures Join(closed + [delta]) == Join(closed) + (if Join(closed) != "" then BREAK else "") + delta
  {
    JoinSnoc(closed, delta);
  }

  lemma JoinExtend(rs: seq<string>, delta: string)
    requires rs != [] && delta != ""
    ensures var n, text := |rs|, Join(NonEmpty(rs));
            Join(NonEmpty(rs[n - 1 := rs[n - 1] + delta])) ==
            text + (if rs[n - 1] == "" && text != "" then BREAK else "") + delta
  {
    var n := |rs|;
    var last, earlier := rs[n - 1], rs[..n - 1];
    assert rs == earlier + [last] && rs[n - 1 := last + delta] == earlier + [last + delta];
    NonEmptySnoc(earlier, last);
    NonEmptySnoc(earlier, last + delta);
    if last == "" {
      assert last + delta == delta;
      JoinNonEmpty(earlier);
      OpenEmptyRound(NonEmpty(earlier), delta);
    } else {
      ExtendOpenRound(NonEmpty(earlier), last, delta);
      assert Join(NonEmpty(rs)) + "" == Join(NonEmpty(rs));
    }
  }

  lemma RoundsDelta(ops: seq<Op>, delta: string)
    ensures var rs := Rounds(ops);
            Rounds(ops + [Delta(delta)]) == rs[|rs| - 1 := rs[|rs| - 1] + delta]
  {
    assert (ops + [Delta(delta)])[..|ops|] == ops;
  }

  lemma HoldsEmptyDelta(text: string, pendingBreak: bool, ops: seq<Op>)
    requires Holds(text, pendingBreak, ops)
    ensures Holds(text, pendingBreak, ops + [Delta("")])
  {
    RoundsDelta(ops, "");
    var rs := Rounds(ops);
    assert rs[|rs| - 1] + "" == rs[|rs| - 1];
    assert rs[|rs| - 1 := rs[|rs| - 1]] == rs;
  }

  lemma HoldsTextDelta(text: string, pendingBreak: bool, ops: seq<Op>, delta: string)
    requires Holds(text, pendingBreak, ops) && delta != ""
    ensures Holds(text + (if pendingBreak && text != "" then BREAK else "") + delta, false, ops + [Delta(delta)])
  {
    RoundsDelta(ops, delta);
    var rs := Rounds(ops);
    JoinExtend(rs, delta);
    if |rs| == 1 && rs[0] == "" {
      assert rs[..0] == [] && NonEmpty([]) == [];
      assert NonEmpty(rs) == [];
    }
  }

  lemma HoldsDelta(text: string, pendingBreak: bool, ops: seq<Op>, delta: string, text': string, pendingBreak': bool)
    requires Holds(text, pendingBreak, ops)
    requires text' == text + Concat(Added(text, pendingBreak, delta))
    requires pendingBreak' <==> pendingBreak && delta == ""
    ensures Holds(text', pendingBreak', ops + [Delta(delta)])
  {
    ConcatAdded(text, pendingBreak, delta);
    if delta == "" {
      assert text' == text;
      HoldsEmptyDelta(text, pendingBreak, ops);
    } else {
      assert text' == text + (if pendingBreak && text != "" then BREAK else "") + delta;
      HoldsTextDelta(text, pendingBreak, ops, delta);
    }
  }

  class AssistantText {
    var text: string
    var pendingBreak: bool
    ghost var ops: seq<Op>

    ghost predicate Valid()
      reads this
    {
      Holds(text, pendingBreak, ops)
    }

    constructor ()
      ensures Valid() && text == "" && ops == []
    {
      text, pendingBreak, ops := "", false, [];
      new;
      assert NonEmpty([""][..0]) == [];
    }

    method StartNewRound()
      requires Valid()
      modifies this
      ensures Valid() && ops == old(ops) + [NewRound] && text == old(text)
    {
      HoldsNewRound(text, pendingBreak, ops);
      pendingBreak := true;
      ops := ops + [NewRound];
    }

    method ConsumeBreak() returns (due: bool)
      modifies this`pendingBreak
      ensures due <==> old(pendingBreak) && text != ""
      ensures !pendingBreak
    {
      if !pendingBreak {
        return false;
      }
      pendingBreak := false;
      return |text| > 0;
    }

    /** Writes delta, and relays exactly the bytes it writes. */
    method AppendDelta(delta: string) returns (relayed: seq<string>)
      requires Valid()
      modifies this
      ensures Valid() && ops == old(ops) + [Delta(delta)]
      ensures relayed == Added(old(text), old(pendingBreak), delta)
      ensures text == old(text) + Concat(relayed) && pendingBreak == (old(pendingBreak) && delta == "")
    {
      relayed := [];
      ghost var before, owed, log := text, pendingBreak, ops;
      ConcatAdded(before, owed, delta);
      if delta != "" {
        var due := ConsumeBreak();
        if due {
          text := text + BREAK;
          relayed := [BREAK];
          Associative(before, BREAK, delta);
        }
        text := text + delta;
        relayed := relayed + [delta];
      } else {
        assert before + "" == before;
      }
      ops := log + [Delta(delta)];
      assert relayed == Added(before, owed, delta) && text == before + Concat(relayed);
      HoldsDelta(before, owed, log, delta, text, pendingBreak);
    }
  }
}
