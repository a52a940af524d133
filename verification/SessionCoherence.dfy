/**
 One stage conversation and every place a model's context can come from: the
 persisted transcript, each runner's live session, each executor's persisted
 resume id (internal/api/stage_conversation.go, finalize.go and the runners).
 Handlers do not overlap; stores and the outside world may fail in any way.
 */
module SessionCoherence {
  import opened Options

  type Executor = string
  type Msg = nat         // messages and sessions are named by fresh numbers
  type SessionId = nat

  /** Chat keeps its own history; Claude keeps a connection to a CLI session; Codex
      keeps nothing between turns and resumes a thread by id. */
  datatype Kind = Chat | Claude | Codex
  datatype Live = Held(msgs: seq<Msg>) | Connected(id: SessionId)
  datatype Entry = Entry(msg: Msg, fromUser: bool)

  /** `sessions` is the CLIs' own storage; `discarded` what a human took out of the
      transcript and no model may see again. */
  datatype State = State(
    transcript: seq<Entry>,
    live: map<Executor, Live>,
    resume: map<Executor, SessionId>,
    sessions: map<SessionId, seq<Msg>>,
    discarded: set<Msg>,
    next: nat)

  const INITIAL := State([], map[], map[], map[], {}, 0)

  /** How the world answers one turn: whether its workspace resolves, whether a
      resume and a fresh connect work, how much history a fresh CLI session drops
      to fit, whether the turn completes, which store calls fail. */
  datatype Connect = Works | NotFound | Refused
  datatype Answer = Answer(
    resolves: bool, onResume: Connect, onFresh: Connect, dropped: nat, completes: bool,
    loadFails: bool, persistFails: bool, saveFails: bool)

  function Messages(transcript: seq<Entry>): seq<Msg> {
    seq(|transcript|, i requires 0 <= i < |transcript| => transcript[i].msg)
  }

  function Replayed(history: seq<Msg>, dropped: nat): seq<Msg> {
    if dropped <= |history| then history[dropped..] else []
  }

  // ---- One turn of one runner ----

  /** `context` is what the model is shown, None when the turn never reached it. */
  datatype Turn = Turn(s: State, id: Option<SessionId>, context: Option<seq<Msg>>)

  function ChatTurn(s: State, e: Executor, history: seq<Msg>, user: Msg, reply: Msg, a: Answer): Turn {
    var held := e in s.live && s.live[e].Held?;
    var base := if held then s.live[e].msgs else history;
    var live :=
      if a.completes then s.live[e := Held(base + [user, reply])]
      else if held || history == [] then s.live
      else s.live[e := Held(base)];
    Turn(s.(live := live), None, Some(base + [user]))
  }

  /** A turn inside CLI session id, whose content so far is known. */
  function InSession(s: State, e: Executor, kind: Kind, id: SessionId, content: seq<Msg>, user: Msg, reply: Msg, a: Answer): Turn {
    var s' := s.(
      sessions := s.sessions[id := content + if a.completes then [user, reply] else [user]],
      live := if kind.Claude? then s.live[e := Connected(id)] else s.live);
    Turn(s', if a.completes || kind.Codex? then Some(id) else None, Some(content + [user]))
  }

  function CliTurn(s: State, e: Executor, kind: Kind, resume: Option<SessionId>, history: seq<Msg>,
                   user: Msg, reply: Msg, a: Answer): Turn
  {
    if kind.Claude? && e in s.live && s.live[e].Connected? && s.live[e].id in s.sessions then
      InSession(s, e, kind, s.live[e].id, s.sessions[s.live[e].id], user, reply, a)
    else if resume.Some? && resume.value in s.sessions && a.onResume.Works? then
      InSession(s, e, kind, resume.value, s.sessions[resume.value], user, reply, a)
    else if (resume.Some? && a.onResume.Refused?) || !a.onFresh.Works? then
      Turn(s, None, None)
    else
      InSession(s, e, kind, s.next + 2, Replayed(history, a.dropped), user, reply, a)
  }

  function BareTurn(s: State, e: Executor, kind: Kind, resume: Option<SessionId>, history: seq<Msg>, a: Answer): Turn {
    if !a.resolves then Turn(s, None, None)
    else if kind.Chat? then ChatTurn(s, e, history, s.next, s.next + 1, a)
    else CliTurn(s, e, kind, resume, history, s.next, s.next + 1, a)
  }

  function Later(turn: Turn, next: nat): Turn {
    turn.(s := turn.s.(next := next))
  }

  function RunTurn(s: State, e: Executor, kind: Kind, resume: Option<SessionId>, history: seq<Msg>, a: Answer): Turn {
    Later(BareTurn(s, e, kind, resume, history, a), s.next + 3)
  }

  /** A turn's resulting id is recorded whatever it is; an unresolved turn records nothing. */
  function Persisted(s: State, e: Executor, id: Option<SessionId>, a: Answer): State {
    if !a.resolves || a.persistFails then s
    else if id.Some? then s.(resume := s.resume[e := id.value])
    else s.(resume := s.resume - {e})
  }

  function Loaded(s: State, e: Executor, a: Answer): Option<SessionId> {
    if e in s.resume && !a.loadFails then Some(s.resume[e]) else None
  }

  // ---- The handlers ----

  datatype Action =
    | Start(e: Executor, a: Answer)
    | Post(e: Executor, a: Answer)
    | Delete(index: nat, uncleared: set<Executor>)
    | Regenerate(index: nat, e: Executor, a: Answer, uncleared: set<Executor>)
    | Close                       // Finalize, shutdown
    | Evict(e: Executor)          // reaped, stale, or reconnected under another selection

  function Resumed(s: State, e: Executor, kind: Kind, history: seq<Msg>, a: Answer): Turn {
    RunTurn(s, e, kind, Loaded(s, e, a), history, a)
  }

  function Started(s: State, e: Executor, kind: Kind, a: Answer): State {
    var turn := Resumed(s, e, kind, [], a);
    var s' := Persisted(turn.s, e, turn.id, a);
    if a.saveFails then s' else s'.(transcript := [Entry(s.next + 1, false)])
  }

  function Posted(s: State, e: Executor, kind: Kind, a: Answer): State {
    var turn := Resumed(s, e, kind, Messages(s.transcript), a);
    var s' := Persisted(turn.s, e, turn.id, a);
    if a.saveFails then s' else s'.(transcript := s.transcript + [Entry(s.next, true), Entry(s.next + 1, false)])
  }

  /** Both halves of forgetting: every live session, and every id but those whose clear failed. */
  function Forgotten(s: State, runners: set<Executor>, uncleared: set<Executor>): State {
    s.(live := s.live - runners, resume := s.resume - (runners - uncleared))
  }

  function Deleted(s: State, runners: set<Executor>, index: nat, uncleared: set<Executor>): State
    requires index < |s.transcript|
  {
    Forgotten(s.(transcript := s.transcript[..index] + s.transcript[index + 1..],
                 discarded := s.discarded + {s.transcript[index].msg}), runners, uncleared)
  }

  function Regenerated(s: State, runners: set<Executor>, index: nat, e: Executor, kind: Kind, a: Answer, uncleared: set<Executor>): State
    requires index < |s.transcript|
  {
    var prefix := s.transcript[..index];
    var turn := RunTurn(Forgotten(s, runners, uncleared), e, kind, None, Messages(prefix), a);
    var s' := Persisted(turn.s, e, turn.id, a);
    if a.saveFails then s'
    else s'.(transcript := prefix + [Entry(s.next, true), Entry(s.next + 1, false)],
             discarded := s.discarded + set m | m in Messages(s.transcript[index..]))
  }

  /** A request the handlers refuse changes nothing. */
  function Next(s: State, kinds: map<Executor, Kind>, action: Action): State {
    match action
    case Start(e, a) => if e in kinds && s.transcript == [] then Started(s, e, kinds[e], a) else s
    case Post(e, a) => if e in kinds then Posted(s, e, kinds[e], a) else s
    case Delete(index, uncleared) => if index < |s.transcript| then Deleted(s, kinds.Keys, index, uncleared) else s
    case Regenerate(index, e, a, uncleared) =>
      if e in kinds && index < |s.transcript| && s.transcript[index].fromUser then
        Regenerated(s, kinds.Keys, index, e, kinds[e], a, uncleared)
      else s
    case Close => s.(live := s.live - kinds.Keys)
    case Evict(e) => s.(live := s.live - {e})
  }

  function After(kinds: map<Executor, Kind>, actions: seq<Action>): State {
    if actions == [] then INITIAL else Next(After(kinds, actions[..|actions| - 1]), kinds, actions[|actions| - 1])
  }

  // ---- Coherence ----

  function Content(s: State, l: Live): seq<Msg> {
    match l
    case Held(msgs) => msgs
    case Connected(id) => if id in s.sessions then s.sessions[id] else []
  }

  function Stored(s: State, id: SessionId): seq<Msg> {
    if id in s.sessions then s.sessions[id] else []
  }

  predicate Clean(msgs: seq<Msg>, discarded: set<Msg>) {
    forall m :: m in msgs ==> m !in discarded
  }

  /** No discarded message is within reach of any later turn. */
  ghost predicate Coherent(s: State) {
    && Clean(Messages(s.transcript), s.discarded)
    && (forall e :: e in s.live ==> Clean(Content(s, s.live[e]), s.discarded))
    && (forall e :: e in s.resume ==> Clean(Stored(s, s.resume[e]), s.discarded))
  }

  /** Numbers in use are below the counter, a transcript repeats no message, and
      only configured executors have sessions. */
  ghost predicate Fresh(s: State, kinds: map<Executor, Kind>) {
    && (forall i, j :: 0 <= i < j < |s.transcript| ==> s.transcript[i].msg != s.transcript[j].msg)
    && (forall en :: en in s.transcript ==> en.msg < s.next)
    && (forall m :: m in s.discarded ==> m < s.next)
    && (forall id :: id in s.sessions ==> id < s.next)
    && (forall e :: e in s.live ==> s.live[e].Connected? ==> s.live[e].id in s.sessions)
    && (forall e :: e in s.resume ==> s.resume[e] in s.sessions)
    && s.live.Keys <= kinds.Keys && s.resume.Keys <= kinds.Keys
  }

  // ---- One turn keeps what is clean clean ----

  predicate CleanAt(s: State, id: SessionId) {
    Clean(Stored(s, id), s.discarded)
  }

  /** What a turn may do to the state it runs in. */
  ghost predicate Sound(s: State, e: Executor, turn: Turn) {
    && turn.s.transcript == s.transcript && turn.s.resume == s.resume && turn.s.discarded == s.discarded
    && s.sessions.Keys <= turn.s.sessions.Keys
    && (forall id :: id in s.sessions && CleanAt(s, id) ==> CleanAt(turn.s, id))
    && s.live.Keys <= turn.s.live.Keys <= s.live.Keys + {e}
    && (forall f :: f in s.live && f != e ==> turn.s.live[f] == s.live[f])
    && (e in turn.s.live ==> Clean(Content(turn.s, turn.s.live[e]), s.discarded))
    && (e in turn.s.live && turn.s.live[e].Connected? ==> turn.s.live[e].id in turn.s.sessions)
    && (turn.id.Some? ==> turn.id.value in turn.s.sessions && CleanAt(turn.s, turn.id.value))
    && (turn.context.Some? ==> Clean(turn.context.value, s.discarded))
  }

  lemma CleanAppend(a: seq<Msg>, b: seq<Msg>, discarded: set<Msg>)
    ensures Clean(a + b, discarded) <==> Clean(a, discarded) && Clean(b, discarded)
  {
    if Clean(a + b, discarded) {
      assert forall m :: m in a ==> m in a + b;
      assert forall m :: m in b ==> m in a + b;
    }
  }

  lemma ChatTurnSound(s: State, kinds: map<Executor, Kind>, e: Executor, history: seq<Msg>, a: Answer)
    requires Fresh(s, kinds) && Coherent(s) && Clean(history, s.discarded)
    ensures Sound(s, e, ChatTurn(s, e, history, s.next, s.next + 1, a))
  {
    var base := if e in s.live && s.live[e].Held? then s.live[e].msgs else history;
    assert e in s.live ==> Clean(Content(s, s.live[e]), s.discarded);
    CleanAppend(base, [s.next, s.next + 1], s.discarded);
    CleanAppend(base, [s.next], s.discarded);
  }

  lemma InSessionSound(s: State, kinds: map<Executor, Kind>, e: Executor, kind: Kind, id: SessionId, content: seq<Msg>, a: Answer)
    requires Fresh(s, kinds) && Coherent(s) && !kind.Chat? && Clean(content, s.discarded)
    ensures Sound(s, e, InSession(s, e, kind, id, content, s.next, s.next + 1, a))
  {
    CleanAppend(content, [s.next, s.next + 1], s.discarded);
    CleanAppend(content, [s.next], s.discarded);
    if e in s.live {
      assert Clean(Content(s, s.live[e]), s.discarded);
    }
  }

  lemma CliTurnSound(s: State, kinds: map<Executor, Kind>, e: Executor, kind: Kind, resume: Option<SessionId>, history: seq<Msg>, a: Answer)
    requires Fresh(s, kinds) && Coherent(s) && !kind.Chat? && Clean(history, s.discarded)
    requires resume.Some? ==> CleanAt(s, resume.value)
    ensures Sound(s, e, CliTurn(s, e, kind, resume, history, s.next, s.next + 1, a))
  {
    if kind.Claude? && e in s.live && s.live[e].Connected? && s.live[e].id in s.sessions {
      assert Clean(Content(s, s.live[e]), s.discarded);
      InSessionSound(s, kinds, e, kind, s.live[e].id, s.sessions[s.live[e].id], a);
    } else if resume.Some? && resume.value in s.sessions && a.onResume.Works? {
      InSessionSound(s, kinds, e, kind, resume.value, s.sessions[resume.value], a);
    } else if (resume.Some? && a.onResume.Refused?) || !a.onFresh.Works? {
      NoTurnSound(s, kinds, e);
    } else {
      assert Clean(Replayed(history, a.dropped), s.discarded);
      InSessionSound(s, kinds, e, kind, s.next + 2, Replayed(history, a.dropped), a);
    }
  }

  lemma NoTurnSound(s: State, kinds: map<Executor, Kind>, e: Executor)
    requires Fresh(s, kinds) && Coherent(s)
    ensures Sound(s, e, Turn(s, None, None))
  {
  }

  lemma SoundLater(s: State, e: Executor, turn: Turn, next: nat)
    requires Sound(s, e, turn)
    ensures Sound(s, e, Later(turn, next))
  {
    var later := Later(turn, next).s;
    assert forall id :: Stored(later, id) == Stored(turn.s, id);
    assert forall l :: Content(later, l) == Content(turn.s, l);
  }

  lemma BareTurnSound(s: State, kinds: map<Executor, Kind>, e: Executor, kind: Kind, resume: Option<SessionId>,
                      history: seq<Msg>, a: Answer)
    requires Fresh(s, kinds) && Coherent(s) && Clean(history, s.discarded)
    requires resume.Some? ==> CleanAt(s, resume.value)
    ensures Sound(s, e, BareTurn(s, e, kind, resume, history, a))
  {
    if !a.resolves {
      NoTurnSound(s, kinds, e);
    } else if kind.Chat? {
      ChatTurnSound(s, kinds, e, history, a);
    } else {
      CliTurnSound(s, kinds, e, kind, resume, history, a);
    }
  }

  /** A turn shows the model nothing discarded and leaves nothing discarded where
      a later turn could find it. */
  lemma RunTurnSound(s: State, kinds: map<Executor, Kind>, e: Executor, kind: Kind, resume: Option<SessionId>, history: seq<Msg>, a: Answer)
    requires Fresh(s, kinds) && Coherent(s) && Clean(history, s.discarded)
    requires resume.Some? ==> CleanAt(s, resume.value)
    ensures Sound(s, e, RunTurn(s, e, kind, resume, history, a))
  {
    BareTurnSound(s, kinds, e, kind, resume, history, a);
    SoundLater(s, e, BareTurn(s, e, kind, resume, history, a), s.next + 3);
  }

  // ---- Every handler keeps the numbers fresh ----

  lemma TurnFresh(s: State, e: Executor, kind: Kind, resume: Option<SessionId>, history: seq<Msg>, a: Answer, id: SessionId)
    requires forall x :: x in s.sessions ==> x < s.next
    requires id in RunTurn(s, e, kind, resume, history, a).s.sessions
    ensures id < s.next + 3
  {
  }

  /** Recording a sound turn's id keeps every session clean. */
  lemma RecordedCoherent(s: State, e: Executor, turn: Turn, a: Answer)
    requires Coherent(s) && Sound(s, e, turn)
    requires forall f :: f in s.live ==> s.live[f].Connected? ==> s.live[f].id in s.sessions
    requires forall f :: f in s.resume ==> s.resume[f] in s.sessions
    ensures Coherent(Persisted(turn.s, e, turn.id, a))
  {
    var s' := Persisted(turn.s, e, turn.id, a);
    assert forall id :: Stored(s', id) == Stored(turn.s, id);
    assert forall l :: Content(s', l) == Content(turn.s, l);
    forall f | f in s'.live ensures Clean(Content(s', s'.live[f]), s'.discarded) {
      if f != e {
        assert Clean(Content(s, s.live[f]), s.discarded);
        assert s'.live[f].Connected? ==> CleanAt(s, s'.live[f].id);
      }
    }
    forall f | f in s'.resume ensures Clean(Stored(s', s'.resume[f]), s'.discarded) {
      if f in s.resume && s'.resume[f] == s.resume[f] {
        assert CleanAt(s, s.resume[f]);
      }
    }
  }

  lemma RecordedFresh(s: State, kinds: map<Executor, Kind>, e: Executor, turn: Turn, a: Answer)
    requires Fresh(s, kinds) && e in kinds && Sound(s, e, turn)
    requires turn.s.next == s.next + 3 && forall id :: id in turn.s.sessions ==> id < s.next + 3
    ensures Fresh(Persisted(turn.s, e, turn.id, a), kinds)
  {
  }

  lemma ExtendedFresh(s: State, kinds: map<Executor, Kind>, prefix: seq<Entry>, added: seq<Entry>, n: nat)
    requires Fresh(s, kinds) && prefix <= s.transcript && n + 3 == s.next
    requires added == [Entry(n, true), Entry(n + 1, false)] || added == [Entry(n + 1, false)]
    requires forall en :: en in s.transcript ==> en.msg < n
    ensures Fresh(s.(transcript := prefix + added), kinds)
  {
    forall i | 0 <= i < |prefix| ensures prefix[i] == s.transcript[i] && prefix[i].msg < n {
      assert s.transcript[i] in s.transcript;
    }
  }

  /** New transcript entries are fresh numbers, never discarded ones. */
  lemma Extended(s: State, kinds: map<Executor, Kind>, prefix: seq<Entry>, added: seq<Entry>, n: nat)
    requires Fresh(s, kinds) && Coherent(s) && prefix <= s.transcript && n + 3 == s.next
    requires added == [Entry(n, true), Entry(n + 1, false)] || added == [Entry(n + 1, false)]
    requires (forall m :: m in s.discarded ==> m < n) && (forall en :: en in s.transcript ==> en.msg < n)
    ensures var s' := s.(transcript := prefix + added); Fresh(s', kinds) && Coherent(s')
  {
    var s' := s.(transcript := prefix + added);
    ExtendedFresh(s, kinds, prefix, added, n);
    assert forall id :: Stored(s', id) == Stored(s, id);
    assert forall l :: Content(s', l) == Content(s, l);
    forall m | m in Messages(s'.transcript) ensures m !in s'.discarded {
      var i :| 0 <= i < |prefix + added| && (prefix + added)[i].msg == m;
      if i < |prefix| {
        assert Messages(s.transcript)[i] == m;
      }
    }
  }

  lemma StartedCoherent(s: State, kinds: map<Executor, Kind>, e: Executor, a: Answer)
    requires Fresh(s, kinds) && Coherent(s) && e in kinds && s.transcript == []
    ensures var s' := Started(s, e, kinds[e], a); Fresh(s', kinds) && Coherent(s')
  {
    var turn := Resumed(s, e, kinds[e], [], a);
    ResumedRecorded(s, kinds, e, [], a);
    var s' := Persisted(turn.s, e, turn.id, a);
    Extended(s', kinds, [], [Entry(s.next + 1, false)], s.next);
    assert [] + [Entry(s.next + 1, false)] == [Entry(s.next + 1, false)];
  }

  lemma ResumedRecorded(s: State, kinds: map<Executor, Kind>, e: Executor, history: seq<Msg>, a: Answer)
    requires Fresh(s, kinds) && Coherent(s) && e in kinds && Clean(history, s.discarded)
    ensures var turn := Resumed(s, e, kinds[e], history, a);
            var s' := Persisted(turn.s, e, turn.id, a);
            && Fresh(s', kinds) && Coherent(s')
            && s'.transcript == s.transcript && s'.discarded == s.discarded && s'.next == s.next + 3
            && (turn.context.Some? ==> Clean(turn.context.value, s.discarded))
  {
    var resume := Loaded(s, e, a);
    var turn := RunTurn(s, e, kinds[e], resume, history, a);
    RunTurnSound(s, kinds, e, kinds[e], resume, history, a);
    forall id | id in turn.s.sessions ensures id < s.next + 3 {
      TurnFresh(s, e, kinds[e], resume, history, a, id);
    }
    RecordedCoherent(s, e, turn, a);
    RecordedFresh(s, kinds, e, turn, a);
  }

  lemma PostedCoherent(s: State, kinds: map<Executor, Kind>, e: Executor, a: Answer)
    requires Fresh(s, kinds) && Coherent(s) && e in kinds
    ensures var s' := Posted(s, e, kinds[e], a); Fresh(s', kinds) && Coherent(s')
  {
    var turn := Resumed(s, e, kinds[e], Messages(s.transcript), a);
    ResumedRecorded(s, kinds, e, Messages(s.transcript), a);
    var s' := Persisted(turn.s, e, turn.id, a);
    Extended(s', kinds, s.transcript, [Entry(s.next, true), Entry(s.next + 1, false)], s.next);
  }

  // ---- Taking messages back ----

  /** Forgetting while `dead` leaves the transcript: coherent exactly when no id
      that survived the clear leads to a session holding one of them. */
  lemma ForgottenCoherent(s: State, kinds: map<Executor, Kind>, transcript: seq<Entry>, dead: set<Msg>, uncleared: set<Executor>)
    requires Fresh(s, kinds) && Coherent(s) && Clean(Messages(transcript), s.discarded + dead)
    ensures Coherent(Forgotten(s.(transcript := transcript, discarded := s.discarded + dead), kinds.Keys, uncleared)) <==>
            forall e :: e in s.resume && e in uncleared ==> Clean(Stored(s, s.resume[e]), dead)
  {
    var s' := Forgotten(s.(transcript := transcript, discarded := s.discarded + dead), kinds.Keys, uncleared);
    assert s'.live == map[];
    assert forall id :: Stored(s', id) == Stored(s, id);
    forall e | e in s.resume && e in uncleared
      ensures e in s'.resume && (Clean(Stored(s', s'.resume[e]), s'.discarded) <==> Clean(Stored(s, s.resume[e]), dead))
    {
      assert Clean(Stored(s, s.resume[e]), s.discarded);
    }
  }

  lemma EntryOf(transcript: seq<Entry>, m: Msg) returns (en: Entry)
    requires m in Messages(transcript)
    ensures en in transcript && en.msg == m
  {
    var i :| 0 <= i < |transcript| && transcript[i].msg == m;
    en := transcript[i];
  }

  lemma TranscriptSplit(s: State, kinds: map<Executor, Kind>, kept: seq<Entry>, gone: seq<Entry>)
    requires Fresh(s, kinds) && Coherent(s)
    requires forall en :: en in kept ==> en in s.transcript
    requires forall en, x :: en in kept && x in gone ==> en.msg != x.msg
    ensures Clean(Messages(kept), s.discarded + set m | m in Messages(gone))
  {
    forall m | m in Messages(kept) ensures m !in s.discarded && m !in Messages(gone) {
      var i :| 0 <= i < |kept| && kept[i].msg == m;
      assert kept[i] in kept;
      var j :| 0 <= j < |s.transcript| && s.transcript[j] == kept[i];
      assert Messages(s.transcript)[j] == m;
      if m in Messages(gone) {
        var x := EntryOf(gone, m);
      }
    }
  }

  lemma KeptApart(s: State, kinds: map<Executor, Kind>, index: nat)
    requires Fresh(s, kinds) && Coherent(s) && index < |s.transcript|
    ensures var kept := s.transcript[..index] + s.transcript[index + 1..];
            && (forall en :: en in kept ==> en in s.transcript)
            && (forall i, j :: 0 <= i < j < |kept| ==> kept[i].msg != kept[j].msg)
            && Clean(Messages(kept), s.discarded + {s.transcript[index].msg})
  {
    var kept, gone := s.transcript[..index] + s.transcript[index + 1..], [s.transcript[index]];
    forall i | 0 <= i < |kept| ensures kept[i] == s.transcript[if i < index then i else i + 1] { }
    forall en | en in kept ensures en in s.transcript && en.msg != s.transcript[index].msg {
      var i :| 0 <= i < |kept| && kept[i] == en;
    }
    TranscriptSplit(s, kinds, kept, gone);
    assert Messages(gone) == [s.transcript[index].msg];
  }

  /** Deleting is exactly as safe as its clears: with every id cleared, always. */
  lemma DeletedCoherent(s: State, kinds: map<Executor, Kind>, index: nat, uncleared: set<Executor>)
    requires Fresh(s, kinds) && Coherent(s) && index < |s.transcript|
    ensures var s' := Deleted(s, kinds.Keys, index, uncleared);
            && Fresh(s', kinds)
            && (Coherent(s') <==>
                  forall e :: e in s.resume && e in uncleared ==> s.transcript[index].msg !in Stored(s, s.resume[e]))
  {
    var kept := s.transcript[..index] + s.transcript[index + 1..];
    KeptApart(s, kinds, index);
    assert s.transcript[index] in s.transcript;
    ForgottenCoherent(s, kinds, kept, {s.transcript[index].msg}, uncleared);
  }

  /** A turn reads neither the transcript, nor what was discarded, nor other ids. */
  lemma TurnFrame(s: State, e: Executor, kind: Kind, history: seq<Msg>, a: Answer,
                  transcript: seq<Entry>, discarded: set<Msg>, resume: map<Executor, SessionId>)
    ensures var turn := RunTurn(s, e, kind, None, history, a);
            RunTurn(s.(transcript := transcript, discarded := discarded, resume := resume), e, kind, None, history, a) ==
            turn.(s := turn.s.(transcript := transcript, discarded := discarded, resume := resume))
  {
  }

  /** With no live session and no id to resume, a turn writes only a session of its own. */
  lemma FreshTurnWritesOnlyItsOwn(s: State, e: Executor, kind: Kind, history: seq<Msg>, a: Answer, id: SessionId)
    requires s.live == map[] && id < s.next
    ensures Stored(RunTurn(s, e, kind, None, history, a).s, id) == Stored(s, id)
  {
  }

  /** The executors whose id outlives a regeneration: not cleared, and not
      overwritten by the regenerating turn itself. */
  function Survivors(s: State, e: Executor, a: Answer, uncleared: set<Executor>): set<Executor> {
    set f | f in s.resume && f in uncleared && (f != e || !a.resolves || a.persistFails)
  }

  function Discarding(s: State, e: Executor, a: Answer, index: nat): State
    requires index <= |s.transcript|
  {
    var kept := if a.resolves && !a.persistFails then s.resume - {e} else s.resume;
    s.(transcript := s.transcript[..index], discarded := s.discarded + (set m | m in Messages(s.transcript[index..])), resume := kept)
  }

  lemma SplitFresh(s: State, kinds: map<Executor, Kind>, index: nat)
    requires Fresh(s, kinds) && Coherent(s) && index <= |s.transcript|
    ensures var dead := set m | m in Messages(s.transcript[index..]);
            && (forall m :: m in dead ==> m < s.next)
            && (forall en :: en in s.transcript[..index] ==> en in s.transcript)
            && Clean(Messages(s.transcript[..index]), s.discarded + dead)
  {
    var kept, gone := s.transcript[..index], s.transcript[index..];
    forall m | m in Messages(gone) ensures m < s.next {
      var x := EntryOf(gone, m);
    }
    forall en, x | en in kept && x in gone ensures en.msg != x.msg {
      var i :| 0 <= i < |kept| && kept[i] == en;
      var j :| 0 <= j < |gone| && gone[j] == x;
      assert s.transcript[i] == en && s.transcript[index + j] == x;
    }
    TranscriptSplit(s, kinds, kept, gone);
  }

  lemma DiscardingFresh(s: State, kinds: map<Executor, Kind>, index: nat, e: Executor, a: Answer, uncleared: set<Executor>)
    requires Fresh(s, kinds) && Coherent(s) && index <= |s.transcript|
    ensures var s' := Discarding(Forgotten(s, kinds.Keys, uncleared), e, a, index);
            && Fresh(s', kinds) && s'.live == map[] && s'.next == s.next && s'.sessions == s.sessions
            && s'.resume.Keys == Survivors(s, e, a, uncleared)
  {
    SplitFresh(s, kinds, index);
  }

  lemma DiscardingCoherent(s: State, kinds: map<Executor, Kind>, index: nat, e: Executor, a: Answer, uncleared: set<Executor>)
    requires Fresh(s, kinds) && Coherent(s) && index <= |s.transcript|
    ensures Coherent(Discarding(Forgotten(s, kinds.Keys, uncleared), e, a, index)) <==>
            forall f :: f in Survivors(s, e, a, uncleared) ==>
              Clean(Stored(s, s.resume[f]), set m | m in Messages(s.transcript[index..]))
  {
    var dead := set m | m in Messages(s.transcript[index..]);
    var s' := Discarding(Forgotten(s, kinds.Keys, uncleared), e, a, index);
    SplitFresh(s, kinds, index);
    DiscardingFresh(s, kinds, index, e, a, uncleared);
    forall f | f in s'.resume ensures Clean(Stored(s', s'.resume[f]), s'.discarded) <==> Clean(Stored(s, s.resume[f]), dead) {
      assert Clean(Stored(s, s.resume[f]), s.discarded);
    }
  }

  lemma PersistedFrame(s: State, e: Executor, id: Option<SessionId>, a: Answer, transcript: seq<Entry>, discarded: set<Msg>)
    ensures var kept := if a.resolves && !a.persistFails then s.resume - {e} else s.resume;
            Persisted(s.(transcript := transcript, discarded := discarded, resume := kept), e, id, a) ==
            Persisted(s, e, id, a).(transcript := transcript, discarded := discarded)
  {
  }

  lemma RegeneratedFromDiscarding(s: State, kinds: map<Executor, Kind>, index: nat, e: Executor, a: Answer, uncleared: set<Executor>)
    requires index < |s.transcript| && e in kinds && !a.saveFails
    ensures var s0 := Discarding(Forgotten(s, kinds.Keys, uncleared), e, a, index);
            var turn := RunTurn(s0, e, kinds[e], None, Messages(s0.transcript), a);
            Regenerated(s, kinds.Keys, index, e, kinds[e], a, uncleared) ==
            Persisted(turn.s, e, turn.id, a).(transcript := s0.transcript + [Entry(s.next, true), Entry(s.next + 1, false)])
  {
    var s1 := Forgotten(s, kinds.Keys, uncleared);
    var s0 := Discarding(s1, e, a, index);
    TurnFrame(s1, e, kinds[e], Messages(s0.transcript), a, s0.transcript, s0.discarded, s0.resume);
    var turn := RunTurn(s1, e, kinds[e], None, Messages(s0.transcript), a);
    TurnKeepsResume(s1, e, kinds[e], Messages(s0.transcript), a);
    PersistedFrame(turn.s, e, turn.id, a, s0.transcript, s0.discarded);
  }

  lemma TurnKeepsResume(s: State, e: Executor, kind: Kind, history: seq<Msg>, a: Answer)
    ensures var s' := RunTurn(s, e, kind, None, history, a).s;
            s'.resume == s.resume && s'.discarded == s.discarded && s'.transcript == s.transcript && s'.next == s.next + 3
  {
  }

  /** A sound turn recorded with a fresh pair of entries, from a state already
      rid of what is being discarded. */
  lemma RecordedPair(s: State, kinds: map<Executor, Kind>, e: Executor, history: seq<Msg>, a: Answer)
    requires Fresh(s, kinds) && Coherent(s) && e in kinds && Clean(history, s.discarded)
    ensures var turn := RunTurn(s, e, kinds[e], None, history, a);
            var s' := Persisted(turn.s, e, turn.id, a);
            && Fresh(s', kinds) && Coherent(s') && s'.transcript == s.transcript && s'.next == s.next + 3
            && var s2 := s'.(transcript := s.transcript + [Entry(s.next, true), Entry(s.next + 1, false)]);
               Fresh(s2, kinds) && Coherent(s2)
  {
    var turn := RunTurn(s, e, kinds[e], None, history, a);
    RunTurnSound(s, kinds, e, kinds[e], None, history, a);
    forall id | id in turn.s.sessions ensures id < s.next + 3 {
      TurnFresh(s, e, kinds[e], None, history, a, id);
    }
    RecordedCoherent(s, e, turn, a);
    RecordedFresh(s, kinds, e, turn, a);
    Extended(Persisted(turn.s, e, turn.id, a), kinds, s.transcript, [Entry(s.next, true), Entry(s.next + 1, false)], s.next);
  }

  lemma ForgottenKeeps(s: State, kinds: map<Executor, Kind>, uncleared: set<Executor>)
    requires Fresh(s, kinds) && Coherent(s)
    ensures var s' := Forgotten(s, kinds.Keys, uncleared);
            Fresh(s', kinds) && Coherent(s') && s'.live == map[] && s'.next == s.next && s'.transcript == s.transcript
  {
    var s' := Forgotten(s, kinds.Keys, uncleared);
    assert forall id :: Stored(s', id) == Stored(s, id);
  }

  lemma RegeneratedVia(s: State, kinds: map<Executor, Kind>, index: nat, e: Executor, a: Answer, uncleared: set<Executor>)
    requires index < |s.transcript| && e in kinds && !a.saveFails
    requires var s0 := Discarding(Forgotten(s, kinds.Keys, uncleared), e, a, index); s0.next == s.next && Fresh(s0, kinds) && Coherent(s0)
    ensures var s' := Regenerated(s, kinds.Keys, index, e, kinds[e], a, uncleared); Fresh(s', kinds) && Coherent(s')
  {
    var s0 := Discarding(Forgotten(s, kinds.Keys, uncleared), e, a, index);
    RegeneratedFromDiscarding(s, kinds, index, e, a, uncleared);
    RecordedPair(s0, kinds, e, Messages(s0.transcript), a);
  }

  /** Regenerating is exactly as safe as the clears it relies on. */
  lemma RegeneratedCoherent(s: State, kinds: map<Executor, Kind>, index: nat, e: Executor, a: Answer, uncleared: set<Executor>)
    requires Fresh(s, kinds) && Coherent(s) && index < |s.transcript| && e in kinds && !a.saveFails
    ensures Coherent(Regenerated(s, kinds.Keys, index, e, kinds[e], a, uncleared)) <==>
            forall f :: f in Survivors(s, e, a, uncleared) ==>
              Clean(Stored(s, s.resume[f]), set m | m in Messages(s.transcript[index..]))
  {
    var s0 := Discarding(Forgotten(s, kinds.Keys, uncleared), e, a, index);
    var s' := Regenerated(s, kinds.Keys, index, e, kinds[e], a, uncleared);
    DiscardingFresh(s, kinds, index, e, a, uncleared);
    DiscardingCoherent(s, kinds, index, e, a, uncleared);
    RegeneratedFromDiscarding(s, kinds, index, e, a, uncleared);
    if Coherent(s0) {
      RegeneratedVia(s, kinds, index, e, a, uncleared);
    }
    if Coherent(s') {
      SurvivorsUntouched(s0, kinds, e, a);
      forall f | f in s0.resume ensures CleanAt(s0, s0.resume[f]) {
        assert f in s'.resume && s'.resume[f] == s0.resume[f];
        assert Stored(s', s'.resume[f]) == Stored(s0, s0.resume[f]);
      }
      SplitFresh(s, kinds, index);
      assert Coherent(s0);
    }
  }

  /** The regenerating turn leaves every surviving id and its session as they were. */
  lemma SurvivorsUntouched(s: State, kinds: map<Executor, Kind>, e: Executor, a: Answer)
    requires Fresh(s, kinds) && e in kinds && s.live == map[] && (a.resolves && !a.persistFails ==> e !in s.resume)
    ensures var turn := RunTurn(s, e, kinds[e], None, Messages(s.transcript), a);
            var s' := Persisted(turn.s, e, turn.id, a);
            && s'.discarded == s.discarded
            && forall f :: f in s.resume ==>
                 f in s'.resume && s'.resume[f] == s.resume[f] && Stored(s', s.resume[f]) == Stored(s, s.resume[f])
  {
    TurnKeepsResume(s, e, kinds[e], Messages(s.transcript), a);
    forall f | f in s.resume
      ensures Stored(RunTurn(s, e, kinds[e], None, Messages(s.transcript), a).s, s.resume[f]) == Stored(s, s.resume[f])
    {
      FreshTurnWritesOnlyItsOwn(s, e, kinds[e], Messages(s.transcript), a, s.resume[f]);
    }
  }

  /** Regenerating keeps the numbers fresh, and without its final save discards nothing. */
  lemma RegeneratedFresh(s: State, kinds: map<Executor, Kind>, index: nat, e: Executor, a: Answer, uncleared: set<Executor>)
    requires Fresh(s, kinds) && Coherent(s) && index < |s.transcript| && e in kinds
    ensures a.saveFails ==> var s' := Regenerated(s, kinds.Keys, index, e, kinds[e], a, uncleared); Fresh(s', kinds) && Coherent(s')
  {
    var s1 := Forgotten(s, kinds.Keys, uncleared);
    ForgottenKeeps(s, kinds, uncleared);
    SplitFresh(s, kinds, index);
    RecordedPair(s1, kinds, e, Messages(s.transcript[..index]), a);
  }

  // ---- Whole runs ----

  predicate ClearsAll(action: Action) {
    (action.Delete? || action.Regenerate?) ==> action.uncleared == {}
  }

  lemma NextCoherent(s: State, kinds: map<Executor, Kind>, action: Action)
    requires Fresh(s, kinds) && Coherent(s) && ClearsAll(action)
    ensures var s' := Next(s, kinds, action); Fresh(s', kinds) && Coherent(s')
  {
    match action
    case Start(e, a) => if e in kinds && s.transcript == [] { StartedCoherent(s, kinds, e, a); }
    case Post(e, a) => if e in kinds { PostedCoherent(s, kinds, e, a); }
    case Delete(index, uncleared) => if index < |s.transcript| { DeletedCoherent(s, kinds, index, uncleared); }
    case Regenerate(index, e, a, uncleared) =>
      if e in kinds && index < |s.transcript| {
        RegeneratedFresh(s, kinds, index, e, a, uncleared);
        if !a.saveFails {
          RegeneratedClears(s, kinds, index, e, a);
        }
      }
    case Close => DroppedKeeps(s, kinds, kinds.Keys);
    case Evict(e) => DroppedKeeps(s, kinds, {e});
  }

  lemma DroppedKeeps(s: State, kinds: map<Executor, Kind>, dropped: set<Executor>)
    requires Fresh(s, kinds) && Coherent(s)
    ensures var s' := s.(live := s.live - dropped); Fresh(s', kinds) && Coherent(s')
  {
    var s' := s.(live := s.live - dropped);
    assert forall id :: Stored(s', id) == Stored(s, id);
    assert forall l :: Content(s', l) == Content(s, l);
  }

  lemma RegeneratedClears(s: State, kinds: map<Executor, Kind>, index: nat, e: Executor, a: Answer)
    requires Fresh(s, kinds) && Coherent(s) && index < |s.transcript| && e in kinds && !a.saveFails
    ensures var s' := Regenerated(s, kinds.Keys, index, e, kinds[e], a, {}); Fresh(s', kinds) && Coherent(s')
  {
    DiscardingFresh(s, kinds, index, e, a, {});
    DiscardingCoherent(s, kinds, index, e, a, {});
    assert Survivors(s, e, a, {}) == {};
    RegeneratedVia(s, kinds, index, e, a, {});
  }

  /** After any sequence of handlers, evictions and restarts, executors switching
      freely and every other store call free to fail: while the clears succeed, no
      discarded message is within reach of a live session or a resume id. */
  lemma {:induction false} NeverWithinReach(kinds: map<Executor, Kind>, actions: seq<Action>)
    requires forall a :: a in actions ==> ClearsAll(a)
    ensures Fresh(After(kinds, actions), kinds) && Coherent(After(kinds, actions))
  {
    if actions != [] {
      NeverWithinReach(kinds, actions[..|actions| - 1]);
      NextCoherent(After(kinds, actions[..|actions| - 1]), kinds, actions[|actions| - 1]);
    }
  }

  /** So no turn of any executor is ever shown a discarded message. */
  lemma NoTurnSeesDiscarded(kinds: map<Executor, Kind>, actions: seq<Action>, e: Executor, a: Answer)
    requires (forall x :: x in actions ==> ClearsAll(x)) && e in kinds
    ensures var s := After(kinds, actions);
            var turn := Resumed(s, e, kinds[e], Messages(s.transcript), a);
            turn.context.Some? ==> forall m :: m in turn.context.value ==> m !in s.discarded
  {
    NeverWithinReach(kinds, actions);
    var s := After(kinds, actions);
    ResumedRecorded(s, kinds, e, Messages(s.transcript), a);
  }

  /** A regenerating turn sees the kept prefix, or the end of it that fits, and
      the new message: nothing of what it replaces. */
  lemma RegeneratingContext(s: State, kinds: map<Executor, Kind>, index: nat, e: Executor, a: Answer, uncleared: set<Executor>)
    requires Fresh(s, kinds) && index < |s.transcript| && e in kinds
    ensures var prefix := Messages(s.transcript[..index]);
            var turn := RunTurn(Forgotten(s, kinds.Keys, uncleared), e, kinds[e], None, prefix, a);
            turn.context.Some? ==>
              turn.context.value == (if kinds[e].Chat? then prefix else Replayed(prefix, a.dropped)) + [s.next]
  {
    assert Forgotten(s, kinds.Keys, uncleared).live == map[];
  }

  const CALM := Answer(true, Works, Works, 0, true, false, false, false)

  /** One clear that fails, logged and passed over, lets a deleted message back in
      front of the model. */
  lemma FailedClearLetsItBack() returns (kinds: map<Executor, Kind>, s: State, deleted: Msg)
    ensures kinds == map["codex" := Codex]
    ensures s == Next(Next(INITIAL, kinds, Start("codex", CALM)), kinds, Delete(0, {"codex"}))
    ensures deleted in s.discarded
    ensures var turn := Resumed(s, "codex", Codex, Messages(s.transcript), CALM);
            turn.context.Some? && deleted in turn.context.value
  {
    kinds := map["codex" := Codex];
    assert Replayed([], 0) == [] && [] + [0, 1] == [0, 1] && map[][2 := [0, 1]] == map[2 := [0, 1]];
    var s1 := Next(INITIAL, kinds, Start("codex", CALM));
    assert InSession(INITIAL, "codex", Codex, 2, [], 0, 1, CALM).s.sessions == map[2 := [0, 1]];
    assert s1 == State([Entry(1, false)], map[], map["codex" := 2], map[2 := [0, 1]], {}, 3);
    s := Next(s1, kinds, Delete(0, {"codex"}));
    deleted := 1;
    assert s == State([], map[], map["codex" := 2], map[2 := [0, 1]], {1}, 3);
    assert [0, 1, 3][1] == 1;
    assert Resumed(s, "codex", Codex, [], CALM).context == Some([0, 1] + [3]);
  }

  // ---- What the transcript keeps ----

  /** The handlers take this request. */
  predicate Accepted(s: State, kinds: map<Executor, Kind>, action: Action) {
    match action
    case Start(e, _) => e in kinds && s.transcript == []
    case Post(e, _) => e in kinds
    case Delete(index, _) => index < |s.transcript|
    case Regenerate(index, e, _, _) => e in kinds && index < |s.transcript| && s.transcript[index].fromUser
    case _ => true
  }

  /** What the model is shown by the turn this request runs, if it comes to one. */
  function Shown(s: State, kinds: map<Executor, Kind>, action: Action): Option<seq<Msg>>
    requires Accepted(s, kinds, action)
  {
    match action
    case Start(e, a) => RunTurn(s, e, kinds[e], Loaded(s, e, a), [], a).context
    case Post(e, a) => RunTurn(s, e, kinds[e], Loaded(s, e, a), Messages(s.transcript), a).context
    case Regenerate(index, e, a, uncleared) =>
      RunTurn(Forgotten(s, kinds.Keys, uncleared), e, kinds[e], None, Messages(s.transcript[..index]), a).context
    case _ => None
  }

  /** The entry at this index is the one deleted, or at or after the message resent. */
  predicate TakesOut(s: State, kinds: map<Executor, Kind>, action: Action, i: nat) {
    && Accepted(s, kinds, action)
    && match action
       case Delete(index, _) => i == index
       case Regenerate(index, _, a, _) => index <= i && !a.saveFails
       case _ => false
  }

  /** Where an entry that is not taken out goes. */
  function Shifted(s: State, kinds: map<Executor, Kind>, action: Action, i: nat): nat {
    if action.Delete? && Accepted(s, kinds, action) && action.index < i then i - 1 else i
  }

  /** Where what is left at this place was before. */
  function Source(s: State, kinds: map<Executor, Kind>, action: Action, j: nat): nat {
    if action.Delete? && Accepted(s, kinds, action) && action.index <= j then j + 1 else j
  }

  /** What a request adds: the message its turn is shown last, as the user's, then the
      reply; of an opening turn the reply alone; each a message never seen before. */
  function Adds(s: State, kinds: map<Executor, Kind>, action: Action): seq<Entry> {
    if !Accepted(s, kinds, action) then [] else
    match action
    case Start(_, a) => if a.saveFails then [] else [Entry(s.next + 1, false)]
    case Post(_, a) => if a.saveFails then [] else [Entry(s.next, true), Entry(s.next + 1, false)]
    case Regenerate(_, _, a, _) => if a.saveFails then [] else [Entry(s.next, true), Entry(s.next + 1, false)]
    case _ => []
  }

  lemma ShownEndsWithNew(s: State, kinds: map<Executor, Kind>, action: Action)
    requires Accepted(s, kinds, action) && Shown(s, kinds, action).Some?
    ensures Shown(s, kinds, action).value != [] && Shown(s, kinds, action).value[|Shown(s, kinds, action).value| - 1] == s.next
  {
  }

  /** What is left of the transcript. */
  function Kept(s: State, kinds: map<Executor, Kind>, action: Action): seq<Entry> {
    if !Accepted(s, kinds, action) then s.transcript else
    match action
    case Delete(index, _) => s.transcript[..index] + s.transcript[index + 1..]
    case Regenerate(index, _, a, _) => if a.saveFails then s.transcript else s.transcript[..index]
    case _ => s.transcript
  }

  lemma TurnKeepsTranscript(s: State, e: Executor, kind: Kind, resume: Option<SessionId>, history: seq<Msg>, a: Answer)
    ensures var s' := RunTurn(s, e, kind, resume, history, a).s; s'.transcript == s.transcript && s'.next == s.next + 3
  {
  }

  /** One request: what is left, and then what is added. */
  lemma TranscriptMoves(s: State, kinds: map<Executor, Kind>, action: Action)
    ensures var s' := Next(s, kinds, action);
            && s'.transcript == Kept(s, kinds, action) + Adds(s, kinds, action)
            && s.next <= s'.next && (Adds(s, kinds, action) != [] ==> s'.next == s.next + 3)
  {
    if Accepted(s, kinds, action) {
      match action
      case Start(e, a) => TurnKeepsTranscript(s, e, kinds[e], Loaded(s, e, a), [], a);
      case Post(e, a) => TurnKeepsTranscript(s, e, kinds[e], Loaded(s, e, a), Messages(s.transcript), a);
      case Regenerate(index, e, a, uncleared) =>
        TurnKeepsTranscript(Forgotten(s, kinds.Keys, uncleared), e, kinds[e], None, Messages(s.transcript[..index]), a);
      case _ =>
    }
  }

  lemma KeptHas(s: State, kinds: map<Executor, Kind>, action: Action, i: nat)
    requires i < |s.transcript| && !TakesOut(s, kinds, action, i)
    ensures var kept, j := Kept(s, kinds, action), Shifted(s, kinds, action, i); j < |kept| && kept[j] == s.transcript[i]
  {
  }

  lemma KeptFrom(s: State, kinds: map<Executor, Kind>, action: Action, j: nat)
    requires j < |Kept(s, kinds, action)|
    ensures var i := Source(s, kinds, action, j);
            i < |s.transcript| && !TakesOut(s, kinds, action, i) && Kept(s, kinds, action)[j] == s.transcript[i]
  {
  }

  /** Where the entry at index i after n requests is after m, unless taken out by then. */
  function Where(kinds: map<Executor, Kind>, actions: seq<Action>, n: nat, i: nat, m: nat): Option<nat>
    requires n <= m <= |actions|
    decreases m
  {
    if n == m then Some(i) else
    match Where(kinds, actions, n, i, m - 1)
    case None => None
    case Some(j) =>
      var s := After(kinds, actions[..m - 1]);
      if TakesOut(s, kinds, actions[m - 1], j) then None else Some(Shifted(s, kinds, actions[m - 1], j))
  }

  lemma AfterStep(kinds: map<Executor, Kind>, actions: seq<Action>, n: nat)
    requires n < |actions|
    ensures After(kinds, actions[..n + 1]) == Next(After(kinds, actions[..n]), kinds, actions[n])
  {
    assert actions[..n + 1][..n] == actions[..n];
  }

  lemma OneStepOn(kinds: map<Executor, Kind>, actions: seq<Action>, m: nat, j: nat)
    requires m < |actions| && j < |After(kinds, actions[..m]).transcript|
    ensures var s, t' := After(kinds, actions[..m]), After(kinds, actions[..m + 1]).transcript;
            var k := Shifted(s, kinds, actions[m], j);
            !TakesOut(s, kinds, actions[m], j) ==> k < |t'| && t'[k] == s.transcript[j]
  {
    AfterStep(kinds, actions, m);
    TranscriptMoves(After(kinds, actions[..m]), kinds, actions[m]);
    if !TakesOut(After(kinds, actions[..m]), kinds, actions[m], j) {
      KeptHas(After(kinds, actions[..m]), kinds, actions[m], j);
    }
  }

  lemma {:induction false} InOrder(kinds: map<Executor, Kind>, actions: seq<Action>, n: nat, i: nat, j: nat, m: nat)
    requires n <= m <= |actions| && i < j
    requires Where(kinds, actions, n, i, m).Some? && Where(kinds, actions, n, j, m).Some?
    ensures Where(kinds, actions, n, i, m).value < Where(kinds, actions, n, j, m).value
    decreases m
  {
    if n < m {
      InOrder(kinds, actions, n, i, j, m - 1);
    }
  }

  /** Over any run, every entry of the transcript stays what it is and in its place
      among the others until a delete of its very index or a saved resend at or before
      it. */
  lemma {:induction false} EntriesStay(kinds: map<Executor, Kind>, actions: seq<Action>, n: nat, i: nat, m: nat)
    requires n <= m <= |actions| && i < |After(kinds, actions[..n]).transcript| && Where(kinds, actions, n, i, m).Some?
    ensures var place := Where(kinds, actions, n, i, m).value;
            var t' := After(kinds, actions[..m]).transcript;
            place < |t'| && t'[place] == After(kinds, actions[..n]).transcript[i]
    decreases m
  {
    if n < m {
      EntriesStay(kinds, actions, n, i, m - 1);
      OneStepOn(kinds, actions, m - 1, Where(kinds, actions, n, i, m - 1).value);
    }
  }

  /** A transcript repeats no message, and all its numbers have been given out. */
  ghost predicate Numbered(s: State) {
    && (forall i :: 0 <= i < |s.transcript| ==> s.transcript[i].msg < s.next)
    && (forall i, j :: 0 <= i < j < |s.transcript| ==> s.transcript[i].msg != s.transcript[j].msg)
  }

  /** What is there afterwards was there before or is new. */
  lemma ComesFrom(s: State, kinds: map<Executor, Kind>, action: Action, j: nat)
    requires Numbered(s) && j < |Next(s, kinds, action).transcript|
    ensures var t', n := Next(s, kinds, action).transcript, |Kept(s, kinds, action)|;
            && t'[j].msg < Next(s, kinds, action).next
            && if j < n then
                 Source(s, kinds, action, j) < |s.transcript| && t'[j] == s.transcript[Source(s, kinds, action, j)] && t'[j].msg < s.next
               else j - n < |Adds(s, kinds, action)| && t'[j] == Adds(s, kinds, action)[j - n] && s.next <= t'[j].msg
  {
    TranscriptMoves(s, kinds, action);
    if j < |Kept(s, kinds, action)| {
      KeptFrom(s, kinds, action, j);
    }
  }

  lemma NextNumbered(s: State, kinds: map<Executor, Kind>, action: Action)
    requires Numbered(s)
    ensures Numbered(Next(s, kinds, action))
  {
    var t' := Next(s, kinds, action).transcript;
    forall i | 0 <= i < |t'| ensures t'[i].msg < Next(s, kinds, action).next { ComesFrom(s, kinds, action, i); }
    forall i, j | 0 <= i < j < |t'| ensures t'[i].msg != t'[j].msg {
      ComesFrom(s, kinds, action, i);
      ComesFrom(s, kinds, action, j);
    }
  }

  lemma {:induction false} AlwaysNumbered(kinds: map<Executor, Kind>, actions: seq<Action>)
    ensures Numbered(After(kinds, actions))
  {
    if actions != [] {
      AlwaysNumbered(kinds, actions[..|actions| - 1]);
      NextNumbered(After(kinds, actions[..|actions| - 1]), kinds, actions[|actions| - 1]);
    }
  }

  predicate Says(s: State, m: Msg) {
    exists j :: 0 <= j < |s.transcript| && s.transcript[j].msg == m
  }

  lemma StaysOut(s: State, kinds: map<Executor, Kind>, action: Action, m: Msg)
    requires Numbered(s) && m < s.next
    requires forall i :: 0 <= i < |s.transcript| && s.transcript[i].msg == m ==> TakesOut(s, kinds, action, i)
    ensures !Says(Next(s, kinds, action), m) && m < Next(s, kinds, action).next
  {
    TranscriptMoves(s, kinds, action);
    var t' := Next(s, kinds, action).transcript;
    forall j | 0 <= j < |t'| ensures t'[j].msg != m {
      ComesFrom(s, kinds, action, j);
      if j < |Kept(s, kinds, action)| {
        KeptFrom(s, kinds, action, j);
      }
    }
  }

  lemma OneStepOut(kinds: map<Executor, Kind>, actions: seq<Action>, m: nat, msg: Msg)
    requires m < |actions| && msg < After(kinds, actions[..m]).next
    requires var s := After(kinds, actions[..m]);
             forall j :: 0 <= j < |s.transcript| && s.transcript[j].msg == msg ==> TakesOut(s, kinds, actions[m], j)
    ensures !Says(After(kinds, actions[..m + 1]), msg) && msg < After(kinds, actions[..m + 1]).next
  {
    AlwaysNumbered(kinds, actions[..m]);
    AfterStep(kinds, actions, m);
    StaysOut(After(kinds, actions[..m]), kinds, actions[m], msg);
  }

  /** What is taken out never comes back. */
  lemma {:induction false} TakenOutStaysOut(kinds: map<Executor, Kind>, actions: seq<Action>, n: nat, i: nat, m: nat, msg: Msg)
    requires n <= m <= |actions| && i < |After(kinds, actions[..n]).transcript| && After(kinds, actions[..n]).transcript[i].msg == msg
    ensures msg < After(kinds, actions[..m]).next
    ensures Where(kinds, actions, n, i, m).None? ==> !Says(After(kinds, actions[..m]), msg)
    decreases m
  {
    if n == m {
      AlwaysNumbered(kinds, actions[..n]);
    } else {
      TakenOutStaysOut(kinds, actions, n, i, m - 1, msg);
      NumbersGrow(kinds, actions, m - 1);
      if Where(kinds, actions, n, i, m).None? {
        if Where(kinds, actions, n, i, m - 1).Some? {
          OnlyPlace(kinds, actions, n, i, m - 1);
        }
        OneStepOut(kinds, actions, m - 1, msg);
      }
    }
  }

  lemma NumbersGrow(kinds: map<Executor, Kind>, actions: seq<Action>, m: nat)
    requires m < |actions|
    ensures After(kinds, actions[..m]).next <= After(kinds, actions[..m + 1]).next
  {
    AfterStep(kinds, actions, m);
    TranscriptMoves(After(kinds, actions[..m]), kinds, actions[m]);
  }

  lemma OnlyPlace(kinds: map<Executor, Kind>, actions: seq<Action>, n: nat, i: nat, m: nat)
    requires n <= m <= |actions| && i < |After(kinds, actions[..n]).transcript| && Where(kinds, actions, n, i, m).Some?
    ensures var t' := After(kinds, actions[..m]).transcript;
            forall j :: 0 <= j < |t'| && t'[j].msg == After(kinds, actions[..n]).transcript[i].msg ==>
              j == Where(kinds, actions, n, i, m).value
  {
    EntriesStay(kinds, actions, n, i, m);
    AlwaysNumbered(kinds, actions[..m]);
  }

  // ---- What a turn is shown, and how a conversation goes on ----

  /** The CLI sessions an executor can get at. */
  function Ids(s: State, e: Executor): set<SessionId> {
    (if e in s.live && s.live[e].Connected? then {s.live[e].id} else {}) + (if e in s.resume then {s.resume[e]} else {})
  }

  /** A live session is of its executor's kind and, like a resume id, one there is. */
  ghost predicate Wired(s: State, kinds: map<Executor, Kind>, e: Executor) {
    && (e in s.live ==> e in kinds && (s.live[e].Held? <==> kinds[e].Chat?) && !kinds[e].Codex?)
    && Ids(s, e) <= s.sessions.Keys
  }

  /** No two executors ever share a session. */
  ghost predicate Sane(s: State, kinds: map<Executor, Kind>) {
    && (forall id :: id in s.sessions ==> id < s.next)
    && (forall e :: Wired(s, kinds, e))
    && (forall e, f :: e != f ==> Ids(s, e) !! Ids(s, f))
  }

  /** An ordinary turn's exact context: the live session's own content if it has one,
      else that of the session its id resumes, else the transcript, or of a CLI the end
      of it that fits; and then the new message. */
  lemma PostContext(s: State, kinds: map<Executor, Kind>, e: Executor, a: Answer)
    requires Sane(s, kinds) && e in kinds
    ensures var shown, history, id := Shown(s, kinds, Post(e, a)), Messages(s.transcript), Loaded(s, e, a);
            if !a.resolves then shown.None?
            else if e in s.live then shown == Some(Content(s, s.live[e]) + [s.next])
            else if kinds[e].Chat? then shown == Some(history + [s.next])
            else if id.Some? && a.onResume.Works? then shown == Some(Stored(s, id.value) + [s.next])
            else if (id.Some? && a.onResume.Refused?) || !a.onFresh.Works? then shown.None?
            else shown == Some((if a.dropped <= |history| then history[a.dropped..] else []) + [s.next])
  {
    assert Wired(s, kinds, e);
  }

  function Reach(s: State, f: Executor): set<SessionId> {
    Ids(s, f) + {s.next + 2}
  }

  /** What a turn of one executor can have touched, and how it leaves that. */
  ghost predicate OnlyOwn(s: State, turn: Turn, f: Executor, kind: Kind) {
    && turn.s.resume == s.resume && turn.s.live - {f} == s.live - {f} && (f in s.live ==> f in turn.s.live)
    && (f in turn.s.live ==> (turn.s.live[f].Held? <==> kind.Chat?) && !kind.Codex?)
    && (f in turn.s.live && turn.s.live[f].Connected? ==> turn.s.live[f].id in Reach(s, f) * turn.s.sessions.Keys)
    && (turn.id.Some? ==> turn.id.value in Reach(s, f) * turn.s.sessions.Keys)
    && s.sessions.Keys <= turn.s.sessions.Keys <= s.sessions.Keys + {s.next + 2}
    && (forall id :: id in s.sessions && id !in Reach(s, f) ==> turn.s.sessions[id] == s.sessions[id])
  }

  lemma ChatOnlyOwn(s: State, kinds: map<Executor, Kind>, f: Executor, history: seq<Msg>, a: Answer)
    requires Wired(s, kinds, f) && f in kinds && kinds[f].Chat?
    ensures OnlyOwn(s, ChatTurn(s, f, history, s.next, s.next + 1, a), f, Chat)
  {
    var turn := ChatTurn(s, f, history, s.next, s.next + 1, a);
    assert turn.s.live - {f} == s.live - {f};
  }

  lemma SessionOnlyOwn(s: State, kinds: map<Executor, Kind>, f: Executor, kind: Kind, id: SessionId, content: seq<Msg>, a: Answer)
    requires Wired(s, kinds, f) && f in kinds && kinds[f] == kind && !kind.Chat? && id in Reach(s, f)
    ensures OnlyOwn(s, InSession(s, f, kind, id, content, s.next, s.next + 1, a), f, kind)
  {
    var turn := InSession(s, f, kind, id, content, s.next, s.next + 1, a);
    assert turn.s.live - {f} == s.live - {f};
  }

  lemma TurnOnlyOwn(s: State, kinds: map<Executor, Kind>, f: Executor, resume: Option<SessionId>, history: seq<Msg>, a: Answer)
    requires Wired(s, kinds, f) && f in kinds && (resume.Some? ==> resume.value in Ids(s, f))
    ensures OnlyOwn(s, RunTurn(s, f, kinds[f], resume, history, a), f, kinds[f])
  {
    var kind := kinds[f];
    if a.resolves && kind.Chat? {
      ChatOnlyOwn(s, kinds, f, history, a);
    } else if a.resolves {
      if kind.Claude? && f in s.live && s.live[f].Connected? && s.live[f].id in s.sessions {
        SessionOnlyOwn(s, kinds, f, kind, s.live[f].id, s.sessions[s.live[f].id], a);
      } else if resume.Some? && resume.value in s.sessions && a.onResume.Works? {
        SessionOnlyOwn(s, kinds, f, kind, resume.value, s.sessions[resume.value], a);
      } else {
        SessionOnlyOwn(s, kinds, f, kind, s.next + 2, Replayed(history, a.dropped), a);
      }
    }
  }

  function Recorded(s: State, kinds: map<Executor, Kind>, f: Executor, resume: Option<SessionId>, history: seq<Msg>, a: Answer): State
    requires f in kinds
  {
    var turn := RunTurn(s, f, kinds[f], resume, history, a);
    Persisted(turn.s, f, turn.id, a)
  }

  lemma OwnAfter(s: State, kinds: map<Executor, Kind>, f: Executor, resume: Option<SessionId>, history: seq<Msg>, a: Answer)
    requires Wired(s, kinds, f) && f in kinds && (resume.Some? ==> resume.value in Ids(s, f))
    ensures var s' := Recorded(s, kinds, f, resume, history, a);
            && Ids(s', f) <= Reach(s, f) && Wired(s', kinds, f)
            && s.sessions.Keys <= s'.sessions.Keys <= s.sessions.Keys + {s.next + 2} && s'.next == s.next + 3
  {
    TurnOnlyOwn(s, kinds, f, resume, history, a);
  }

  /** Nothing another executor could get at changes. */
  lemma OthersUntouched(s: State, kinds: map<Executor, Kind>, f: Executor, resume: Option<SessionId>, history: seq<Msg>, a: Answer,
                        e: Executor)
    requires Sane(s, kinds) && f in kinds && (resume.Some? ==> resume.value in Ids(s, f)) && e != f
    ensures var s' := Recorded(s, kinds, f, resume, history, a);
            && (e in s'.live <==> e in s.live)
            && (e in s.live ==> s'.live[e] == s.live[e] && Content(s', s.live[e]) == Content(s, s.live[e]))
            && (e in s'.resume <==> e in s.resume)
            && (e in s.resume ==> s'.resume[e] == s.resume[e] && Stored(s', s.resume[e]) == Stored(s, s.resume[e]))
            && Ids(s', e) == Ids(s, e) && Wired(s', kinds, e)
  {
    assert Wired(s, kinds, e) && Wired(s, kinds, f) && Ids(s, e) !! Ids(s, f);
    TurnOnlyOwn(s, kinds, f, resume, history, a);
    var turn := RunTurn(s, f, kinds[f], resume, history, a);
    assert e in turn.s.live - {f} <==> e in s.live - {f};
    assert e in s.live ==> turn.s.live[e] == (turn.s.live - {f})[e] == (s.live - {f})[e];
    forall id | id in Ids(s, e) ensures id in turn.s.sessions && turn.s.sessions[id] == s.sessions[id] {
      assert id !in Reach(s, f);
    }
  }

  lemma RecordedSane(s: State, kinds: map<Executor, Kind>, f: Executor, resume: Option<SessionId>, history: seq<Msg>, a: Answer)
    requires Sane(s, kinds) && f in kinds && (resume.Some? ==> resume.value in Ids(s, f))
    ensures Sane(Recorded(s, kinds, f, resume, history, a), kinds)
  {
    var s' := Recorded(s, kinds, f, resume, history, a);
    assert Wired(s, kinds, f);
    OwnAfter(s, kinds, f, resume, history, a);
    forall e ensures Wired(s', kinds, e) {
      if e != f {
        OthersUntouched(s, kinds, f, resume, history, a, e);
      }
    }
    forall e, g | e != g ensures Ids(s', e) !! Ids(s', g) {
      assert Wired(s, kinds, e) && Wired(s, kinds, g) && Ids(s, e) !! Ids(s, g);
      if e != f {
        OthersUntouched(s, kinds, f, resume, history, a, e);
      }
      if g != f {
        OthersUntouched(s, kinds, f, resume, history, a, g);
      }
    }
  }

  lemma DroppedSane(s: State, s': State, kinds: map<Executor, Kind>)
    requires Sane(s, kinds) && s'.sessions == s.sessions && s'.next == s.next
    requires forall e :: e in s'.live ==> e in s.live && s'.live[e] == s.live[e]
    requires forall e :: e in s'.resume ==> e in s.resume && s'.resume[e] == s.resume[e]
    ensures Sane(s', kinds)
  {
    forall e ensures Wired(s', kinds, e) && Ids(s', e) <= Ids(s, e) { assert Wired(s, kinds, e); }
    forall e, f | e != f ensures Ids(s', e) !! Ids(s', f) { assert Ids(s, e) !! Ids(s, f); }
  }

  lemma NextSane(s: State, kinds: map<Executor, Kind>, action: Action)
    requires Sane(s, kinds)
    ensures Sane(Next(s, kinds, action), kinds)
  {
    var s' := Next(s, kinds, action);
    if Accepted(s, kinds, action) {
      match action
      case Start(e, a) =>
        RecordedSane(s, kinds, e, Loaded(s, e, a), [], a);
        DroppedSane(Recorded(s, kinds, e, Loaded(s, e, a), [], a), s', kinds);
      case Post(e, a) =>
        RecordedSane(s, kinds, e, Loaded(s, e, a), Messages(s.transcript), a);
        DroppedSane(Recorded(s, kinds, e, Loaded(s, e, a), Messages(s.transcript), a), s', kinds);
      case Regenerate(index, e, a, uncleared) =>
        var s1 := Forgotten(s, kinds.Keys, uncleared);
        DroppedSane(s, s1, kinds);
        RecordedSane(s1, kinds, e, None, Messages(s.transcript[..index]), a);
        DroppedSane(Recorded(s1, kinds, e, None, Messages(s.transcript[..index]), a), s', kinds);
      case _ => DroppedSane(s, s', kinds);
    }
  }

  lemma {:induction false} AlwaysSane(kinds: map<Executor, Kind>, actions: seq<Action>)
    ensures Sane(After(kinds, actions), kinds)
  {
    if actions != [] {
      AlwaysSane(kinds, actions[..|actions| - 1]);
      NextSane(After(kinds, actions[..|actions| - 1]), kinds, actions[|actions| - 1]);
    }
  }

  /** What a completed turn leaves for the next one to find: everything it was shown,
      and its reply. */
  lemma TurnLeaves(s: State, kinds: map<Executor, Kind>, e: Executor, resume: Option<SessionId>, history: seq<Msg>, a: Answer)
    requires Wired(s, kinds, e) && e in kinds && (resume.Some? ==> resume.value in Ids(s, e)) && a.completes
    requires RunTurn(s, e, kinds[e], resume, history, a).context.Some?
    ensures var s' := Recorded(s, kinds, e, resume, history, a);
            var content := RunTurn(s, e, kinds[e], resume, history, a).context.value + [s.next + 1];
            && (e in s'.live <==> !kinds[e].Codex?) && (e in s'.live ==> Content(s', s'.live[e]) == content)
            && (!kinds[e].Chat? && !a.persistFails ==> e in s'.resume && Stored(s', s'.resume[e]) == content)
  {
    var shown := RunTurn(s, e, kinds[e], resume, history, a).context.value;
    var earlier := shown[..|shown| - 1];
    assert shown == earlier + [s.next] && shown + [s.next + 1] == earlier + [s.next, s.next + 1];
  }

  /** What a turn that did not complete leaves: a chat session, if there was one or history
      to seed it, without the message; a CLI session with it, still live under Claude. The
      id of such a Claude turn is dropped, that of a Codex thread kept, unless the store
      fails. */
  lemma UnfinishedTurnLeaves(s: State, kinds: map<Executor, Kind>, e: Executor, resume: Option<SessionId>, history: seq<Msg>, a: Answer)
    requires Wired(s, kinds, e) && e in kinds && (resume.Some? ==> resume.value in Ids(s, e)) && !a.completes
    requires RunTurn(s, e, kinds[e], resume, history, a).context.Some?
    ensures var s', shown := Recorded(s, kinds, e, resume, history, a), RunTurn(s, e, kinds[e], resume, history, a).context.value;
            && (e in s'.live <==> kinds[e].Claude? || (kinds[e].Chat? && (e in s.live || history != [])))
            && (e in s'.live ==> Content(s', s'.live[e]) == if kinds[e].Chat? then shown[..|shown| - 1] else shown)
            && (a.persistFails ==> s'.resume == s.resume)
            && (!a.persistFails ==> (e in s'.resume <==> kinds[e].Codex?) && (e in s'.resume ==> Stored(s', s'.resume[e]) == shown))
  {
    var shown := RunTurn(s, e, kinds[e], resume, history, a).context.value;
    assert shown == shown[..|shown| - 1] + [s.next];
  }

  /** And one that never reached the model: everything as it was, but for the id it had. */
  lemma UnreachedTurnLeaves(s: State, kinds: map<Executor, Kind>, e: Executor, resume: Option<SessionId>, history: seq<Msg>, a: Answer)
    requires Wired(s, kinds, e) && e in kinds && (resume.Some? ==> resume.value in Ids(s, e))
    requires RunTurn(s, e, kinds[e], resume, history, a).context.None?
    ensures var s' := Recorded(s, kinds, e, resume, history, a);
            s' == s.(next := s'.next, resume := if a.resolves && !a.persistFails then s.resume - {e} else s.resume)
  {
  }

  lemma OnlyConfiguredLive(s: State, kinds: map<Executor, Kind>)
    requires Sane(s, kinds)
    ensures s.live - kinds.Keys == map[]
  {
    forall f | f in s.live ensures f in kinds { assert Wired(s, kinds, f); }
  }

  lemma CloseEndsAll(s: State, kinds: map<Executor, Kind>)
    requires Sane(s, kinds)
    ensures Next(s, kinds, Close) == s.(live := map[])
  {
    OnlyConfiguredLive(s, kinds);
  }

  /** Closing ends every live session and forgets nothing else. */
  lemma ClosingEndsAll(kinds: map<Executor, Kind>, before: seq<Action>)
    ensures After(kinds, before + [Close]) == After(kinds, before).(live := map[])
  {
    AfterOne(kinds, before, Close);
    AlwaysSane(kinds, before);
    CloseEndsAll(After(kinds, before), kinds);
  }

  /** Between two turns: what e's live session and resume id lead to. */
  ghost predicate Ready(s: State, e: Executor, content: seq<Msg>, live: bool, resumable: bool) {
    && (live ==> e in s.live) && (e in s.live ==> Content(s, s.live[e]) == content)
    && (resumable ==> e in s.resume && Stored(s, s.resume[e]) == content)
  }

  /** A turn of this executor, or a request that takes messages back. */
  predicate Disturbs(s: State, kinds: map<Executor, Kind>, action: Action, e: Executor) {
    Accepted(s, kinds, action) && (action.Delete? || action.Regenerate? || ((action.Start? || action.Post?) && action.e == e))
  }

  predicate Drops(kinds: map<Executor, Kind>, action: Action, e: Executor) {
    (action.Close? && e in kinds) || (action.Evict? && action.e == e)
  }

  lemma StaysReady(s: State, kinds: map<Executor, Kind>, action: Action, e: Executor, content: seq<Msg>, live: bool, resumable: bool)
    requires Sane(s, kinds) && Ready(s, e, content, live, resumable) && !Disturbs(s, kinds, action, e)
    ensures Ready(Next(s, kinds, action), e, content, live && !Drops(kinds, action, e), resumable)
  {
    if Accepted(s, kinds, action) {
      match action
      case Start(f, a) => OthersUntouched(s, kinds, f, Loaded(s, f, a), [], a, e);
      case Post(f, a) => OthersUntouched(s, kinds, f, Loaded(s, f, a), Messages(s.transcript), a, e);
      case _ =>
    }
  }

  /** Nothing in the gap touches what e will find, and whether its live session survives. */
  predicate Undisturbed(kinds: map<Executor, Kind>, before: seq<Action>, gap: seq<Action>, e: Executor) {
    forall k :: 0 <= k < |gap| ==> !Disturbs(After(kinds, before + gap[..k]), kinds, gap[k], e)
  }

  predicate Undropped(kinds: map<Executor, Kind>, gap: seq<Action>, e: Executor) {
    forall k :: 0 <= k < |gap| ==> !Drops(kinds, gap[k], e)
  }

  lemma AfterOne(kinds: map<Executor, Kind>, before: seq<Action>, action: Action)
    ensures After(kinds, before + [action]) == Next(After(kinds, before), kinds, action)
  {
    assert (before + [action])[..|before|] == before;
  }

  lemma GapPrefix(kinds: map<Executor, Kind>, before: seq<Action>, rest: seq<Action>, last: Action, e: Executor)
    requires Undisturbed(kinds, before, rest + [last], e)
    ensures Undisturbed(kinds, before, rest, e) && !Disturbs(After(kinds, before + rest), kinds, last, e)
    ensures Undropped(kinds, rest + [last], e) ==> Undropped(kinds, rest, e) && !Drops(kinds, last, e)
  {
    var gap := rest + [last];
    forall k | 0 <= k < |rest| ensures !Disturbs(After(kinds, before + rest[..k]), kinds, rest[k], e) {
      assert gap[..k] == rest[..k] && gap[k] == rest[k];
    }
    assert gap[..|rest|] == rest && gap[|rest|] == last;
    assert forall k :: 0 <= k < |rest| ==> gap[k] == rest[k];
  }

  lemma StaysReadyOn(kinds: map<Executor, Kind>, before: seq<Action>, last: Action, e: Executor, content: seq<Msg>, live: bool,
                     resumable: bool)
    requires Ready(After(kinds, before), e, content, live, resumable) && !Disturbs(After(kinds, before), kinds, last, e)
    ensures Ready(After(kinds, before + [last]), e, content, live && !Drops(kinds, last, e), resumable)
  {
    AfterOne(kinds, before, last);
    AlwaysSane(kinds, before);
    StaysReady(After(kinds, before), kinds, last, e, content, live, resumable);
  }

  lemma {:induction false} ReadyOverGap(kinds: map<Executor, Kind>, before: seq<Action>, gap: seq<Action>, e: Executor, content: seq<Msg>,
                                        live: bool, resumable: bool)
    requires Ready(After(kinds, before), e, content, live, resumable) && Undisturbed(kinds, before, gap, e)
    ensures Ready(After(kinds, before + gap), e, content, live && Undropped(kinds, gap, e), resumable)
  {
    if gap == [] {
      assert before + gap == before;
    } else {
      var rest, last := gap[..|gap| - 1], gap[|gap| - 1];
      assert gap == rest + [last] && before + gap == before + rest + [last];
      GapPrefix(kinds, before, rest, last, e);
      ReadyOverGap(kinds, before, rest, e, content, live, resumable);
      StaysReadyOn(kinds, before + rest, last, e, content, live && Undropped(kinds, rest, e), resumable);
    }
  }

  lemma ReadyAnyTranscript(s: State, e: Executor, content: seq<Msg>, live: bool, resumable: bool, transcript: seq<Entry>)
    requires Ready(s, e, content, live, resumable)
    ensures Ready(s.(transcript := transcript), e, content, live, resumable)
  {
  }

  /** The turn this request ran is what the next one starts from. */
  ghost predicate Leaves(s: State, kinds: map<Executor, Kind>, first: Action, s': State)
    requires (first.Start? || first.Post?) && Accepted(s, kinds, first)
  {
    Shown(s, kinds, first).Some? &&
    Ready(s', first.e, Shown(s, kinds, first).value + [s.next + 1], !kinds[first.e].Codex?, !kinds[first.e].Chat? && !first.a.persistFails)
  }

  lemma PostLeaves(s: State, kinds: map<Executor, Kind>, e: Executor, a: Answer)
    requires Sane(s, kinds) && e in kinds && a.completes && Shown(s, kinds, Post(e, a)).Some?
    ensures Leaves(s, kinds, Post(e, a), Next(s, kinds, Post(e, a)))
  {
    var history, resume := Messages(s.transcript), Loaded(s, e, a);
    assert Wired(s, kinds, e);
    TurnLeaves(s, kinds, e, resume, history, a);
    var s1 := Recorded(s, kinds, e, resume, history, a);
    var content := Shown(s, kinds, Post(e, a)).value + [s.next + 1];
    ReadyAnyTranscript(s1, e, content, !kinds[e].Codex?, !kinds[e].Chat? && !a.persistFails, Next(s, kinds, Post(e, a)).transcript);
    TurnKeepsTranscript(s, e, kinds[e], resume, history, a);
  }

  lemma StartLeaves(s: State, kinds: map<Executor, Kind>, e: Executor, a: Answer)
    requires Sane(s, kinds) && e in kinds && s.transcript == [] && a.completes && Shown(s, kinds, Start(e, a)).Some?
    ensures Leaves(s, kinds, Start(e, a), Next(s, kinds, Start(e, a)))
  {
    var resume := Loaded(s, e, a);
    assert Wired(s, kinds, e);
    TurnLeaves(s, kinds, e, resume, [], a);
    var s1 := Recorded(s, kinds, e, resume, [], a);
    var content := Shown(s, kinds, Start(e, a)).value + [s.next + 1];
    ReadyAnyTranscript(s1, e, content, !kinds[e].Codex?, !kinds[e].Chat? && !a.persistFails, Next(s, kinds, Start(e, a)).transcript);
    TurnKeepsTranscript(s, e, kinds[e], resume, [], a);
  }

  lemma FirstLeaves(kinds: map<Executor, Kind>, before: seq<Action>, first: Action)
    requires (first.Start? || first.Post?) && Accepted(After(kinds, before), kinds, first) && first.a.completes
    requires Shown(After(kinds, before), kinds, first).Some?
    ensures Leaves(After(kinds, before), kinds, first, After(kinds, before + [first]))
  {
    AlwaysSane(kinds, before);
    AfterOne(kinds, before, first);
    match first
    case Start(e, a) => StartLeaves(After(kinds, before), kinds, e, a);
    case Post(e, a) => PostLeaves(After(kinds, before), kinds, e, a);
  }

  lemma ReadyIsShown(s: State, kinds: map<Executor, Kind>, e: Executor, content: seq<Msg>, live: bool, resumable: bool, a: Answer)
    requires Sane(s, kinds) && e in kinds && Ready(s, e, content, live, resumable) && a.resolves
    requires live || (resumable && !kinds[e].Chat? && !a.loadFails && a.onResume.Works?)
    ensures Shown(s, kinds, Post(e, a)) == Some(content + [s.next])
  {
    PostContext(s, kinds, e, a);
  }

  lemma ReadyRunIsShown(kinds: map<Executor, Kind>, run: seq<Action>, e: Executor, content: seq<Msg>, live: bool, resumable: bool,
                        a: Answer)
    requires e in kinds && Ready(After(kinds, run), e, content, live, resumable) && a.resolves
    requires live || (resumable && !kinds[e].Chat? && !a.loadFails && a.onResume.Works?)
    ensures Shown(After(kinds, run), kinds, Post(e, a)) == Some(content + [After(kinds, run).next])
  {
    AlwaysSane(kinds, run);
    ReadyIsShown(After(kinds, run), kinds, e, content, live, resumable, a);
  }

  /** The new turn is shown what was said before, and the new message. */
  predicate GoesOn(s: State, kinds: map<Executor, Kind>, e: Executor, a: Answer, said: seq<Msg>) {
    e in kinds && Shown(s, kinds, Post(e, a)) == Some(said + [s.next])
  }

  lemma ReadyGoesOn(kinds: map<Executor, Kind>, mid: seq<Action>, gap: seq<Action>, e: Executor, a: Answer, said: seq<Msg>, live: bool,
                    resumable: bool)
    requires e in kinds && Ready(After(kinds, mid), e, said, live, resumable) && Undisturbed(kinds, mid, gap, e) && a.resolves
    requires (live && Undropped(kinds, gap, e)) || (resumable && !kinds[e].Chat? && !a.loadFails && a.onResume.Works?)
    ensures GoesOn(After(kinds, mid + gap), kinds, e, a, said)
  {
    ReadyOverGap(kinds, mid, gap, e, said, live, resumable);
    ReadyRunIsShown(kinds, mid + gap, e, said, live && Undropped(kinds, gap, e), resumable, a);
  }

  /** The request ran a turn to its end, after which this much had been said in all. */
  predicate Completes(s: State, kinds: map<Executor, Kind>, first: Action, said: seq<Msg>) {
    && (first.Start? || first.Post?) && Accepted(s, kinds, first) && first.a.completes
    && Shown(s, kinds, first).Some? && said == Shown(s, kinds, first).value + [s.next + 1]
  }

  lemma CompletedIsReady(kinds: map<Executor, Kind>, before: seq<Action>, first: Action, said: seq<Msg>)
    requires Completes(After(kinds, before), kinds, first, said)
    ensures first.e in kinds
    ensures Ready(After(kinds, before + [first]), first.e, said, !kinds[first.e].Codex?, !kinds[first.e].Chat? && !first.a.persistFails)
  {
    FirstLeaves(kinds, before, first);
  }

  /** A conversation goes on where it stopped. Whatever other executors do in between,
      and whatever was lost of live sessions, the next turn of an executor is shown
      exactly what was said, its last completed turn's context and reply, and the new
      message: through the live session while that survives, and otherwise, for a CLI,
      through the resume id if it was stored, loaded and taken. */
  lemma ConversationGoesOn(kinds: map<Executor, Kind>, before: seq<Action>, first: Action, gap: seq<Action>, a: Answer, said: seq<Msg>)
    requires Completes(After(kinds, before), kinds, first, said) && Undisturbed(kinds, before + [first], gap, first.e) && a.resolves
    requires || (Undropped(kinds, gap, first.e) && !kinds[first.e].Codex?)
             || (!kinds[first.e].Chat? && !first.a.persistFails && !a.loadFails && a.onResume.Works?)
    ensures GoesOn(After(kinds, before + [first] + gap), kinds, first.e, a, said)
  {
    CompletedIsReady(kinds, before, first, said);
    ReadyGoesOn(kinds, before + [first], gap, first.e, a, said, !kinds[first.e].Codex?, !kinds[first.e].Chat? && !first.a.persistFails);
  }

  /** What a saved post leaves: at the transcript's end the message its turn was shown
      last, as the user's, and then its reply, both new; and in a live session
      everything it was shown and said. */
  ghost predicate KeepsPost(s: State, kinds: map<Executor, Kind>, e: Executor, a: Answer, s': State)
    requires e in kinds
  {
    var shown := Shown(s, kinds, Post(e, a));
    && s'.transcript == s.transcript + [Entry(s.next, true), Entry(s.next + 1, false)]
    && !Says(s, s.next) && !Says(s, s.next + 1)
    && (shown.Some? ==> shown.value != [] && shown.value[|shown.value| - 1] == s.next)
    && (shown.Some? && a.completes && !kinds[e].Codex? ==> e in s'.live && Content(s', s'.live[e]) == shown.value + [s.next + 1])
  }

  lemma PostIsKept(s: State, kinds: map<Executor, Kind>, e: Executor, a: Answer)
    requires e in kinds && !a.saveFails && Sane(s, kinds) && Numbered(s)
    ensures KeepsPost(s, kinds, e, a, Next(s, kinds, Post(e, a)))
  {
    TranscriptMoves(s, kinds, Post(e, a));
    if Shown(s, kinds, Post(e, a)).Some? {
      ShownEndsWithNew(s, kinds, Post(e, a));
      if a.completes {
        PostLeaves(s, kinds, e, a);
      }
    }
  }

  lemma SavedPostIsKept(kinds: map<Executor, Kind>, before: seq<Action>, e: Executor, a: Answer)
    requires e in kinds && !a.saveFails
    ensures KeepsPost(After(kinds, before), kinds, e, a, After(kinds, before + [Post(e, a)]))
  {
    AfterOne(kinds, before, Post(e, a));
    AlwaysNumbered(kinds, before);
    AlwaysSane(kinds, before);
    PostIsKept(After(kinds, before), kinds, e, a);
  }

  // ---- The handlers as the source runs them ----

  class StageConversation {
    const kinds: map<Executor, Kind>
    var transcript: seq<Entry>
    var live: map<Executor, Live>
    var resume: map<Executor, SessionId>
    var sessions: map<SessionId, seq<Msg>>
    ghost var discarded: set<Msg>
    var next: nat

    ghost function Abs(): State
      reads this
    {
      State(transcript, live, resume, sessions, discarded, next)
    }

    constructor (kinds: map<Executor, Kind>)
      ensures Abs() == INITIAL && this.kinds == kinds
    {
      this.kinds := kinds;
      transcript, live, resume, sessions, discarded, next := [], map[], map[], map[], {}, 0;
    }

    method CloseSessions()
      modifies this`live
      ensures live == old(live) - kinds.Keys
    {
      var rest := kinds.Keys;
      while rest != {}
        invariant rest <= kinds.Keys && live == old(live) - (kinds.Keys - rest)
        decreases |rest|
      {
        var e :| e in rest;
        live := live - {e};
        rest := rest - {e};
      }
    }

    /** A clear that fails is logged and passed over. */
    method ClearSessionIDs(uncleared: set<Executor>)
      modifies this`resume
      ensures resume == old(resume) - (kinds.Keys - uncleared)
    {
      var rest := kinds.Keys;
      while rest != {}
        invariant rest <= kinds.Keys && resume == old(resume) - (kinds.Keys - rest - uncleared)
        decreases |rest|
      {
        var e :| e in rest;
        if e !in uncleared {
          resume := resume - {e};
        }
        rest := rest - {e};
      }
    }

    method RunChat(e: Executor, history: seq<Msg>, user: Msg, reply: Msg, a: Answer)
      modifies this`live
      ensures Abs() == ChatTurn(old(Abs()), e, history, user, reply, a).s
    {
      var base := history;
      if e in live && live[e].Held? {
        base := live[e].msgs;
      } else if history != [] {
        live := live[e := Held(base)];
      }
      if a.completes {
        live := live[e := Held(base + [user, reply])];
      }
    }

    method Converse(e: Executor, kind: Kind, own: SessionId, content: seq<Msg>, user: Msg, reply: Msg, a: Answer)
      returns (id: Option<SessionId>)
      modifies this`live, this`sessions
      ensures var turn := InSession(old(Abs()), e, kind, own, content, user, reply, a); Abs() == turn.s && id == turn.id
    {
      if kind.Claude? {
        live := live[e := Connected(own)];
      }
      sessions := sessions[own := content + if a.completes then [user, reply] else [user]];
      id := if a.completes || kind.Codex? then Some(own) else None;
    }

    method RunCli(e: Executor, kind: Kind, from: Option<SessionId>, history: seq<Msg>, user: Msg, reply: Msg, a: Answer)
      returns (id: Option<SessionId>)
      modifies this`live, this`sessions
      ensures var turn := CliTurn(old(Abs()), e, kind, from, history, user, reply, a); Abs() == turn.s && id == turn.id
    {
      if kind.Claude? && e in live && live[e].Connected? && live[e].id in sessions {
        id := Converse(e, kind, live[e].id, sessions[live[e].id], user, reply, a);
      } else if from.Some? && from.value in sessions && a.onResume.Works? {
        id := Converse(e, kind, from.value, sessions[from.value], user, reply, a);
      } else if (from.Some? && a.onResume.Refused?) || !a.onFresh.Works? {
        id := None;
      } else {
        id := Converse(e, kind, next + 2, Replayed(history, a.dropped), user, reply, a);
      }
    }

    method RunStageTurn(e: Executor, from: Option<SessionId>, history: seq<Msg>, a: Answer) returns (id: Option<SessionId>)
      requires e in kinds
      modifies this`live, this`sessions, this`next
      ensures var turn := RunTurn(old(Abs()), e, kinds[e], from, history, a); Abs() == turn.s && id == turn.id
    {
      id := None;
      if a.resolves {
        if kinds[e].Chat? {
          RunChat(e, history, next, next + 1, a);
        } else {
          id := RunCli(e, kinds[e], from, history, next, next + 1, a);
        }
      }
      next := next + 3;
    }

    method PersistSessionID(e: Executor, id: Option<SessionId>, a: Answer)
      modifies this`resume
      ensures Abs() == Persisted(old(Abs()), e, id, a)
    {
      if a.resolves && !a.persistFails {
        resume := if id.Some? then resume[e := id.value] else resume - {e};
      }
    }

    method PostMessage(e: Executor, a: Answer)
      requires e in kinds
      modifies this
      ensures Abs() == Next(old(Abs()), kinds, Action.Post(e, a))
    {
      var user, reply := next, next + 1;
      var from := if e in resume && !a.loadFails then Some(resume[e]) else None;
      var id := RunStageTurn(e, from, Messages(transcript), a);
      PersistSessionID(e, id, a);
      if !a.saveFails {
        transcript := transcript + [Entry(user, true), Entry(reply, false)];
      }
    }

    /** Begins a conversation nobody has written to; its opening message is never kept. */
    method StartConversation(e: Executor, a: Answer) returns (ok: bool)
      requires e in kinds
      modifies this
      ensures ok <==> old(transcript) == []
      ensures Abs() == Next(old(Abs()), kinds, Action.Start(e, a))
    {
      ok := |transcript| == 0;
      if ok {
        var reply := next + 1;
        var from := if e in resume && !a.loadFails then Some(resume[e]) else None;
        var id := RunStageTurn(e, from, [], a);
        PersistSessionID(e, id, a);
        if !a.saveFails {
          transcript := [Entry(reply, false)];
        }
      }
    }

    method DeleteMessage(index: nat, uncleared: set<Executor>) returns (ok: bool)
      modifies this
      ensures ok <==> index < |old(transcript)|
      ensures Abs() == Next(old(Abs()), kinds, Action.Delete(index, uncleared))
    {
      ok := index < |transcript|;
      if ok {
        discarded := discarded + {transcript[index].msg};
        transcript := transcript[..index] + transcript[index + 1..];
        CloseSessions();
        ClearSessionIDs(uncleared);
      }
    }

    method RegenerateMessage(index: nat, e: Executor, a: Answer, uncleared: set<Executor>) returns (ok: bool)
      requires e in kinds
      modifies this
      ensures ok <==> index < |old(transcript)| && old(transcript[index].fromUser)
      ensures Abs() == Next(old(Abs()), kinds, Action.Regenerate(index, e, a, uncleared))
    {
      ok := index < |transcript| && transcript[index].fromUser;
      if ok {
        var user, reply := next, next + 1;
        var prefix := transcript[..index];
        CloseSessions();
        ClearSessionIDs(uncleared);
        var id := RunStageTurn(e, None, Messages(prefix), a);
        PersistSessionID(e, id, a);
        if !a.saveFails {
          discarded := discarded + set m | m in Messages(transcript[index..]);
          transcript := prefix + [Entry(user, true), Entry(reply, false)];
        }
      }
    }
  }
}
