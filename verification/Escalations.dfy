/**
 Permission escalations (internal/api/stage_permission.go): a turn blocks on the
 human, a separate request delivers the answer. One action is one critical
 section, one channel operation or one arrival.
 */
module Escalations {
  import opened Options

  type Id = string
  type Session = string
  type Thread = nat

  /** Every registered id's owner while unanswered, and its one-place channel for ever. */
  datatype Registry = Registry(pending: map<Id, Session>, channels: map<Id, Option<bool>>)

  function Registered(r: Registry, id: Id, session: Session): Registry {
    Registry(r.pending[id := session], r.channels[id := None])
  }

  predicate Claims(r: Registry, session: Session, id: Id) {
    id in r.pending && r.pending[id] == session
  }

  function Forgotten(r: Registry, id: Id): Registry {
    r.(pending := r.pending - {id})
  }

  function Sent(r: Registry, id: Id, allow: bool): Registry {
    r.(channels := r.channels[id := Some(allow)])
  }

  function Drained(r: Registry, id: Id): Registry {
    r.(channels := r.channels[id := None])
  }

  class EscalationRegistry {
    var pending: map<Id, Session>
    var channels: map<Id, Option<bool>>

    ghost function Abs(): Registry
      reads this
    {
      Registry(pending, channels)
    }

    constructor ()
      ensures Abs() == Registry(map[], map[])
    {
      pending, channels := map[], map[];
    }

    method Register(session: Session, id: Id)
      modifies this
      ensures Abs() == Registered(old(Abs()), id, session)
    {
      channels := channels[id := None];
      pending := pending[id := session];
    }

    method Cleanup(id: Id)
      modifies this`pending
      ensures Abs() == Forgotten(old(Abs()), id)
    {
      pending := pending - {id};
    }

    /** The locked half of resolve: a foreign or unknown id changes nothing. */
    method Claim(session: Session, id: Id) returns (ok: bool)
      modifies this`pending
      ensures ok <==> Claims(old(Abs()), session, id)
      ensures Abs() == if ok then Forgotten(old(Abs()), id) else old(Abs())
    {
      ok := id in pending && pending[id] == session;
      if ok {
        pending := pending - {id};
      }
    }

    method Send(id: Id, allow: bool)
      requires id in channels && channels[id].None?
      modifies this`channels
      ensures Abs() == Sent(old(Abs()), id, allow)
    {
      channels := channels[id := Some(allow)];
    }

    method Receive(id: Id) returns (allow: bool)
      requires id in channels && channels[id].Some?
      modifies this`channels
      ensures Abs() == Drained(old(Abs()), id) && old(channels)[id] == Some(allow)
    {
      allow := channels[id].value;
      channels := channels[id := None];
    }
  }

  // ---- The protocol over all interleavings ----

  datatype WaiterPc =
    | Registering
    | Waiting(id: Id)
    | Leaving(id: Id, decision: Option<bool>)   // received, or None once cancelled; cleanup still to run
    | Returned(id: Id, decision: Option<bool>)
  datatype ResolverPc = Locking | Sending | Replied(ok: bool)

  datatype Waiter = Waiter(session: Session, pc: WaiterPc)
  datatype Resolver = Resolver(session: Session, id: Id, allow: bool, pc: ResolverPc)

  /** `owner` and `taker` record which waiter registered an id and which resolver took it. */
  datatype State = State(
    reg: Registry, waiters: map<Thread, Waiter>, resolvers: map<Thread, Resolver>,
    owner: map<Id, Thread>, taker: map<Id, Thread>)

  const INITIAL := State(Registry(map[], map[]), map[], map[], map[], map[])

  datatype Action =
    | Ask(t: Thread, session: Session)
    | Answer(t: Thread, session: Session, id: Id, allow: bool)
    | Register(t: Thread, id: Id)
    | Receive(t: Thread)
    | Cancel(t: Thread)
    | Cleanup(t: Thread)
    | Claim(t: Thread)
    | Send(t: Thread)

  /** Ids are fresh: a registration takes one never used before. */
  predicate Enabled(s: State, a: Action) {
    match a
    case Ask(t, _) => t !in s.waiters
    case Answer(t, _, _, _) => t !in s.resolvers
    case Register(t, id) => t in s.waiters && s.waiters[t].pc.Registering? && id !in s.reg.channels
    case Receive(t) =>
      && t in s.waiters && s.waiters[t].pc.Waiting?
      && s.waiters[t].pc.id in s.reg.channels && s.reg.channels[s.waiters[t].pc.id].Some?
    case Cancel(t) => t in s.waiters && s.waiters[t].pc.Waiting?
    case Cleanup(t) => t in s.waiters && s.waiters[t].pc.Leaving?
    case Claim(t) => t in s.resolvers && s.resolvers[t].pc.Locking?
    case Send(t) =>
      && t in s.resolvers && s.resolvers[t].pc.Sending?
      && s.resolvers[t].id in s.reg.channels && s.reg.channels[s.resolvers[t].id].None?
  }

  function SetWaiter(s: State, t: Thread, pc: WaiterPc): State
    requires t in s.waiters
  {
    s.(waiters := s.waiters[t := s.waiters[t].(pc := pc)])
  }

  function SetResolver(s: State, t: Thread, pc: ResolverPc): State
    requires t in s.resolvers
  {
    s.(resolvers := s.resolvers[t := s.resolvers[t].(pc := pc)])
  }

  function Next(s: State, a: Action): State {
    if !Enabled(s, a) then s else
    match a
    case Ask(t, session) => s.(waiters := s.waiters[t := Waiter(session, Registering)])
    case Answer(t, session, id, allow) => s.(resolvers := s.resolvers[t := Resolver(session, id, allow, Locking)])
    case Register(t, id) => SetWaiter(s.(reg := Registered(s.reg, id, s.waiters[t].session), owner := s.owner[id := t]), t, Waiting(id))
    case Receive(t) =>
      var id := s.waiters[t].pc.id;
      SetWaiter(s.(reg := Drained(s.reg, id)), t, Leaving(id, s.reg.channels[id]))
    case Cancel(t) => SetWaiter(s, t, Leaving(s.waiters[t].pc.id, None))
    case Cleanup(t) =>
      var pc := s.waiters[t].pc;
      SetWaiter(s.(reg := Forgotten(s.reg, pc.id)), t, Returned(pc.id, pc.decision))
    case Claim(t) =>
      var r := s.resolvers[t];
      if Claims(s.reg, r.session, r.id) then SetResolver(s.(reg := Forgotten(s.reg, r.id), taker := s.taker[r.id := t]), t, Sending)
      else SetResolver(s, t, Replied(false))
    case Send(t) =>
      var r := s.resolvers[t];
      SetResolver(s.(reg := Sent(s.reg, r.id, r.allow)), t, Replied(true))
  }

  function After(actions: seq<Action>): State {
    if actions == [] then INITIAL else Next(After(actions[..|actions| - 1]), actions[|actions| - 1])
  }

  predicate Owns(w: Waiter, id: Id) {
    !w.pc.Registering? && w.pc.id == id
  }

  /** Took the id out of the registry: will send, or has sent. */
  predicate Took(r: Resolver, id: Id) {
    r.id == id && (r.pc.Sending? || r.pc == Replied(true))
  }

  function Decision(w: Waiter): Option<bool> {
    if w.pc.Leaving? || w.pc.Returned? then w.pc.decision else None
  }

  /** Every id in use has its one waiter, every taken id its one resolver. */
  ghost predicate Linked(s: State) {
    && s.owner.Keys == s.reg.channels.Keys && s.taker.Keys <= s.owner.Keys && s.reg.pending.Keys <= s.owner.Keys
    && WaitersLinked(s.waiters, s.owner) && ResolversLinked(s.resolvers, s.taker)
  }

  ghost predicate WaitersLinked(waiters: map<Thread, Waiter>, owner: map<Id, Thread>) {
    && (forall t :: t in waiters && !waiters[t].pc.Registering? ==> waiters[t].pc.id in owner && owner[waiters[t].pc.id] == t)
    && (forall id :: id in owner ==> owner[id] in waiters && Owns(waiters[owner[id]], id))
  }

  ghost predicate ResolversLinked(resolvers: map<Thread, Resolver>, taker: map<Id, Thread>) {
    && (forall r :: r in resolvers && Took(resolvers[r], resolvers[r].id) ==>
          resolvers[r].id in taker && taker[resolvers[r].id] == r)
    && (forall id :: id in taker ==> taker[id] in resolvers && Took(resolvers[taker[id]], id))
  }

  /** Where one id's answer is. */
  predicate Placed(pending: Option<Session>, channel: Option<bool>, w: Waiter, taker: Option<Resolver>) {
    && (pending.Some? <==> taker.None? && !w.pc.Returned?) && (pending.Some? ==> pending.value == w.session)
    && (match taker
        case None => channel.None? && Decision(w).None?
        case Some(r) =>
          && r.session == w.session
          && (r.pc.Sending? ==> channel.None? && Decision(w).None?)
          && (r.pc == Replied(true) ==>
                || (channel == Some(r.allow) && Decision(w).None?)
                || (channel.None? && Decision(w) == Some(r.allow))))
  }

  function Find<K, V>(m: map<K, V>, k: K): Option<V> {
    if k in m then Some(m[k]) else None
  }

  function TakerOf(s: State, id: Id): Option<Resolver> {
    if id in s.taker && s.taker[id] in s.resolvers then Some(s.resolvers[s.taker[id]]) else None
  }

  ghost predicate PlacedAt(s: State, id: Id)
    requires Linked(s) && id in s.owner
  {
    Placed(Find(s.reg.pending, id), s.reg.channels[id], s.waiters[s.owner[id]], TakerOf(s, id))
  }

  ghost predicate AllPlaced(s: State)
    requires Linked(s)
  {
    forall id :: id in s.owner ==> PlacedAt(s, id)
  }

  ghost predicate Inv(s: State) {
    Linked(s) && AllPlaced(s)
  }

  // ---- Every action keeps the invariant ----

  lemma AskKeepsInv(s: State, a: Action)
    requires Inv(s) && a.Ask?
    ensures Inv(Next(s, a))
  {
  }

  lemma AnswerKeepsInv(s: State, a: Action)
    requires Inv(s) && a.Answer?
    ensures Inv(Next(s, a))
  {
  }

  lemma ReceiveKeepsInv(s: State, a: Action)
    requires Inv(s) && a.Receive?
    ensures Inv(Next(s, a))
  {
  }

  lemma CancelKeepsLinks(s: State, a: Action)
    requires Inv(s) && a.Cancel?
    ensures Linked(Next(s, a))
  {
  }

  lemma CancelKeepsPlace(s: State, a: Action, id: Id)
    requires Inv(s) && Linked(Next(s, a)) && a.Cancel? && id in s.owner
    ensures PlacedAt(Next(s, a), id)
  {
    assert PlacedAt(s, id) && TakerOf(Next(s, a), id) == TakerOf(s, id);
  }

  lemma CancelKeepsPlaces(s: State, a: Action)
    requires Inv(s) && Linked(Next(s, a)) && a.Cancel?
    ensures AllPlaced(Next(s, a))
  {
    forall id | id in s.owner ensures PlacedAt(Next(s, a), id) { CancelKeepsPlace(s, a, id); }
  }

  lemma CleanupKeepsLinks(s: State, a: Action)
    requires Inv(s) && a.Cleanup?
    ensures Linked(Next(s, a))
  {
  }

  lemma CleanupKeepsPlaces(s: State, a: Action)
    requires Inv(s) && Linked(Next(s, a)) && a.Cleanup?
    ensures AllPlaced(Next(s, a))
  {
  }

  lemma SendKeepsLinks(s: State, a: Action)
    requires Inv(s) && a.Send?
    ensures Linked(Next(s, a))
  {
  }

  lemma SendKeepsPlaces(s: State, a: Action)
    requires Inv(s) && Linked(Next(s, a)) && a.Send?
    ensures AllPlaced(Next(s, a))
  {
    var s' := Next(s, a);
    if s' != s {
      forall id | id in s'.owner ensures PlacedAt(s', id) {
        assert PlacedAt(s, id);
        if id != s.resolvers[a.t].id {
          assert TakerOf(s', id) == TakerOf(s, id);
        }
      }
    }
  }

  lemma RegisterKeepsLinks(s: State, a: Action)
    requires Inv(s) && a.Register?
    ensures Linked(Next(s, a))
  {
  }

  lemma RegisterKeepsPlaces(s: State, a: Action)
    requires Inv(s) && Linked(Next(s, a)) && a.Register?
    ensures AllPlaced(Next(s, a))
  {
  }

  lemma ResolversTake(resolvers: map<Thread, Resolver>, taker: map<Id, Thread>, t: Thread)
    requires ResolversLinked(resolvers, taker) && t in resolvers && resolvers[t].id !in taker
    ensures ResolversLinked(resolvers[t := resolvers[t].(pc := Sending)], taker[resolvers[t].id := t])
  {
  }

  lemma ResolversRefuse(resolvers: map<Thread, Resolver>, taker: map<Id, Thread>, t: Thread)
    requires ResolversLinked(resolvers, taker) && t in resolvers && resolvers[t].pc.Locking?
    ensures ResolversLinked(resolvers[t := resolvers[t].(pc := Replied(false))], taker)
  {
  }

  /** A pending id has not been taken. */
  lemma PendingIsFree(s: State, id: Id)
    requires Inv(s) && id in s.reg.pending
    ensures id !in s.taker
  {
    assert PlacedAt(s, id);
  }

  lemma ClaimKeepsLinks(s: State, a: Action)
    requires Inv(s) && a.Claim?
    ensures Linked(Next(s, a))
  {
    if Enabled(s, a) {
      var r := s.resolvers[a.t];
      if Claims(s.reg, r.session, r.id) {
        PendingIsFree(s, r.id);
        ResolversTake(s.resolvers, s.taker, a.t);
      } else {
        ResolversRefuse(s.resolvers, s.taker, a.t);
      }
    }
  }

  lemma ClaimKeepsPlace(s: State, a: Action, id: Id)
    requires Inv(s) && Linked(Next(s, a)) && a.Claim? && id in s.owner
    ensures PlacedAt(Next(s, a), id)
  {
    assert PlacedAt(s, id);
    if Enabled(s, a) {
      var s', r := Next(s, a), s.resolvers[a.t];
      if !Claims(s.reg, r.session, r.id) || id != r.id {
        assert Find(s'.reg.pending, id) == Find(s.reg.pending, id) && TakerOf(s', id) == TakerOf(s, id);
      }
    }
  }

  lemma ClaimKeepsPlaces(s: State, a: Action)
    requires Inv(s) && Linked(Next(s, a)) && a.Claim?
    ensures AllPlaced(Next(s, a))
  {
    forall id | id in s.owner ensures PlacedAt(Next(s, a), id) { ClaimKeepsPlace(s, a, id); }
  }

  lemma {:induction false} AlwaysInv(actions: seq<Action>)
    ensures Inv(After(actions))
  {
    if actions != [] {
      var s, a := After(actions[..|actions| - 1]), actions[|actions| - 1];
      AlwaysInv(actions[..|actions| - 1]);
      match a
      case Ask(_, _) => AskKeepsInv(s, a);
      case Answer(_, _, _, _) => AnswerKeepsInv(s, a);
      case Register(_, _) => RegisterKeepsLinks(s, a); RegisterKeepsPlaces(s, a);
      case Receive(_) => ReceiveKeepsInv(s, a);
      case Cancel(_) => CancelKeepsLinks(s, a); CancelKeepsPlaces(s, a);
      case Cleanup(_) => CleanupKeepsLinks(s, a); CleanupKeepsPlaces(s, a);
      case Claim(_) => ClaimKeepsLinks(s, a); ClaimKeepsPlaces(s, a);
      case Send(_) => SendKeepsLinks(s, a); SendKeepsPlaces(s, a);
    }
  }

  // ---- What every interleaving guarantees ----

  /** An id stays open to an answer from its registration until it is taken or its turn
      is back; a resolver takes one exactly if it is open and of its own session. */
  lemma ClaimsExactly(actions: seq<Action>, r: Thread)
    requires r in After(actions).resolvers && After(actions).resolvers[r].pc.Locking?
    ensures var s := After(actions);
            var id := s.resolvers[r].id;
            Next(s, Claim(r)).resolvers[r].pc.Sending? <==>
              && id in s.owner && s.owner[id] in s.waiters && id !in s.taker
              && !s.waiters[s.owner[id]].pc.Returned? && s.waiters[s.owner[id]].session == s.resolvers[r].session
  {
    AlwaysInv(actions);
    var s := After(actions);
    if s.resolvers[r].id in s.owner {
      assert PlacedAt(s, s.resolvers[r].id);
    }
  }

  /** A resolver that took an id never finds its channel full. */
  lemma SendNeverBlocks(actions: seq<Action>, r: Thread)
    requires r in After(actions).resolvers && After(actions).resolvers[r].pc.Sending?
    ensures Enabled(After(actions), Send(r))
  {
    AlwaysInv(actions);
    var s := After(actions);
    assert Took(s.resolvers[r], s.resolvers[r].id);
  }

  /** At most one resolve per id succeeds, and only the owning session's. */
  lemma OnlyTheOwnerResolves(actions: seq<Action>, r: Thread)
    requires r in After(actions).resolvers && After(actions).resolvers[r].pc == Replied(true)
    ensures var s := After(actions);
            var id := s.resolvers[r].id;
            && id in s.owner && s.owner[id] in s.waiters
            && s.resolvers[r].session == s.waiters[s.owner[id]].session
            && forall q :: q in s.resolvers && q != r && s.resolvers[q].id == id ==> s.resolvers[q].pc != Replied(true)
  {
    AlwaysInv(actions);
    var s := After(actions);
    assert Took(s.resolvers[r], s.resolvers[r].id);
    assert forall q :: q in s.resolvers && s.resolvers[q].pc == Replied(true) ==> Took(s.resolvers[q], s.resolvers[q].id);
  }

  /** A waiter that comes back with a decision comes back with the very one its
      session resolved, and its id is forgotten. */
  lemma DecisionWasResolved(actions: seq<Action>, t: Thread)
    requires t in After(actions).waiters && After(actions).waiters[t].pc.Returned?
    ensures var s := After(actions);
            var Returned(id, decision) := s.waiters[t].pc;
            && id !in s.reg.pending
            && (decision.Some? ==>
                  exists r :: r in s.resolvers && s.resolvers[r] == Resolver(s.waiters[t].session, id, decision.value, Replied(true)))
  {
    AlwaysInv(actions);
    var s := After(actions);
    var id := s.waiters[t].pc.id;
    assert PlacedAt(s, id);
    if s.waiters[t].pc.decision.Some? {
      var r := s.taker[id];
      assert r in s.resolvers && s.resolvers[r].pc == Replied(true);
    }
  }

  /** A delivered answer is never lost and never doubled: it is either still in the
      channel or already with the waiter. */
  lemma AnswerIsInOnePlace(actions: seq<Action>, r: Thread)
    requires r in After(actions).resolvers && After(actions).resolvers[r].pc == Replied(true)
    ensures var s := After(actions);
            var Resolver(_, id, allow, _) := s.resolvers[r];
            && id in s.reg.channels && id in s.owner && s.owner[id] in s.waiters
            && (if s.reg.channels[id].Some? then s.reg.channels[id] == Some(allow) && Decision(s.waiters[s.owner[id]]).None?
                else Decision(s.waiters[s.owner[id]]) == Some(allow))
  {
    AlwaysInv(actions);
    var s := After(actions);
    var id := s.resolvers[r].id;
    assert Took(s.resolvers[r], id);
    assert PlacedAt(s, id);
  }

  /** The turn's context ended while it was waiting for the answer. */
  predicate Cancelled(actions: seq<Action>, t: Thread) {
    actions != [] &&
    var prefix, a := actions[..|actions| - 1], actions[|actions| - 1];
    (Cancelled(prefix, t) || (a == Cancel(t) && Enabled(After(prefix), a)))
  }

  predicate LeftUnheard(s: State, t: Thread) {
    t in s.waiters && (s.waiters[t].pc.Leaving? || s.waiters[t].pc.Returned?) && s.waiters[t].pc.decision.None?
  }

  lemma NextUnheard(s: State, a: Action, t: Thread)
    ensures LeftUnheard(Next(s, a), t) <==> LeftUnheard(s, t) || (a == Cancel(t) && Enabled(s, a))
  {
  }

  lemma {:induction false} UnheardWasCancelled(actions: seq<Action>, t: Thread)
    ensures LeftUnheard(After(actions), t) <==> Cancelled(actions, t)
  {
    if actions != [] {
      UnheardWasCancelled(actions[..|actions| - 1], t);
      NextUnheard(After(actions[..|actions| - 1]), actions[|actions| - 1], t);
    }
  }

  /** Once the turn has come back, an answer reported delivered was heard if and only if
      the turn was not cancelled while it waited. */
  lemma HeardUnlessCancelled(actions: seq<Action>, r: Thread)
    requires r in After(actions).resolvers && After(actions).resolvers[r].pc == Replied(true)
    ensures var s := After(actions);
            var Resolver(_, id, allow, _) := s.resolvers[r];
            && id in s.owner && s.owner[id] in s.waiters
            && (s.waiters[s.owner[id]].pc.Returned? ==>
                  (s.waiters[s.owner[id]].pc.decision == Some(allow) <==> !Cancelled(actions, s.owner[id])))
  {
    AnswerIsInOnePlace(actions, r);
    UnheardWasCancelled(actions, After(actions).owner[After(actions).resolvers[r].id]);
  }

  lemma AfterOne(run: seq<Action>, s: State, a: Action) returns (run': seq<Action>, s': State)
    requires After(run) == s
    ensures After(run') == s' == Next(s, a)
  {
    run', s' := run + [a], Next(s, a);
    assert run'[..|run|] == run;
  }

  lemma CancelledTurn() returns (run: seq<Action>, s: State)
    ensures After(run) == s
    ensures s == State(Registry(map["x" := "t"], map["x" := None]), map[0 := Waiter("t", Leaving("x", None))], map[], map["x" := 0], map[])
  {
    var run1, s1 := AfterOne([], INITIAL, Ask(0, "t"));
    assert s1 == INITIAL.(waiters := map[0 := Waiter("t", Registering)]);
    var run2, s2 := AfterOne(run1, s1, Register(0, "x"));
    assert s2 == State(Registry(map["x" := "t"], map["x" := None]), map[0 := Waiter("t", Waiting("x"))], map[], map["x" := 0], map[]);
    run, s := AfterOne(run2, s2, Cancel(0));
  }

  lemma LateClaim(run: seq<Action>, s: State) returns (run': seq<Action>, s': State)
    requires After(run) == s && 0 !in s.resolvers && s.reg == Registry(map["x" := "t"], map["x" := None])
    ensures After(run') == s' && s'.waiters == s.waiters && s'.reg.channels == s.reg.channels
    ensures s'.resolvers == s.resolvers[0 := Resolver("t", "x", true, Sending)]
  {
    var run1, s1 := AfterOne(run, s, Answer(0, "t", "x", true));
    assert s1 == s.(resolvers := s.resolvers[0 := Resolver("t", "x", true, Locking)]);
    run', s' := AfterOne(run1, s1, Claim(0));
  }

  lemma LateSend(run: seq<Action>, s: State) returns (run': seq<Action>, s': State)
    requires After(run) == s && 0 in s.resolvers && s.resolvers[0] == Resolver("t", "x", true, Sending)
    requires s.reg.channels == map["x" := None]
    ensures After(run') == s' && s'.waiters == s.waiters
    ensures s'.resolvers == s.resolvers[0 := Resolver("t", "x", true, Replied(true))]
  {
    run', s' := AfterOne(run, s, Send(0));
  }

  /** A resolve can report success to the human although the turn, cancelled a
      moment earlier, comes back without the answer. */
  lemma SuccessMayGoUnheard() returns (run: seq<Action>)
    ensures var s := After(run);
            && 0 in s.waiters && s.waiters[0].pc == Returned("x", None)
            && 0 in s.resolvers && s.resolvers[0] == Resolver("t", "x", true, Replied(true))
  {
    var run1, s1 := CancelledTurn();
    var run2, s2 := LateClaim(run1, s1);
    var run3, s3 := LateSend(run2, s2);
    var run4, s4 := AfterOne(run3, s3, Cleanup(0));
    run := run4;
  }

  /** A resolver of the session takes the waiter's open id. */
  lemma Takes(run: seq<Action>, s: State, t: Thread, r: Thread, allow: bool) returns (run': seq<Action>, s': State)
    requires After(run) == s && t in s.waiters && s.waiters[t].pc.Waiting? && s.waiters[t].pc.id !in s.taker && r !in s.resolvers
    ensures After(run') == s' && s'.waiters == s.waiters && s'.reg.channels == s.reg.channels
    ensures r in s'.resolvers && s'.resolvers[r] == Resolver(s.waiters[t].session, s.waiters[t].pc.id, allow, Sending)
  {
    var session, id := s.waiters[t].session, s.waiters[t].pc.id;
    AlwaysInv(run);
    assert PlacedAt(s, id);
    var run1, s1 := AfterOne(run, s, Answer(r, session, id, allow));
    run', s' := AfterOne(run1, s1, Claim(r));
  }

  /** And delivers its answer. */
  lemma Delivers(run: seq<Action>, s: State, t: Thread, r: Thread) returns (run': seq<Action>, s': State)
    requires After(run) == s && t in s.waiters && r in s.resolvers && s.resolvers[r].pc.Sending?
    requires s.waiters[t].pc == Waiting(s.resolvers[r].id)
    ensures After(run') == s' && t in s'.waiters && r in s'.resolvers
    ensures s'.waiters[t] == s.waiters[t].(pc := Returned(s.resolvers[r].id, Some(s.resolvers[r].allow)))
    ensures s'.resolvers[r] == s.resolvers[r].(pc := Replied(true))
  {
    SendNeverBlocks(run, r);
    var run1, s1 := AfterOne(run, s, Send(r));
    var run2, s2 := AfterOne(run1, s1, Receive(t));
    run', s' := AfterOne(run2, s2, Cleanup(t));
  }

  /** Whatever has happened before, a turn still waiting for an answer nobody took can be
      answered by its session, either way, and comes back with that answer. */
  lemma CanBeAnswered(actions: seq<Action>, t: Thread, r: Thread, allow: bool) returns (run: seq<Action>)
    requires t in After(actions).waiters && After(actions).waiters[t].pc.Waiting? && r !in After(actions).resolvers
    requires After(actions).waiters[t].pc.id !in After(actions).taker
    ensures var s := After(run);
            && t in s.waiters && s.waiters[t].pc == Returned(After(actions).waiters[t].pc.id, Some(allow))
            && r in s.resolvers && s.resolvers[r].pc == Replied(true)
  {
    var run1, s1 := Takes(actions, After(actions), t, r, allow);
    var run2, s2 := Delivers(run1, s1, t, r);
    run := run2;
  }

  /** Every step of the protocol is performed by the registry's own operations. */
  method Perform(registry: EscalationRegistry, s: State, a: Action)
    requires registry.Abs() == s.reg && Enabled(s, a)
    modifies registry
    ensures registry.Abs() == Next(s, a).reg
  {
    match a {
      case Register(t, id) => registry.Register(s.waiters[t].session, id);
      case Receive(t) => var allow := registry.Receive(s.waiters[t].pc.id);
      case Cleanup(t) => registry.Cleanup(s.waiters[t].pc.id);
      case Claim(t) => var ok := registry.Claim(s.resolvers[t].session, s.resolvers[t].id);
      case Send(t) => registry.Send(s.resolvers[t].id, s.resolvers[t].allow);
      case _ =>
    }
  }
}
