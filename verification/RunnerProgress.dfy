/**
 What the callers of the Claude runner get done, in every interleaving: what a close
 or a sweep owes is closed, a turn speaks to its clients in one fixed protocol, and
 every caller can always be run to its end.
 */
module RunnerProgress {
  import opened Options
  import opened ClientCache
  import opened RunnerProtocol
  import Sequences

  lemma SplitLast<T>(s: seq<T>, more: seq<T>)
    ensures more == [] ==> s + more == s
    ensures more != [] ==> s + more == s + more[..|more| - 1] + [more[|more| - 1]]
  {
  }

  lemma AfterMore(before: seq<Action>, more: seq<Action>)
    ensures more == [] ==> After(before + more) == After(before)
    ensures more != [] ==> After(before + more) == Next(After(before + more[..|more| - 1]), more[|more| - 1])
  {
    SplitLast(before, more);
    if more != [] {
      AfterOne(before + more[..|more| - 1], more[|more| - 1]);
    }
  }

  lemma JobStays(s: State, a: Action, t: Id)
    requires t in s.callers
    ensures t in Next(s, a).callers && Next(s, a).callers[t].job == s.callers[t].job
  {
  }

  // ---- What is owed is closed ----

  predicate CachedAs(s: State, k: Key, c: Client) {
    k in s.cache.clients && s.cache.clients[k] == c
  }

  predicate Closes(pc: Pc, c: Client) {
    (pc.Closing? && pc.victim == Some(c)) || (pc.Draining? && c in pc.victims)
  }

  /** Disconnected, or in the hands of a caller about to disconnect it. */
  ghost predicate Leaving(s: State, c: Client) {
    c in s.gone || exists u :: u in s.callers && Closes(s.callers[u].pc, c)
  }

  /** The keys a caller has still to close. */
  predicate Owes(th: Caller, k: Key) {
    || (th.job.kind.CloseOne? && th.pc.Begin? && k == th.job.key)
    || (th.pc.Closing? && k in th.pc.keys)
  }

  lemma LeavesForGood(s: State, a: Action, c: Client)
    requires Leaving(s, c)
    ensures Leaving(Next(s, a), c)
  {
    var s' := Next(s, a);
    if c !in s.gone {
      var u :| u in s.callers && Closes(s.callers[u].pc, c);
      assert c in s'.gone || (u in s'.callers && Closes(s'.callers[u].pc, c));
    }
  }

  /** Then it is in no cache. */
  lemma LeavingIsUncached(s: State, c: Client, k: Key)
    requires Conserved(s) && Leaving(s, c)
    ensures !CachedAs(s, k, c)
  {
    if c !in s.gone {
      var u :| u in s.callers && Closes(s.callers[u].pc, c);
      assert c in Hands(s.callers)[u];
    }
  }

  /** Whatever a step takes out of the cache its caller goes on to close. */
  predicate PlansTaking(s: State, th: Caller, e: Effect, pc: Pc) {
    && (e.Evict? && e.key in s.cache.clients ==> Closes(pc, s.cache.clients[e.key]))
    && (e.Clear? ==> pc == Draining(s.cache.clients.Values))
    && (e.Store? ==> Absent(th))
  }

  lemma PlanCloses(s: State, th: Caller, a: Action)
    requires a.Step? && WellTyped(th)
    ensures var (e, pc) := Plan(s, th, a); PlansTaking(s, th, e, pc)
  {
  }

  lemma PlanPays(s: State, th: Caller, a: Action, k: Key)
    requires a.Step? && WellTyped(th) && Owes(th, k)
    ensures var (e, pc) := Plan(s, th, a); Owes(Caller(th.job, pc), k) || e == Evict(k)
  {
    if th.pc.Closing? && th.pc.victim.None? {
      assert th.pc.keys == [th.pc.keys[0]] + th.pc.keys[1..];
    }
  }

  lemma EffectUncaches(c: Cache, t: Id, job: Job, e: Effect, now: Instant, k: Key)
    requires k in c.clients
    requires var c' := Affected(c, t, job, e, now); k !in c'.clients || c'.clients[k] != c.clients[k]
    ensures e == Evict(k) || e.Clear? || (e.Store? && job.key == k)
  {
  }

  lemma MoveCloses(s: State, t: Id, e: Effect, pc: Pc, k: Key, c: Client)
    requires t in s.callers && CachedAs(s, k, c) && PlansTaking(s, s.callers[t], e, pc) && Vacant(s)
    ensures CachedAs(Moved(s, t, e, pc), k, c) || Leaving(Moved(s, t, e, pc), c)
    ensures e == Evict(k) ==> Leaving(Moved(s, t, e, pc), c)
  {
    var s' := Moved(s, t, e, pc);
    assert s'.callers[t].pc == pc;
    if !CachedAs(s', k, c) {
      EffectUncaches(s.cache, t, s.callers[t].job, e, s.now, k);
      assert Closes(s'.callers[t].pc, c);
    }
  }

  /** A cached client stays cached under its key until someone closes it. */
  lemma CachedUntilClosed(s: State, a: Action, k: Key, c: Client)
    requires Typed(s) && Vacant(s) && CachedAs(s, k, c)
    ensures CachedAs(Next(s, a), k, c) || Leaving(Next(s, a), c)
  {
    if a.Step? && a.t in s.callers {
      var (e, pc) := Plan(s, s.callers[a.t], a);
      StepIs(s, a);
      PlanCloses(s, s.callers[a.t], a);
      MoveCloses(s, a.t, e, pc, k, c);
    }
  }

  /** What a caller owes it goes on owing until it has taken it from the cache. */
  lemma OwesUntilClosed(s: State, a: Action, t: Id, k: Key, c: Client)
    requires Typed(s) && Vacant(s) && t in s.callers && Owes(s.callers[t], k) && CachedAs(s, k, c)
    ensures Leaving(Next(s, a), c) || (Owes(Next(s, a).callers[t], k) && CachedAs(Next(s, a), k, c))
  {
    CachedUntilClosed(s, a, k, c);
    if a.Step? && a.t == t {
      var (e, pc) := Plan(s, s.callers[t], a);
      StepIs(s, a);
      PlanPays(s, s.callers[t], a, k);
      PlanCloses(s, s.callers[t], a);
      MoveCloses(s, t, e, pc, k, c);
    }
  }

  /** It is closed or being closed, or still owed and cached. */
  ghost predicate Dealt(s: State, t: Id, k: Key, c: Client) {
    t in s.callers && (Leaving(s, c) || (Owes(s.callers[t], k) && CachedAs(s, k, c)))
  }

  lemma NextDealt(s: State, a: Action, t: Id, k: Key, c: Client)
    requires Inv(s) && Dealt(s, t, k, c)
    ensures Dealt(Next(s, a), t, k, c)
  {
    JobStays(s, a, t);
    if Leaving(s, c) {
      LeavesForGood(s, a, c);
    } else {
      OwesUntilClosed(s, a, t, k, c);
    }
  }

  lemma {:induction false} AlwaysDealt(before: seq<Action>, more: seq<Action>, t: Id, k: Key, c: Client)
    requires Dealt(After(before), t, k, c)
    ensures Dealt(After(before + more), t, k, c)
  {
    AfterMore(before, more);
    if more != [] {
      var rest := more[..|more| - 1];
      AlwaysDealt(before, rest, t, k, c);
      AlwaysInv(before + rest);
      NextDealt(After(before + rest), more[|more| - 1], t, k, c);
    }
  }

  /** In every interleaving: once a caller no longer owes a key, the client cached under
      it when it came to owe it is in no cache, and was disconnected or is about to be. */
  lemma OwedIsClosed(before: seq<Action>, more: seq<Action>, t: Id, k: Key, c: Client)
    requires t in After(before).callers && Owes(After(before).callers[t], k) && CachedAs(After(before), k, c)
    ensures var s := After(before + more);
            t in s.callers && (!Owes(s.callers[t], k) ==> Leaving(s, c) && forall l :: !CachedAs(s, l, c))
  {
    AlwaysDealt(before, more, t, k, c);
    AlwaysInv(before + more);
    var s := After(before + more);
    if !Owes(s.callers[t], k) {
      forall l ensures !CachedAs(s, l, c) { LeavingIsUncached(s, c, l); }
    }
  }

  /** So a close that has ended has closed what was cached under its key when it was called. */
  lemma CloseOneCloses(before: seq<Action>, t: Id, job: Job, more: seq<Action>, c: Client)
    requires job.kind.CloseOne? && t !in After(before).callers && CachedAs(After(before), job.key, c)
    ensures var s := After(before + [Spawn(t, job)] + more);
            t in s.callers && (s.callers[t].pc.Ended? ==> Leaving(s, c) && forall l :: !CachedAs(s, l, c))
  {
    AfterOne(before, Spawn(t, job));
    OwedIsClosed(before + [Spawn(t, job)], more, t, job.key, c);
  }

  /** What shutdown took is with it or disconnected. */
  ghost predicate Taken(s: State, t: Id, c: Client) {
    t in s.callers && (c in s.gone || (s.callers[t].pc.Draining? && c in s.callers[t].pc.victims))
  }

  lemma NextTaken(s: State, a: Action, t: Id, c: Client)
    requires Taken(s, t, c)
    ensures Taken(Next(s, a), t, c)
  {
  }

  lemma {:induction false} AlwaysTaken(before: seq<Action>, more: seq<Action>, t: Id, c: Client)
    requires Taken(After(before), t, c)
    ensures Taken(After(before + more), t, c)
  {
    AfterMore(before, more);
    if more != [] {
      AlwaysTaken(before, more[..|more| - 1], t, c);
      NextTaken(After(before + more[..|more| - 1]), more[|more| - 1], t, c);
    }
  }

  lemma ShutdownTakes(s: State, a: Action, k: Key, c: Client)
    requires a.Step? && a.t in s.callers && s.callers[a.t] == Caller(s.callers[a.t].job, Begin) && s.callers[a.t].job.kind.CloseEvery?
    requires CachedAs(s, k, c)
    ensures Taken(Next(s, a), a.t, c)
  {
    assert c in s.cache.clients.Values;
  }

  lemma TakenIsUncached(s: State, t: Id, c: Client, k: Key)
    requires Conserved(s) && Taken(s, t, c)
    ensures !CachedAs(s, k, c)
  {
    assert c in s.gone || c in Hands(s.callers)[t];
  }

  /** A shutdown that has ended has disconnected every client that was cached when it
      took the maps, and none of them is in a cache again. */
  lemma CloseEveryCloses(before: seq<Action>, a: Action, more: seq<Action>, k: Key, c: Client)
    requires a.Step? && a.t in After(before).callers && CachedAs(After(before), k, c)
    requires After(before).callers[a.t].job.kind.CloseEvery? && After(before).callers[a.t].pc.Begin?
    ensures var s := After(before + [a] + more);
            a.t in s.callers && (forall l :: !CachedAs(s, l, c)) && (s.callers[a.t].pc.Ended? ==> c in s.gone)
  {
    AfterOne(before, a);
    ShutdownTakes(After(before), a, k, c);
    AlwaysTaken(before + [a], more, a.t, c);
    AlwaysInv(before + [a] + more);
    forall l ensures !CachedAs(After(before + [a] + more), l, c) { TakenIsUncached(After(before + [a] + more), a.t, c, l); }
  }

  /** Why a turn closes its own key: its client was made for another selection, its
      first query met a stale session, or its stream ended without a result. */
  predicate ClosesItsOwn(s: State, th: Caller, answer: Answer) {
    || (th.pc.LookingUp? && th.job.key in s.cache.clients && Lookup(s.cache.selections, th.job.key) != Some(th.job.selection))
    || (th.pc.Using? && (answer.Broken? || (answer.Stale? && !th.pc.retried)))
  }

  /** What a step makes of its caller and of the clients cached, its plan known. */
  lemma StepIs(s: State, a: Action)
    requires a.Step? && a.t in s.callers
    ensures var (e, pc) := Plan(s, s.callers[a.t], a);
            Next(s, a) == Moved(s, a.t, e, pc) && Next(s, a).callers[a.t] == Caller(s.callers[a.t].job, pc)
  {
  }

  lemma PlanSweeps(s: State, th: Caller, a: Action, k: Key)
    requires a.Step? && th.pc.Sweeping?
    ensures var (e, pc) := Plan(s, th, a);
            Owes(Caller(th.job, pc), k) <==> Lists(a.order, Expired(s.cache, s.now)) && k in Expired(s.cache, s.now)
    ensures var (e, pc) := Plan(s, th, a); pc != th.pc <==> Lists(a.order, Expired(s.cache, s.now))
  {
    assert k in a.order <==> k in (set x | x in a.order);
  }

  lemma PlanOwesItsOwn(s: State, th: Caller, a: Action, k: Key)
    requires a.Step? && WellTyped(th) && th.job.kind.RunTurn? && !th.pc.Closing? && !th.pc.Sweeping?
    requires th.job.key in s.cache.clients ==> th.job.key in s.cache.selections
    ensures Owes(Caller(th.job, Plan(s, th, a).1), k) <==> k == th.job.key && ClosesItsOwn(s, th, a.answer)
  {
  }

  /** What a turn comes to owe at each of its steps: at a sweep exactly the idle keys, for
      those three reasons its own key, and otherwise nothing new. */
  lemma DebtsExactly(s: State, a: Action, k: Key)
    requires Inv(s) && a.Step? && a.t in s.callers && s.callers[a.t].job.kind.RunTurn? && !s.callers[a.t].pc.Closing?
    ensures var th, th' := s.callers[a.t], Next(s, a).callers[a.t];
            Owes(th', k) <==>
              if th.pc.Sweeping? then th'.pc != th.pc && k in Expired(s.cache, s.now)
              else k == th.job.key && ClosesItsOwn(s, th, a.answer)
  {
    var th := s.callers[a.t];
    StepIs(s, a);
    assert WellTyped(th);
    if th.pc.Sweeping? {
      PlanSweeps(s, th, a, k);
    } else {
      assert th.job.key in s.cache.clients.Keys ==> th.job.key in s.cache.selections.Keys;
      PlanOwesItsOwn(s, th, a, k);
    }
  }

  /** So whatever a turn or its sweep decides to close is closed before it goes on: at
      the next moment it owes nothing, every such client is out of the cache for good. */
  lemma TurnClosesWhatItOwes(before: seq<Action>, a: Action, more: seq<Action>, k: Key, c: Client)
    requires a.Step? && a.t in After(before).callers && !After(before).callers[a.t].pc.Closing?
    requires After(before).callers[a.t].job.kind.RunTurn? && CachedAs(After(before), k, c)
    requires var th, th' := After(before).callers[a.t], After(before + [a]).callers[a.t];
             if th.pc.Sweeping? then th'.pc != th.pc && k in Expired(After(before).cache, After(before).now)
             else k == th.job.key && ClosesItsOwn(After(before), th, a.answer)
    ensures var s := After(before + [a] + more);
            a.t in s.callers && (!Owes(s.callers[a.t], k) ==> Leaving(s, c) && forall l :: !CachedAs(s, l, c))
  {
    AlwaysInv(before);
    AfterOne(before, a);
    DebtsExactly(After(before), a, k);
    StillCached(After(before), a, k, c);
    OwedIsClosed(before + [a], more, a.t, k, c);
  }

  lemma PlanDecidesFirst(s: State, th: Caller, a: Action, k: Key)
    requires a.Step? && WellTyped(th) && !th.pc.Closing? && Owes(Caller(th.job, Plan(s, th, a).1), k)
    ensures var e := Plan(s, th, a).0; e.Quiet? || e.List?
  {
  }

  /** Deciding to close takes nothing out of the cache yet. */
  lemma StillCached(s: State, a: Action, k: Key, c: Client)
    requires Typed(s) && a.Step? && a.t in s.callers && Owes(Next(s, a).callers[a.t], k) && !s.callers[a.t].pc.Closing?
    requires CachedAs(s, k, c)
    ensures CachedAs(Next(s, a), k, c)
  {
    assert WellTyped(s.callers[a.t]);
    StepIs(s, a);
    PlanDecidesFirst(s, s.callers[a.t], a, k);
  }

  // ---- What a turn uses ----

  /** A caller is turned away exactly when its key is held. */
  lemma RefusedExactly(s: State, a: Action)
    requires Inv(s) && a.Step? && a.t in s.callers && s.callers[a.t].pc.Begin?
    requires s.callers[a.t].job.kind.RunTurn? || s.callers[a.t].job.kind.ExecuteOnce?
    ensures Next(s, a).callers[a.t].pc.Ended? <==>
            exists u :: u in s.callers && HasLock(s.callers[u]) && s.callers[u].job.key == s.callers[a.t].job.key
    ensures Next(s, a).callers[a.t].pc.Ended? <==> !HasLock(Next(s, a).callers[a.t])
  {
    assert s.callers[a.t].job.key in s.cache.inFlight ==> HeldBySome(s.callers, s.callers[a.t].job.key);
  }

  /** A connection comes of a connect that works and of nothing else: it is new, in the
      hands of the caller that asked, and made for its key and selection. */
  lemma ConnectsExactly(s: State, a: Action)
    ensures var s' := Next(s, a);
            && s'.next == s.next + (if Connects(s, a) then 1 else 0)
            && (Connects(s, a) ==>
                  && Held(s'.callers[a.t].pc) == {s.next} && s.next in s'.born
                  && s'.born[s.next] == Origin(s.callers[a.t].job.key, s.callers[a.t].job.selection))
  {
  }

  predicate Connects(s: State, a: Action) {
    a.Step? && a.t in s.callers && (s.callers[a.t].pc.Connecting? || s.callers[a.t].pc.Starting?) && a.answer.Fine?
  }

  lemma PlanReuses(s: State, th: Caller, a: Action)
    requires a.Step? && th.pc.LookingUp?
    requires th.job.key in s.cache.clients && Lookup(s.cache.selections, th.job.key) == Some(th.job.selection)
    ensures Plan(s, th, a) == (Quiet, Touching(s.cache.clients[th.job.key], th.pc.retried))
  {
  }

  /** A turn that finds a client of its selection talks through that one: its next two
      steps, whatever others do in between, neither close it nor connect. */
  lemma TurnReuses(s: State, a: Action, s': State, b: Action)
    requires Agree(s.cache) && a.Step? && b.Step? && a.t == b.t && a.t in s.callers && a.t in s'.callers
    requires var th := s.callers[a.t];
             th.pc.LookingUp? && Lookup(s.cache.selections, th.job.key) == Some(th.job.selection)
    requires s'.callers[a.t] == Next(s, a).callers[a.t]
    ensures var th := s.callers[a.t];
            var c' := s'.cache.(lastUsed := s'.cache.lastUsed[th.job.key := s'.now]);
            && th.job.key in s.cache.clients && Next(s, a) == With(s, a.t, s'.callers[a.t].pc, s.cache)
            && Next(s', b) == With(s', a.t, Using(s.cache.clients[th.job.key], th.pc.retried, s'.now), c')
  {
    var th := s.callers[a.t];
    assert th.job.key in s.cache.selections.Keys;
    PlanReuses(s, th, a);
    StepIs(s, a);
    StepIs(s', b);
  }

  // ---- A retried turn starts from an empty key ----

  /** A turn between closing its stale client and looking its key up again. */
  predicate Afresh(th: Caller) {
    || th.pc == Sweeping(true) || th.pc == LookingUp(true)
    || (th.pc.Closing? && (th.pc.andThen == ToLookup(true) || (th.pc.andThen.ToSweep? && th.pc.keys == [])))
  }

  ghost predicate Cleared(s: State) {
    forall t :: t in s.callers && Afresh(s.callers[t]) ==> s.callers[t].job.key !in s.cache.clients
  }

  predicate PlansAfresh(th: Caller, e: Effect, pc: Pc) {
    && (Afresh(Caller(th.job, pc)) ==> HasLock(th) && (Afresh(th) || e == Evict(th.job.key)))
    && (e.Store? ==> HasLock(th) && !Afresh(Caller(th.job, pc)))
  }

  lemma PlanStartsAfresh(s: State, th: Caller, a: Action)
    requires a.Step? && WellTyped(th)
    ensures var (e, pc) := Plan(s, th, a); PlansAfresh(th, e, pc)
  {
  }

  lemma MoveKeepsCleared(s: State, t: Id, e: Effect, pc: Pc)
    requires t in s.callers && Typed(s) && Locks(s) && Cleared(s) && PlansAfresh(s.callers[t], e, pc)
    ensures Cleared(Moved(s, t, e, pc))
  {
    var s' := Moved(s, t, e, pc);
    forall u | u in s'.callers && Afresh(s'.callers[u]) ensures s'.callers[u].job.key !in s'.cache.clients {
      MovedClients(s.cache, t, s.callers[t].job, e, s.now, s'.callers[u].job.key);
      if u != t && e.Store? {
        assert WellTyped(s.callers[u]);
        OneHolder(s, t, u);
      }
    }
  }

  lemma NextKeepsCleared(s: State, a: Action)
    requires Inv(s) && Cleared(s)
    ensures Cleared(Next(s, a))
  {
    if a.Step? && a.t in s.callers {
      var (e, pc) := Plan(s, s.callers[a.t], a);
      PlanStartsAfresh(s, s.callers[a.t], a);
      MoveKeepsCleared(s, a.t, e, pc);
    }
  }

  lemma {:induction false} AlwaysCleared(actions: seq<Action>)
    ensures Inv(After(actions)) && Cleared(After(actions))
  {
    AlwaysInv(actions);
    if actions != [] {
      AlwaysCleared(actions[..|actions| - 1]);
      NextKeepsCleared(After(actions[..|actions| - 1]), actions[|actions| - 1]);
    }
  }

  // ---- What a turn says to its clients ----

  datatype Call = Dial(resuming: bool, answer: Answer) | Query(client: Client, answer: Answer)

  /** The call out a caller makes from here, if it makes one, and how it is answered. */
  function CallAt(pc: Pc, answer: Answer): seq<Call> {
    match pc
    case Connecting(resuming, _) => [Dial(resuming, answer)]
    case Starting => [Dial(false, answer)]
    case Using(client, _, _) => [Query(client, answer)]
    case _ => []
  }

  function CallOf(s: State, a: Action, t: Id): seq<Call> {
    if a.Step? && a.t == t && t in s.callers then CallAt(s.callers[t].pc, a.answer) else []
  }

  function Calls(actions: seq<Action>, t: Id): seq<Call> {
    if actions == [] then []
    else Calls(actions[..|actions| - 1], t) + CallOf(After(actions[..|actions| - 1]), actions[|actions| - 1], t)
  }

  /** How a turn comes by a client: a resumed session if it has one to resume, a fresh one
      otherwise or when that session is not found. */
  predicate Dialed(job: Job, cs: seq<Call>) {
    cs == [Dial(job.resume, Fine)] || (job.resume && cs == [Dial(true, Stale), Dial(false, Fine)])
  }

  predicate NotDialed(job: Job, cs: seq<Call>) {
    || cs == [Dial(job.resume, Broken)] || (!job.resume && cs == [Dial(false, Stale)])
    || (job.resume && (cs == [Dial(true, Stale), Dial(false, Stale)] || cs == [Dial(true, Stale), Dial(false, Broken)]))
  }

  /** One query, through a client it dialed or found. */
  predicate Queried(job: Job, cs: seq<Call>) {
    && cs != [] && cs[|cs| - 1].Query?
    && (cs == [cs[|cs| - 1]] || Dialed(job, cs[..|cs| - 1]))
  }

  function Final(cs: seq<Call>): Call
    requires cs != []
  {
    cs[|cs| - 1]
  }

  predicate QueriedStale(job: Job, cs: seq<Call>) {
    Queried(job, cs) && Final(cs).answer.Stale?
  }

  /** A second try, always through a newer client dialed for it. */
  predicate Again(job: Job, first: seq<Call>, rest: seq<Call>) {
    && QueriedStale(job, first)
    && (NotDialed(job, rest) || (Queried(job, rest) && |rest| > 1 && Final(first).client < Final(rest).client))
  }

  /** All a turn that was let in ever says: nobody could be dialed, or one query that was
      not stale, or a stale one and a second try. */
  predicate Spoken(job: Job, first: seq<Call>, rest: seq<Call>) {
    || (first == [] && NotDialed(job, rest))
    || (first == [] && Queried(job, rest) && !Final(rest).answer.Stale?)
    || Again(job, first, rest)
  }

  /** What was said before a retry, if this is one. */
  predicate Before(job: Job, retried: bool, first: seq<Call>, next: Client) {
    if retried then QueriedStale(job, first) && Final(first).client < next else first == []
  }

  /** What a caller has said by the time it is at a step, and what of it before a retry;
      `armed` when it is a turn that was let in. */
  predicate Said(job: Job, pc: Pc, next: Client, armed: bool, first: seq<Call>, rest: seq<Call>) {
    match pc
    case Sweeping(r) => Before(job, r, first, next) && rest == []
    case LookingUp(r) => Before(job, r, first, next) && rest == []
    case Closing(_, _, ToLookup(r)) => Before(job, r, first, next) && rest == []
    case Closing(_, _, ToConnect(r)) => !r && first == [] && rest == []
    case Touching(_, r) => !r && first == [] && rest == []
    case Connecting(resuming, r) =>
      && Before(job, r, first, next)
      && (if resuming == job.resume then rest == [] else job.resume && rest == [Dial(true, Stale)])
    case Holding(c, r) => Before(job, r, first, c) && Dialed(job, rest)
    case Using(c, r, _) => if r then Before(job, r, first, c) && Dialed(job, rest) else first == [] && (rest == [] || Dialed(job, rest))
    case Closing(_, _, ToSweep) => first == [] && QueriedStale(job, rest) && Final(rest).client < next
    case Closing(_, _, ToUnask) => Spoken(job, first, rest)
    case Unasking => Spoken(job, first, rest)
    case Unhooking => Spoken(job, first, rest)
    case Unlocking => if job.kind.RunTurn? then armed && Spoken(job, first, rest) else first == [] && |rest| == 1 && rest[0].Dial?
    case Executing(_) => first == [] && rest == [Dial(false, Fine)]
    case Ended =>
      if job.kind.RunTurn? && armed then Spoken(job, first, rest)
      else first == [] && (rest == [] || (job.kind.ExecuteOnce? && |rest| == 1 && rest[0].Dial?))
    case Begin => !armed && first == [] && rest == []
    case Arming => !armed && first == [] && rest == []
    case _ => first == [] && rest == []
  }

  lemma DialSays(s: State, th: Caller, a: Action, first: seq<Call>, rest: seq<Call>)
    requires a.Step? && WellTyped(th) && th.pc.Connecting? && Said(th.job, th.pc, s.next, true, first, rest)
    ensures var (e, pc) := Plan(s, th, a);
            Said(th.job, pc, if e.Connect? then s.next + 1 else s.next, true, first, rest + CallAt(th.pc, a.answer))
  {
  }

  lemma QuerySays(s: State, th: Caller, a: Action, first: seq<Call>, rest: seq<Call>)
    requires a.Step? && WellTyped(th) && th.pc.Using? && th.pc.client < s.next && Said(th.job, th.pc, s.next, true, first, rest)
    ensures Said(th.job, Plan(s, th, a).1, s.next, true, first, rest + CallAt(th.pc, a.answer))
  {
    assert (rest + CallAt(th.pc, a.answer))[..|rest|] == rest;
  }

  /** Turning to a second try, what was said so far becomes the first. */
  predicate Retries(th: Caller) {
    th.pc.Closing? && th.pc.victim.None? && th.pc.keys == [] && th.pc.andThen.ToSweep?
  }

  lemma CloseSays(s: State, th: Caller, a: Action, armed: bool, first: seq<Call>, rest: seq<Call>)
    requires a.Step? && WellTyped(th) && Said(th.job, th.pc, s.next, armed, first, rest) && !Retries(th) && th.pc.Closing?
    ensures var (e, pc) := Plan(s, th, a); Said(th.job, pc, s.next, armed, first, rest) && !e.Connect? && !e.Arm?
  {
  }

  lemma StepSays(s: State, th: Caller, a: Action, armed: bool, first: seq<Call>, rest: seq<Call>)
    requires a.Step? && WellTyped(th) && Said(th.job, th.pc, s.next, armed, first, rest)
    requires !th.pc.Connecting? && !th.pc.Using? && !th.pc.Closing?
    requires th.pc == LookingUp(true) ==> th.job.key !in s.cache.clients
    requires TurnPc(th.pc) && !th.pc.Arming? ==> armed
    ensures var (e, pc) := Plan(s, th, a); Said(th.job, pc, s.next, armed || e.Arm?, first, rest + CallAt(th.pc, a.answer))
  {
  }

  predicate SaidBy(s: State, t: Id, first: seq<Call>, rest: seq<Call>) {
    t in s.callers && Said(s.callers[t].job, s.callers[t].pc, s.next, t in s.began, first, rest)
  }

  lemma SaidStays(job: Job, pc: Pc, next: Client, next': Client, armed: bool, first: seq<Call>, rest: seq<Call>)
    requires Said(job, pc, next, armed, first, rest) && next <= next'
    ensures Said(job, pc, next', armed, first, rest)
  {
  }

  lemma PlanSays(s: State, th: Caller, a: Action, armed: bool, first: seq<Call>, rest: seq<Call>)
    requires a.Step? && WellTyped(th) && Said(th.job, th.pc, s.next, armed, first, rest) && !Retries(th)
    requires th.pc.Using? ==> th.pc.client < s.next
    requires th.pc == LookingUp(true) ==> th.job.key !in s.cache.clients
    requires TurnPc(th.pc) && !th.pc.Arming? ==> armed
    ensures var (e, pc) := Plan(s, th, a);
            Said(th.job, pc, if e.Connect? then s.next + 1 else s.next, armed || e.Arm?, first, rest + CallAt(th.pc, a.answer))
  {
    var (e, pc) := Plan(s, th, a);
    if th.pc.Connecting? {
      DialSays(s, th, a, first, rest);
    } else if th.pc.Using? {
      QuerySays(s, th, a, first, rest);
    } else if th.pc.Closing? {
      CloseSays(s, th, a, armed, first, rest);
      Sequences.Unit(rest);
    } else {
      StepSays(s, th, a, armed, first, rest);
      SaidStays(th.job, pc, s.next, if e.Connect? then s.next + 1 else s.next, armed || e.Arm?, first, rest + CallAt(th.pc, a.answer));
    }
  }

  lemma RetrySays(s: State, th: Caller, a: Action, armed: bool, rest: seq<Call>)
    requires a.Step? && Retries(th) && Said(th.job, th.pc, s.next, armed, [], rest)
    ensures Plan(s, th, a) == (Quiet, Sweeping(true)) && Said(th.job, Sweeping(true), s.next, armed, rest, [])
  {
  }

  lemma CallerFacts(s: State, t: Id)
    requires Inv(s) && Cleared(s) && t in s.callers
    ensures var th := s.callers[t];
            && WellTyped(th) && (th.pc.Using? ==> th.pc.client < s.next)
            && (th.pc == LookingUp(true) ==> th.job.key !in s.cache.clients)
            && (TurnPc(th.pc) && !th.pc.Arming? ==> t in s.began)
  {
    assert Timely(s.callers[t], Lookup(s.began, t), s.now);
    assert s.callers[t].pc.Using? ==> Uses(s.callers[t].pc) && s.callers[t].pc.client in s.born;
    assert s.callers[t].pc == LookingUp(true) ==> Afresh(s.callers[t]);
  }

  lemma OwnStepSays(s: State, a: Action, first: seq<Call>, rest: seq<Call>) returns (first': seq<Call>, rest': seq<Call>)
    requires Inv(s) && Cleared(s) && a.Step? && SaidBy(s, a.t, first, rest)
    ensures SaidBy(Next(s, a), a.t, first', rest') && first' + rest' == first + rest + CallOf(s, a, a.t)
  {
    var th, call := s.callers[a.t], CallOf(s, a, a.t);
    StepIs(s, a);
    CallerFacts(s, a.t);
    if Retries(th) {
      assert first == [] && call == [];
      RetrySays(s, th, a, a.t in s.began, rest);
      first', rest' := rest, [];
      Sequences.Unit(rest);
    } else {
      PlanSays(s, th, a, a.t in s.began, first, rest);
      first', rest' := first, rest + call;
      Sequences.Associative(first, rest, call);
    }
  }

  lemma NextSays(s: State, a: Action, t: Id, first: seq<Call>, rest: seq<Call>) returns (first': seq<Call>, rest': seq<Call>)
    requires Inv(s) && Cleared(s) && SaidBy(s, t, first, rest)
    ensures SaidBy(Next(s, a), t, first', rest') && first' + rest' == first + rest + CallOf(s, a, t)
  {
    if a.Step? && a.t == t {
      first', rest' := OwnStepSays(s, a, first, rest);
    } else {
      first', rest' := first, rest;
      SaidStays(s.callers[t].job, s.callers[t].pc, s.next, Next(s, a).next, t in s.began, first, rest);
    }
  }

  lemma {:induction false} NothingBefore(actions: seq<Action>, t: Id)
    requires t !in After(actions).callers
    ensures t !in After(actions).began && Calls(actions, t) == []
  {
    if actions != [] {
      NothingBefore(actions[..|actions| - 1], t);
    }
  }

  lemma {:induction false} AlwaysSaid(actions: seq<Action>, t: Id) returns (first: seq<Call>, rest: seq<Call>)
    requires t in After(actions).callers
    ensures SaidBy(After(actions), t, first, rest) && Calls(actions, t) == first + rest
  {
    var prefix, a := actions[..|actions| - 1], actions[|actions| - 1];
    if t in After(prefix).callers {
      first, rest := AlwaysSaid(prefix, t);
      AlwaysCleared(prefix);
      first, rest := NextSays(After(prefix), a, t, first, rest);
    } else {
      NothingBefore(prefix, t);
      first, rest := [], [];
    }
  }

  lemma EndSays(job: Job, next: Client, armed: bool, first: seq<Call>, rest: seq<Call>)
    requires job.kind.RunTurn? && Said(job, Ended, next, armed, first, rest)
    ensures if armed then Spoken(job, first, rest) else first + rest == []
  {
  }

  /** In every interleaving, a turn that was let in and has ended has said one of these to
      its clients: it could dial none; or it sent its query once, through the client it
      found or dialed, and the session was not stale; or it was, and then it dialed anew
      and sent it once more, through a newer client, or could not. It tries a resumed
      session before a fresh one if it has one. One turned away has said nothing. */
  lemma TurnSpeaks(actions: seq<Action>, t: Id) returns (first: seq<Call>, rest: seq<Call>)
    requires t in After(actions).callers && After(actions).callers[t].pc.Ended? && After(actions).callers[t].job.kind.RunTurn?
    ensures Calls(actions, t) == first + rest
    ensures if t in After(actions).began then Spoken(After(actions).callers[t].job, first, rest) else Calls(actions, t) == []
  {
    first, rest := AlwaysSaid(actions, t);
    var s := After(actions);
    EndSays(s.callers[t].job, s.next, t in s.began, first, rest);
  }

  /** An execution dials once, afresh, and a close dials never. */
  lemma ExecutionSpeaks(actions: seq<Action>, t: Id)
    requires t in After(actions).callers && !After(actions).callers[t].job.kind.RunTurn?
    ensures var calls := Calls(actions, t);
            calls == [] || (After(actions).callers[t].job.kind.ExecuteOnce? && |calls| == 1 && calls[0].Dial?)
  {
    var first, rest := AlwaysSaid(actions, t);
    AlwaysInv(actions);
    assert WellTyped(After(actions).callers[t]);
  }

  // ---- Every caller ends ----

  /** How far from its end a caller is: by its place, then by what it has to close there. */
  function Distance(pc: Pc): nat {
    match pc
    case Begin => 25
    case Arming => 24
    case Hooking => 23
    case Asking => 22
    case Sweeping(r) => if r then 12 else 21
    case Closing(_, _, ToLookup(r)) => if r then 11 else 20
    case LookingUp(r) => if r then 10 else 19
    case Closing(_, _, ToConnect(r)) => if r then 9 else 18
    case Connecting(resuming, r) => (if resuming then 8 else 7) + if r then 0 else 9
    case Touching(_, r) => if r then 6 else 15
    case Holding(_, r) => if r then 6 else 15
    case Using(_, r, _) => if r then 5 else 14
    case Closing(_, _, ToSweep) => 13
    case Closing(_, _, ToUnask) => 4
    case Unasking => 3
    case Unhooking => 2
    case Starting => 3
    case Executing(_) => 2
    case Closing(_, _, ToEnd) => 1
    case Draining(_) => 1
    case Unlocking => 1
    case Ended => 0
  }

  function Load(pc: Pc): nat {
    match pc
    case Closing(victim, keys, _) => 2 * |keys| + if victim.Some? then 1 else 0
    case Draining(victims) => |victims|
    case _ => 0
  }

  predicate Nearer(pc': Pc, pc: Pc) {
    Distance(pc') < Distance(pc) || (Distance(pc') == Distance(pc) && Load(pc') < Load(pc))
  }

  /** The walk over a map is a walk over what is in it. */
  predicate Answerable(s: State, pc: Pc, a: Action) {
    && a.Step? && (pc.Sweeping? ==> Lists(a.order, Expired(s.cache, s.now)))
    && (pc.Draining? && pc.victims != {} ==> a.pick in pc.victims)
  }

  lemma ListAdvances(s: State, th: Caller, a: Action)
    requires WellTyped(th) && (th.pc.Closing? || th.pc.Draining?) && Answerable(s, th.pc, a)
    ensures Nearer(Plan(s, th, a).1, th.pc)
  {
    if th.pc.Draining? && th.pc.victims != {} {
      assert |th.pc.victims - {a.pick}| == |th.pc.victims| - 1;
    }
  }

  lemma PlanAdvances(s: State, th: Caller, a: Action)
    requires WellTyped(th) && !th.pc.Ended? && !th.pc.Closing? && !th.pc.Draining? && Answerable(s, th.pc, a)
    ensures Nearer(Plan(s, th, a).1, th.pc)
  {
  }

  lemma AnyOrder(keys: set<Key>) returns (order: seq<Key>)
    ensures Lists(order, keys)
  {
    order := [];
    var left := keys;
    while left != {}
      invariant left <= keys && forall k :: k in order <==> k in keys && k !in left
      invariant forall i, j :: 0 <= i < j < |order| ==> order[i] != order[j]
      decreases |left|
    {
      var k :| k in left;
      left, order := left - {k}, order + [k];
    }
  }

  /** No caller is ever stuck: it has a step, and every step brings it nearer its end. */
  lemma NeverStuck(s: State, t: Id) returns (a: Action)
    requires Inv(s) && t in s.callers && !s.callers[t].pc.Ended?
    ensures a.Step? && a.t == t && Answerable(s, s.callers[t].pc, a)
    ensures Nearer(Next(s, a).callers[t].pc, s.callers[t].pc)
  {
    var th := s.callers[t];
    var order := AnyOrder(Expired(s.cache, s.now));
    var pick := 0;
    if th.pc.Draining? && th.pc.victims != {} {
      pick :| pick in th.pc.victims;
    }
    a := Step(t, Fine, order, pick);
    assert WellTyped(th);
    if th.pc.Closing? || th.pc.Draining? {
      ListAdvances(s, th, a);
    } else {
      PlanAdvances(s, th, a);
    }
    StepIs(s, a);
  }

  /** From every reachable state, whoever holds what, any caller can be run to its end
      by its own steps alone. */
  lemma {:induction false} CanEnd(before: seq<Action>, t: Id) returns (more: seq<Action>)
    requires t in After(before).callers
    ensures t in After(before + more).callers && After(before + more).callers[t].pc.Ended?
    ensures forall a :: a in more ==> a.Step? && a.t == t
    decreases Distance(After(before).callers[t].pc), Load(After(before).callers[t].pc)
  {
    if After(before).callers[t].pc.Ended? {
      more := [];
      Sequences.Unit(before);
    } else {
      AlwaysInv(before);
      var a := NeverStuck(After(before), t);
      AfterOne(before, a);
      JobStays(After(before), a, t);
      var rest := CanEnd(before + [a], t);
      more := [a] + rest;
      Sequences.Associative(before, [a], rest);
    }
  }
}
