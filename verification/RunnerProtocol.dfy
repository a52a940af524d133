/**
 Every interleaving of the Claude runner's callers over its client cache: turns,
 executions, single closes and shutdown, any number of each over any number of
 keys. One action is one mutex-protected block or one call out to a client.
 A caller names its current step; every fact below holds after every action.
 */
module RunnerProtocol {
  import opened Options
  import opened ClientCache

  type Id = ClientCache.Turn
  datatype Kind = RunTurn | ExecuteOnce | CloseOne | CloseEvery
  /** `budget` is the time a turn is given before its context ends. */
  datatype Job = Job(kind: Kind, key: Key, selection: Selection, resume: bool, hook: bool, budget: nat)

  /** The two budgets by default: of a human-paced turn, and of one that executes. */
  const AGENT_TIMEOUT := 5 * 60 * 1_000_000_000
  const AGENT_EXECUTION_TIMEOUT := 30 * 60 * 1_000_000_000

  /** Where a caller goes on once its list of keys is closed. */
  datatype Then = ToLookup(retried: bool) | ToConnect(retried: bool) | ToSweep | ToUnask | ToEnd

  datatype Pc =
    | Begin | Arming | Hooking | Asking
    | Sweeping(retried: bool)
    | Closing(victim: Option<Client>, keys: seq<Key>, andThen: Then)
    | LookingUp(retried: bool)
    | Touching(client: Client, retried: bool)
    | Connecting(resuming: bool, retried: bool)
    | Holding(client: Client, retried: bool)
    | Using(client: Client, retried: bool, since: Instant)
    | Unasking | Unhooking | Unlocking | Ended
    | Starting
    | Executing(client: Client)
    | Draining(victims: set<Client>)

  datatype Caller = Caller(job: Job, pc: Pc)
  datatype Origin = Origin(key: Key, selection: Selection)

  /** `gone` counts disconnects; `born` records what each connection was made for,
      `began` when a turn's context was made, `listed` when a sweep read the clock. */
  datatype State = State(
    cache: Cache, callers: map<Id, Caller>, gone: multiset<Client>, next: Client, born: map<Client, Origin>,
    began: map<Id, Instant>, listed: map<Id, Instant>, now: Instant)

  const INITIAL := State(EMPTY, map[], multiset{}, 0, map[], map[], map[], 0)

  /** What the outside world answers: a connect or a query may succeed, meet a
      stale session or a dead pipe, or fail; map walks choose an order. */
  datatype Answer = Fine | Stale | Broken
  datatype Action =
    | Spawn(t: Id, job: Job)
    | Tick(d: nat)
    | Step(t: Id, answer: Answer, order: seq<Key>, pick: Client)

  predicate Lists(order: seq<Key>, keys: set<Key>) {
    && (set k | k in order) == keys
    && (forall i, j :: 0 <= i < j < |order| ==> order[i] != order[j])
  }

  function Resume(then_: Then, job: Job): Pc {
    match then_
    case ToLookup(r) => LookingUp(r)
    case ToConnect(r) => Connecting(job.resume, r)
    case ToSweep => Sweeping(true)
    case ToUnask => Unasking
    case ToEnd => Ended
  }

  /** The one change a step makes outside its own caller. */
  datatype Effect =
    | Quiet | Lock | Unlock | Arm | Track | Untrack | Ask | Unask | List
    | Evict(key: Key) | Touch | Store(client: Client) | Clear
    | Connect | Disconnect(client: Client)

  /** What a caller does next, from what it sees under the mutex and is answered. */
  function Plan(s: State, th: Caller, a: Action): (Effect, Pc)
    requires a.Step?
  {
    var c, job, key := s.cache, th.job, th.job.key;
    match th.pc
    case Begin =>
      (match job.kind
       case CloseOne => (Quiet, Closing(None, [key], ToEnd))
       case CloseEvery => (Clear, Draining(c.clients.Values))
       case RunTurn => if key in c.inFlight then (Quiet, Ended) else (Lock, Arming)
       case ExecuteOnce => if key in c.inFlight then (Quiet, Ended) else (Lock, Starting))
    case Arming => (Arm, Hooking)
    case Hooking => (Track, Asking)
    case Asking => (if job.hook then Ask else Quiet, Sweeping(false))
    case Sweeping(r) =>
      if Lists(a.order, Expired(c, s.now)) then (List, Closing(None, a.order, ToLookup(r))) else (Quiet, th.pc)
    case Closing(Some(v), ks, then_) => (Disconnect(v), Closing(None, ks, then_))
    case Closing(None, ks, then_) =>
      if ks == [] then (Quiet, Resume(then_, job))
      else (Evict(ks[0]), Closing(Lookup(c.clients, ks[0]), ks[1..], then_))
    case LookingUp(r) =>
      var found, prior := Lookup(c.clients, key), Lookup(c.selections, key);
      if found.Some? && prior.Some? && prior.value != job.selection then (Quiet, Closing(None, [key], ToConnect(r)))
      else if found.Some? then (Quiet, Touching(found.value, r))
      else (Quiet, Connecting(job.resume, r))
    case Touching(client, r) => (Touch, Using(client, r, s.now))
    case Connecting(resuming, r) =>
      (match a.answer
       case Fine => (Connect, Holding(s.next, r))
       case Stale => (Quiet, if resuming then Connecting(false, r) else Unasking)
       case Broken => (Quiet, Unasking))
    case Holding(client, r) => (Store(client), Using(client, r, s.now))
    case Using(_, r, _) =>
      (match a.answer
       case Fine => (Quiet, Unasking)
       case Stale => (Quiet, if r then Unasking else Closing(None, [key], ToSweep))
       case Broken => (Quiet, Closing(None, [key], ToUnask)))
    case Unasking => (if job.hook then Unask else Quiet, Unhooking)
    case Unhooking => (Untrack, Unlocking)
    case Unlocking => (Unlock, Ended)
    case Starting => if a.answer.Fine? then (Connect, Executing(s.next)) else (Quiet, Unlocking)
    case Executing(client) => (Disconnect(client), Unlocking)
    case Draining(vs) =>
      if vs == {} then (Quiet, Ended)
      else if a.pick in vs then (Disconnect(a.pick), Draining(vs - {a.pick}))
      else (Quiet, th.pc)
    case Ended => (Quiet, Ended)
  }

  function Affected(c: Cache, t: Id, job: Job, e: Effect, now: Instant): Cache {
    match e
    case Lock => c.(inFlight := c.inFlight + {job.key})
    case Unlock => c.(inFlight := c.inFlight - {job.key})
    case Track => c.(trackers := c.trackers[job.key := t])
    case Untrack => c.(trackers := c.trackers - {job.key})
    case Ask => c.(requesters := c.requesters[job.key := t])
    case Unask => c.(requesters := c.requesters - {job.key})
    case Evict(key) => Closed(c, key)
    case Touch => Touched(c, job.key, now)
    case Store(client) => Cached(c, job.key, client, job.selection, now)
    case Clear => Emptied(c)
    case _ => c
  }

  function Moved(s: State, t: Id, e: Effect, pc: Pc): State
    requires t in s.callers
  {
    var job := s.callers[t].job;
    State(
      Affected(s.cache, t, job, e, s.now),
      s.callers[t := Caller(job, pc)],
      if e.Disconnect? then s.gone + multiset{e.client} else s.gone,
      if e.Connect? then s.next + 1 else s.next,
      if e.Connect? then s.born[s.next := Origin(job.key, job.selection)] else s.born,
      if e.Arm? then s.began[t := s.now] else s.began,
      if e.List? then s.listed[t := s.now] else s.listed,
      s.now)
  }

  function Stepped(s: State, t: Id, a: Action): State
    requires a.Step? && t in s.callers
  {
    var (e, pc) := Plan(s, s.callers[t], a);
    Moved(s, t, e, pc)
  }

  function Spawned(s: State, t: Id, job: Job): State {
    s.(callers := s.callers[t := Caller(job, Begin)])
  }

  /** An action that is not enabled changes nothing. */
  function Next(s: State, a: Action): State {
    match a
    case Spawn(t, job) => if t in s.callers then s else Spawned(s, t, job)
    case Tick(d) => s.(now := s.now + d)
    case Step(t, _, _, _) => if t in s.callers then Stepped(s, t, a) else s
  }

  function After(actions: seq<Action>): State {
    if actions == [] then INITIAL else Next(After(actions[..|actions| - 1]), actions[|actions| - 1])
  }

  // ---- The invariant ----

  predicate TurnPc(pc: Pc) {
    || pc.Arming? || pc.Hooking? || pc.Asking? || pc.Sweeping? || pc.LookingUp? || pc.Touching? || pc.Connecting? || pc.Holding?
    || pc.Using? || pc.Unasking? || pc.Unhooking? || (pc.Closing? && !pc.andThen.ToEnd?)
  }

  predicate WellTyped(th: Caller) {
    && (TurnPc(th.pc) ==> th.job.kind.RunTurn?)
    && (th.pc.Starting? || th.pc.Executing? ==> th.job.kind.ExecuteOnce?)
    && (th.pc.Unlocking? ==> th.job.kind.RunTurn? || th.job.kind.ExecuteOnce?)
    && (th.pc.Draining? ==> th.job.kind.CloseEvery?)
    && (th.pc.Closing? && th.pc.andThen.ToEnd? ==> th.job.kind.CloseOne?)
    && (th.pc.Closing? && !th.pc.andThen.ToLookup? ==> th.pc.keys == [] || th.pc.keys == [th.job.key])
  }

  predicate HasLock(th: Caller) {
    (th.job.kind.RunTurn? || th.job.kind.ExecuteOnce?) && !th.pc.Begin? && !th.pc.Ended?
  }

  predicate Hooked(th: Caller) {
    HasLock(th) && th.job.kind.RunTurn? && !th.pc.Arming? && !th.pc.Hooking? && !th.pc.Unlocking?
  }

  predicate Asked(th: Caller) {
    Hooked(th) && th.job.hook && !th.pc.Asking? && !th.pc.Unhooking?
  }

  /** A locked key has at most one holder. */
  ghost predicate Exclusive(callers: map<Id, Caller>, inFlight: set<Key>) {
    && (forall t :: t in callers && HasLock(callers[t]) ==> callers[t].job.key in inFlight)
    && (forall t, u :: t in callers && u in callers && HasLock(callers[t]) && HasLock(callers[u]) ==>
          callers[t].job.key == callers[u].job.key ==> t == u)
  }

  ghost predicate HeldBySome(callers: map<Id, Caller>, k: Key) {
    exists t :: t in callers && HasLock(callers[t]) && callers[t].job.key == k
  }

  ghost predicate Locks(s: State) {
    Exclusive(s.callers, s.cache.inFlight) && forall k :: k in s.cache.inFlight ==> HeldBySome(s.callers, k)
  }

  /** A per-key registration names exactly the registered callers, each under its own key. */
  ghost predicate Routed(m: map<Key, Id>, keyOf: map<Id, Key>) {
    && (forall k :: k in m ==> m[k] in keyOf && keyOf[m[k]] == k)
    && (forall t :: t in keyOf ==> keyOf[t] in m && m[keyOf[t]] == t)
  }

  function HookedKeys(callers: map<Id, Caller>): map<Id, Key> {
    map t | t in callers && Hooked(callers[t]) :: callers[t].job.key
  }

  function AskedKeys(callers: map<Id, Caller>): map<Id, Key> {
    map t | t in callers && Asked(callers[t]) :: callers[t].job.key
  }

  /** An installed tracker or decision hook is the one of the turn holding the key. */
  ghost predicate Hooks(s: State) {
    Routed(s.cache.trackers, HookedKeys(s.callers)) && Routed(s.cache.requesters, AskedKeys(s.callers))
  }

  /** A caller between finding no client and caching its own. */
  predicate Absent(th: Caller) {
    th.pc.Connecting? || th.pc.Holding? || (th.pc.Closing? && th.pc.andThen.ToConnect? && th.pc.keys == [])
  }

  ghost predicate Vacant(s: State) {
    forall t :: t in s.callers && Absent(s.callers[t]) ==> s.callers[t].job.key !in s.cache.clients
  }

  predicate Uses(pc: Pc) {
    pc.Touching? || pc.Holding? || pc.Using?
  }

  ghost predicate Origins(s: State) {
    && (forall c: Client :: c in s.born <==> c < s.next)
    && (forall k :: k in s.cache.clients ==>
          k in s.cache.selections && s.cache.clients[k] in s.born && s.born[s.cache.clients[k]] == Origin(k, s.cache.selections[k]))
    && (forall t :: t in s.callers && Uses(s.callers[t].pc) ==>
          var c := s.callers[t].pc.client; c in s.born && s.born[c] == Origin(s.callers[t].job.key, s.callers[t].job.selection))
  }

  /** The connections a caller alone is responsible for. */
  function Held(pc: Pc): set<Client> {
    match pc
    case Closing(Some(v), _, _) => {v}
    case Holding(c, _) => {c}
    case Executing(c) => {c}
    case Draining(vs) => vs
    case _ => {}
  }

  function Hands(callers: map<Id, Caller>): map<Id, set<Client>> {
    map t | t in callers :: Held(callers[t].pc)
  }

  /** No connection is in two places: cached, in one caller's hands, disconnected. */
  ghost predicate Apart(clients: map<Key, Client>, hands: map<Id, set<Client>>, gone: multiset<Client>, next: Client) {
    && (forall k, l :: k in clients && l in clients && clients[k] == clients[l] ==> k == l)
    && (forall k :: k in clients ==> clients[k] < next && clients[k] !in gone)
    && (forall k, t :: k in clients && t in hands ==> clients[k] !in hands[t])
    && (forall t, c :: t in hands && c in hands[t] ==> c < next)
    && (forall t, c :: t in hands && c in hands[t] ==> c !in gone)
    && (forall t, u, c :: t in hands && u in hands && c in hands[t] && c in hands[u] ==> t == u)
    && (forall c :: c in gone ==> c < next && gone[c] == 1)
  }

  ghost predicate Somewhere(clients: map<Key, Client>, hands: map<Id, set<Client>>, gone: multiset<Client>, c: Client) {
    c in gone || (exists k :: k in clients && clients[k] == c) || (exists t :: t in hands && c in hands[t])
  }

  /** Every connection made is cached under one key, or in the hands of one caller,
      or disconnected once; never two of these. */
  ghost predicate Conserved(s: State) {
    && Apart(s.cache.clients, Hands(s.callers), s.gone, s.next)
    && forall c: Client :: c < s.next ==> Somewhere(s.cache.clients, Hands(s.callers), s.gone, c)
  }

  /** While a turn uses its client, the key's last use is the moment it began to. */
  ghost predicate Stamps(s: State) {
    forall t :: t in s.callers && s.callers[t].pc.Using? && s.callers[t].job.key in s.cache.lastUsed ==>
      s.cache.lastUsed[s.callers[t].job.key] == s.callers[t].pc.since
  }

  /** What a key's holder looked up or cached stays the one cached, if any is. */
  predicate Owns(th: Caller, clients: map<Key, Client>) {
    (th.pc.Touching? || th.pc.Using?) && th.job.key in clients ==> clients[th.job.key] == th.pc.client
  }

  ghost predicate Owned(s: State) {
    forall t :: t in s.callers ==> Owns(s.callers[t], s.cache.clients)
  }

  /** A turn's context is older than its use of a client, and that no younger than now. */
  predicate Timely(th: Caller, began: Option<Instant>, now: Instant) {
    && (TurnPc(th.pc) && !th.pc.Arming? ==> began.Some? && began.value <= now)
    && (th.pc.Using? ==> began.Some? && began.value <= th.pc.since <= now)
  }

  ghost predicate Clocked(s: State) {
    forall t :: t in s.callers ==> Timely(s.callers[t], Lookup(s.began, t), s.now)
  }

  /** The keys a sweep still has to close. */
  function Sweepings(pc: Pc): seq<Key> {
    if pc.Closing? && pc.andThen.ToLookup? then pc.keys else []
  }

  /** A sweep with keys still to close read the clock before. */
  predicate Listed(s: State, t: Id)
    requires t in s.callers
  {
    Sweepings(s.callers[t].pc) != [] ==> t in s.listed && s.listed[t] <= s.now
  }

  ghost predicate Listings(s: State) {
    forall t :: t in s.callers ==> Listed(s, t)
  }

  ghost predicate Typed(s: State) {
    forall t :: t in s.callers ==> WellTyped(s.callers[t])
  }

  ghost predicate Inv(s: State) {
    && Typed(s) && Agree(s.cache) && Locks(s) && Hooks(s) && Vacant(s) && Origins(s) && Conserved(s) && Stamps(s)
    && Owned(s) && Clocked(s) && Listings(s)
  }

  // ---- What a planned step guarantees about its own caller ----

  predicate PlansLocks(s: State, th: Caller, e: Effect, pc: Pc) {
    var th' := Caller(th.job, pc);
    && (HasLock(th') <==> e.Lock? || (HasLock(th) && !e.Unlock?))
    && (e.Lock? ==> th.job.key !in s.cache.inFlight && !HasLock(th))
    && (e.Unlock? ==> HasLock(th))
    && (Hooked(th') <==> e.Track? || (Hooked(th) && !e.Untrack?))
    && (e.Track? ==> HasLock(th))
    && (e.Untrack? ==> Hooked(th))
    && (Asked(th') <==> e.Ask? || (Asked(th) && !e.Unask?))
    && (e.Ask? ==> Hooked(th))
    && (e.Unask? ==> Asked(th))
  }

  predicate PlansClients(s: State, th: Caller, e: Effect, pc: Pc) {
    var th', c, key := Caller(th.job, pc), s.cache, th.job.key;
    && (Absent(th') ==> HasLock(th') && (Absent(th) || key !in c.clients || e == Evict(key)))
    && (e.Store? ==> Absent(th) && HasLock(th) && Held(th.pc) == {e.client} && Uses(th.pc) && th.pc.client == e.client)
    && (e.Touch? ==> HasLock(th))
    && (e.Touch? || e.Store? ==> !Absent(th'))
    && (Uses(pc) ==>
         || (Uses(th.pc) && pc.client == th.pc.client)
         || (e.Connect? && pc.client == s.next)
         || (key in c.clients && key in c.selections && pc.client == c.clients[key] && c.selections[key] == th.job.selection))
    && (pc.Using? ==> HasLock(th) && (e.Touch? || e.Store?) && pc.since == s.now)
  }

  predicate PlansHeld(s: State, th: Caller, e: Effect, pc: Pc) {
    match e
    case Connect => Held(th.pc) == {} && Held(pc) == {s.next}
    case Disconnect(c) => c in Held(th.pc) && Held(pc) == Held(th.pc) - {c}
    case Store(c) => Held(th.pc) == {c} && Held(pc) == {}
    case Evict(k) => Held(th.pc) == {} && Held(pc) == if k in s.cache.clients then {s.cache.clients[k]} else {}
    case Clear => Held(th.pc) == {} && Held(pc) == s.cache.clients.Values
    case _ => Held(pc) == Held(th.pc)
  }

  lemma PlanKeepsType(s: State, th: Caller, a: Action)
    requires a.Step? && WellTyped(th)
    ensures WellTyped(Caller(th.job, Plan(s, th, a).1))
  {
  }

  lemma PlanIsSound(s: State, th: Caller, a: Action)
    requires a.Step? && WellTyped(th)
    ensures var (e, pc) := Plan(s, th, a); PlansLocks(s, th, e, pc) && PlansHeld(s, th, e, pc)
  {
  }

  lemma PlanOwnsClients(s: State, th: Caller, a: Action)
    requires a.Step? && WellTyped(th) && Agree(s.cache)
    ensures var (e, pc) := Plan(s, th, a); PlansClients(s, th, e, pc)
  {
  }

  // ---- Every action keeps the invariant ----

  lemma MovedInFlight(s: State, t: Id, e: Effect, pc: Pc)
    requires t in s.callers
    ensures var key := s.callers[t].job.key;
            Moved(s, t, e, pc).cache.inFlight ==
            if e.Lock? then s.cache.inFlight + {key} else if e.Unlock? then s.cache.inFlight - {key} else s.cache.inFlight
  {
  }

  lemma ExclusiveMove(callers: map<Id, Caller>, inFlight: set<Key>, t: Id, th: Caller, lock: bool, unlock: bool)
    requires Exclusive(callers, inFlight) && t in callers && th.job == callers[t].job && !(lock && unlock)
    requires HasLock(th) <==> lock || (HasLock(callers[t]) && !unlock)
    requires (lock ==> th.job.key !in inFlight) && (unlock ==> HasLock(callers[t]))
    ensures Exclusive(callers[t := th], if lock then inFlight + {th.job.key} else if unlock then inFlight - {th.job.key} else inFlight)
  {
  }

  lemma HeldMove(callers: map<Id, Caller>, t: Id, th: Caller, k: Key)
    requires HeldBySome(callers, k) && t in callers && th.job == callers[t].job
    requires HasLock(callers[t]) && callers[t].job.key == k ==> HasLock(th)
    ensures HeldBySome(callers[t := th], k)
  {
    var u :| u in callers && HasLock(callers[u]) && callers[u].job.key == k;
    assert u in callers[t := th] && HasLock(callers[t := th][u]) && callers[t := th][u].job.key == k;
  }

  lemma MoveKeepsLocks(s: State, t: Id, e: Effect, pc: Pc)
    requires t in s.callers && Locks(s) && PlansLocks(s, s.callers[t], e, pc)
    ensures Locks(Moved(s, t, e, pc))
  {
    var s', th := Moved(s, t, e, pc), Caller(s.callers[t].job, pc);
    MovedInFlight(s, t, e, pc);
    ExclusiveMove(s.callers, s.cache.inFlight, t, th, e.Lock?, e.Unlock?);
    forall k | k in s'.cache.inFlight ensures HeldBySome(s'.callers, k) {
      if k in s.cache.inFlight {
        HeldMove(s.callers, t, th, k);
      } else {
        assert s'.callers[t] == th;
      }
    }
  }

  lemma RoutedMove(m: map<Key, Id>, keyOf: map<Id, Key>, t: Id, key: Key, add: bool, remove: bool)
    requires Routed(m, keyOf) && !(add && remove)
    requires add ==> (forall u :: u in keyOf && keyOf[u] == key ==> u == t) && (t in keyOf ==> keyOf[t] == key)
    requires remove ==> t in keyOf && keyOf[t] == key
    ensures Routed(if add then m[key := t] else if remove then m - {key} else m,
                   if add then keyOf[t := key] else if remove then keyOf - {t} else keyOf)
  {
  }

  lemma KeysAfter(callers: map<Id, Caller>, t: Id, th: Caller)
    requires t in callers && th.job == callers[t].job
    ensures HookedKeys(callers[t := th]) ==
            if Hooked(th) then HookedKeys(callers)[t := th.job.key] else HookedKeys(callers) - {t}
    ensures AskedKeys(callers[t := th]) ==
            if Asked(th) then AskedKeys(callers)[t := th.job.key] else AskedKeys(callers) - {t}
  {
  }

  lemma KeysSame(callers: map<Id, Caller>, t: Id)
    requires t in callers
    ensures Hooked(callers[t]) ==> HookedKeys(callers)[t := callers[t].job.key] == HookedKeys(callers)
    ensures !Hooked(callers[t]) ==> HookedKeys(callers) - {t} == HookedKeys(callers)
    ensures Asked(callers[t]) ==> AskedKeys(callers)[t := callers[t].job.key] == AskedKeys(callers)
    ensures !Asked(callers[t]) ==> AskedKeys(callers) - {t} == AskedKeys(callers)
  {
  }

  lemma MoveKeepsHooks(s: State, t: Id, e: Effect, pc: Pc)
    requires t in s.callers && Locks(s) && Hooks(s) && PlansLocks(s, s.callers[t], e, pc)
    ensures Hooks(Moved(s, t, e, pc))
  {
    var s', th, key := Moved(s, t, e, pc), Caller(s.callers[t].job, pc), s.callers[t].job.key;
    assert s'.callers == s.callers[t := th];
    KeysAfter(s.callers, t, th);
    KeysSame(s.callers, t);
    RoutedMove(s.cache.trackers, HookedKeys(s.callers), t, key, e.Track?, e.Untrack?);
    RoutedMove(s.cache.requesters, AskedKeys(s.callers), t, key, e.Ask?, e.Unask?);
  }

  lemma MoveKeepsVacancy(s: State, t: Id, e: Effect, pc: Pc)
    requires t in s.callers && Locks(s) && Vacant(s) && PlansClients(s, s.callers[t], e, pc)
    requires forall u :: u in s.callers && Absent(s.callers[u]) ==> HasLock(s.callers[u])
    ensures Vacant(Moved(s, t, e, pc))
  {
  }

  lemma MoveKeepsOrigins(s: State, t: Id, e: Effect, pc: Pc)
    requires t in s.callers && Origins(s) && PlansClients(s, s.callers[t], e, pc)
    ensures Origins(Moved(s, t, e, pc))
  {
  }

  lemma MoveKeepsStamps(s: State, t: Id, e: Effect, pc: Pc)
    requires t in s.callers && Locks(s) && Stamps(s) && PlansClients(s, s.callers[t], e, pc)
    requires forall u :: u in s.callers ==> WellTyped(s.callers[u])
    ensures Stamps(Moved(s, t, e, pc))
  {
  }

  predicate PlansOwn(s: State, th: Caller, e: Effect, pc: Pc) {
    && (e.Store? ==> HasLock(th))
    && (pc.Touching? || pc.Using? ==>
          if e.Store? then pc.client == e.client
          else || ((th.pc.Touching? || th.pc.Using?) && pc.client == th.pc.client)
               || (th.job.key in s.cache.clients && pc.client == s.cache.clients[th.job.key]))
  }

  lemma PlanOwnsItsKey(s: State, th: Caller, a: Action)
    requires a.Step? && WellTyped(th)
    ensures var (e, pc) := Plan(s, th, a); PlansOwn(s, th, e, pc)
  {
  }

  lemma MoveKeepsOwned(s: State, t: Id, e: Effect, pc: Pc)
    requires t in s.callers && Locks(s) && Owned(s) && Typed(s) && PlansOwn(s, s.callers[t], e, pc)
    ensures Owned(Moved(s, t, e, pc))
  {
    var s' := Moved(s, t, e, pc);
    forall u | u in s'.callers ensures Owns(s'.callers[u], s'.cache.clients) {
      assert Owns(s.callers[u], s.cache.clients);
      MovedClients(s.cache, t, s.callers[t].job, e, s.now, s.callers[u].job.key);
      if u != t && e.Store? && (s.callers[u].pc.Touching? || s.callers[u].pc.Using?) {
        OneHolder(s, t, u);
      }
    }
  }

  /** What an effect does to the client cached under one key. */
  lemma MovedClients(c: Cache, t: Id, job: Job, e: Effect, now: Instant, k: Key)
    ensures var c' := Affected(c, t, job, e, now);
            k in c'.clients ==>
              if e.Store? && k == job.key then c'.clients[k] == e.client else k in c.clients && c'.clients[k] == c.clients[k]
  {
  }

  lemma OneHolder(s: State, t: Id, u: Id)
    requires Locks(s) && t in s.callers && u in s.callers && t != u && HasLock(s.callers[t]) && HasLock(s.callers[u])
    ensures s.callers[t].job.key != s.callers[u].job.key
  {
  }

  predicate PlansClock(s: State, th: Caller, e: Effect, pc: Pc) {
    && (TurnPc(pc) && !pc.Arming? ==> e.Arm? || (TurnPc(th.pc) && !th.pc.Arming?))
    && (pc.Using? ==> pc.since == s.now && TurnPc(th.pc) && !th.pc.Arming?)
  }

  predicate PlansSweep(s: State, th: Caller, e: Effect, pc: Pc) {
    if e.List? then forall k :: k in Sweepings(pc) ==> k in Expired(s.cache, s.now)
    else forall k :: k in Sweepings(pc) ==> k in Sweepings(th.pc)
  }

  lemma PlanReadsTheClock(s: State, th: Caller, a: Action)
    requires a.Step? && WellTyped(th)
    ensures var (e, pc) := Plan(s, th, a); PlansClock(s, th, e, pc) && PlansSweep(s, th, e, pc)
  {
    if th.pc.Sweeping? && Lists(a.order, Expired(s.cache, s.now)) {
      assert forall k :: k in a.order <==> k in (set x | x in a.order);
    }
  }

  lemma MoveKeepsClock(s: State, t: Id, e: Effect, pc: Pc)
    requires t in s.callers && Clocked(s) && PlansClock(s, s.callers[t], e, pc)
    ensures Clocked(Moved(s, t, e, pc))
  {
    assert Timely(s.callers[t], Lookup(s.began, t), s.now);
  }

  lemma MoveKeepsListings(s: State, t: Id, e: Effect, pc: Pc)
    requires t in s.callers && Listings(s) && PlansSweep(s, s.callers[t], e, pc)
    ensures Listings(Moved(s, t, e, pc))
  {
    var s' := Moved(s, t, e, pc);
    forall u | u in s'.callers ensures Listed(s', u) {
      assert Listed(s, u);
      if u == t && Sweepings(pc) != [] {
        assert Sweepings(pc)[0] in Sweepings(pc);
      }
    }
  }

  lemma MoveKeepsAgreement(s: State, t: Id, e: Effect, pc: Pc)
    requires t in s.callers && Agree(s.cache) && Conserved(s) && PlansHeld(s, s.callers[t], e, pc)
    ensures Agree(Moved(s, t, e, pc).cache)
  {
    var job := s.callers[t].job;
    if e.Store? {
      assert Hands(s.callers)[t] == Held(s.callers[t].pc) && e.client in Hands(s.callers)[t];
      StoreAgrees(s.cache, job.key, e.client, job.selection, s.now);
    } else {
      EffectAgrees(s.cache, t, job, e, s.now);
    }
  }

  lemma StoreAgrees(c: Cache, key: Key, client: Client, selection: Selection, now: Instant)
    requires Agree(c) && forall k :: k in c.clients ==> c.clients[k] != client
    ensures Agree(Cached(c, key, client, selection, now))
  {
  }

  lemma EffectAgrees(c: Cache, t: Id, job: Job, e: Effect, now: Instant)
    requires Agree(c) && !e.Store?
    ensures Agree(Affected(c, t, job, e, now))
  {
  }

  lemma ApartConnect(clients: map<Key, Client>, hands: map<Id, set<Client>>, gone: multiset<Client>, next: Client, t: Id)
    requires Apart(clients, hands, gone, next) && t in hands && hands[t] == {}
    ensures Apart(clients, hands[t := {next}], gone, next + 1)
  {
  }

  lemma ApartDisconnect(clients: map<Key, Client>, hands: map<Id, set<Client>>, gone: multiset<Client>, next: Client, t: Id, c: Client)
    requires Apart(clients, hands, gone, next) && t in hands && c in hands[t]
    ensures Apart(clients, hands[t := hands[t] - {c}], gone + multiset{c}, next)
  {
  }

  lemma ApartStore(clients: map<Key, Client>, hands: map<Id, set<Client>>, gone: multiset<Client>, next: Client, t: Id, k: Key, c: Client)
    requires Apart(clients, hands, gone, next) && t in hands && hands[t] == {c}
    ensures Apart(clients[k := c], hands[t := {}], gone, next)
  {
    assert c in hands[t];
    assert c !in gone;
  }

  lemma ApartEvict(clients: map<Key, Client>, hands: map<Id, set<Client>>, gone: multiset<Client>, next: Client, t: Id, k: Key)
    requires Apart(clients, hands, gone, next) && t in hands && hands[t] == {}
    ensures Apart(if k in clients then clients - {k} else clients, hands[t := if k in clients then {clients[k]} else {}], gone, next)
  {
  }

  lemma ApartClear(clients: map<Key, Client>, hands: map<Id, set<Client>>, gone: multiset<Client>, next: Client, t: Id)
    requires Apart(clients, hands, gone, next) && t in hands && hands[t] == {}
    ensures Apart(map[], hands[t := clients.Values], gone, next)
  {
  }

  lemma HandsAfter(callers: map<Id, Caller>, t: Id, th: Caller)
    requires t in callers
    ensures Hands(callers[t := th]) == Hands(callers)[t := Held(th.pc)]
    ensures Held(th.pc) == Held(callers[t].pc) ==> Hands(callers[t := th]) == Hands(callers)
  {
  }

  lemma MoveKeepsApart(s: State, t: Id, e: Effect, pc: Pc)
    requires t in s.callers && Apart(s.cache.clients, Hands(s.callers), s.gone, s.next)
    requires PlansHeld(s, s.callers[t], e, pc)
    ensures var s' := Moved(s, t, e, pc); Apart(s'.cache.clients, Hands(s'.callers), s'.gone, s'.next)
  {
    var clients, hands := s.cache.clients, Hands(s.callers);
    HandsAfter(s.callers, t, Caller(s.callers[t].job, pc));
    match e
    case Connect => ApartConnect(clients, hands, s.gone, s.next, t);
    case Disconnect(c) => ApartDisconnect(clients, hands, s.gone, s.next, t, c);
    case Store(c) => ApartStore(clients, hands, s.gone, s.next, t, s.callers[t].job.key, c);
    case Evict(k) => ApartEvict(clients, hands, s.gone, s.next, t, k);
    case Clear => ApartClear(clients, hands, s.gone, s.next, t);
    case _ =>
  }

  lemma MoveLosesNone(s: State, t: Id, e: Effect, pc: Pc, c: Client)
    requires t in s.callers && Conserved(s) && PlansHeld(s, s.callers[t], e, pc)
    requires e.Store? ==> s.callers[t].job.key !in s.cache.clients
    requires c < Moved(s, t, e, pc).next
    ensures var s' := Moved(s, t, e, pc); Somewhere(s'.cache.clients, Hands(s'.callers), s'.gone, c)
  {
    var s' := Moved(s, t, e, pc);
    var clients, hands, clients', hands' := s.cache.clients, Hands(s.callers), s'.cache.clients, Hands(s'.callers);
    HandsAfter(s.callers, t, Caller(s.callers[t].job, pc));
    if c == s.next {
      assert c in s.gone || c in hands'[t] || c < s.next;
    } else {
      assert Somewhere(clients, hands, s.gone, c);
      if k :| k in clients && clients[k] == c {
        assert (k in clients' && clients'[k] == c) || c in hands'[t];
      } else if u :| u in hands && c in hands[u] {
        if e.Store? && u == t {
          assert clients'[s.callers[t].job.key] == c;
        } else {
          assert c in s'.gone || c in hands'[u];
        }
      }
    }
  }

  /** The caching step never replaces a live entry. */
  lemma MoveConserves(s: State, t: Id, e: Effect, pc: Pc)
    requires t in s.callers && Vacant(s) && Conserved(s)
    requires PlansHeld(s, s.callers[t], e, pc) && PlansClients(s, s.callers[t], e, pc)
    ensures Conserved(Moved(s, t, e, pc))
  {
    MoveKeepsApart(s, t, e, pc);
    forall c: Client | c < Moved(s, t, e, pc).next
      ensures var s' := Moved(s, t, e, pc); Somewhere(s'.cache.clients, Hands(s'.callers), s'.gone, c)
    {
      MoveLosesNone(s, t, e, pc, c);
    }
  }

  lemma StepKeepsShared(s: State, t: Id, a: Action)
    requires Inv(s) && a.Step? && t in s.callers
    ensures var s' := Stepped(s, t, a); Typed(s') && Agree(s'.cache) && Locks(s') && Hooks(s') && Conserved(s')
  {
    var th := s.callers[t];
    var (e, pc) := Plan(s, th, a);
    PlanKeepsType(s, th, a);
    PlanIsSound(s, th, a);
    PlanOwnsClients(s, th, a);
    MoveKeepsLocks(s, t, e, pc);
    MoveKeepsHooks(s, t, e, pc);
    MoveKeepsAgreement(s, t, e, pc);
    MoveConserves(s, t, e, pc);
  }

  lemma StepKeepsClients(s: State, t: Id, a: Action)
    requires Inv(s) && a.Step? && t in s.callers
    ensures var s' := Stepped(s, t, a); Vacant(s') && Origins(s') && Stamps(s') && Owned(s')
  {
    var th := s.callers[t];
    var (e, pc) := Plan(s, th, a);
    PlanOwnsClients(s, th, a);
    PlanOwnsItsKey(s, th, a);
    MoveKeepsVacancy(s, t, e, pc);
    MoveKeepsOrigins(s, t, e, pc);
    MoveKeepsStamps(s, t, e, pc);
    MoveKeepsOwned(s, t, e, pc);
  }

  lemma StepKeepsTimes(s: State, t: Id, a: Action)
    requires Inv(s) && a.Step? && t in s.callers
    ensures var s' := Stepped(s, t, a); Clocked(s') && Listings(s')
  {
    var th := s.callers[t];
    var (e, pc) := Plan(s, th, a);
    PlanReadsTheClock(s, th, a);
    MoveKeepsClock(s, t, e, pc);
    MoveKeepsListings(s, t, e, pc);
  }

  lemma StepKeepsInv(s: State, t: Id, a: Action)
    requires Inv(s) && a.Step? && t in s.callers
    ensures Inv(Stepped(s, t, a))
  {
    StepKeepsShared(s, t, a);
    StepKeepsClients(s, t, a);
    StepKeepsTimes(s, t, a);
  }

  lemma NextKeepsInv(s: State, a: Action)
    requires Inv(s)
    ensures Inv(Next(s, a))
  {
    match a
    case Spawn(t, job) =>
      if t !in s.callers {
        SpawnKeepsInv(s, t, job);
      }
    case Tick(d) => TickKeepsInv(s, d);
    case Step(t, _, _, _) =>
      if t in s.callers {
        StepKeepsInv(s, t, a);
      }
  }

  lemma SpawnKeepsLocks(s: State, t: Id, job: Job)
    requires Locks(s) && t !in s.callers
    ensures Locks(Spawned(s, t, job))
  {
    var s' := Spawned(s, t, job);
    forall k | k in s'.cache.inFlight ensures HeldBySome(s'.callers, k) {
      var u :| u in s.callers && HasLock(s.callers[u]) && s.callers[u].job.key == k;
      assert u in s'.callers && s'.callers[u] == s.callers[u];
    }
  }

  lemma SpawnConserves(s: State, t: Id, job: Job)
    requires Conserved(s) && t !in s.callers
    ensures Conserved(Spawned(s, t, job))
  {
    var s' := Spawned(s, t, job);
    assert Hands(s'.callers) == Hands(s.callers)[t := {}];
    forall c: Client | c < s.next ensures Somewhere(s.cache.clients, Hands(s'.callers), s.gone, c) {
      assert Somewhere(s.cache.clients, Hands(s.callers), s.gone, c);
      if u :| u in Hands(s.callers) && c in Hands(s.callers)[u] {
        assert c in Hands(s'.callers)[u];
      }
    }
  }

  lemma SpawnKeepsHooks(s: State, t: Id, job: Job)
    requires Hooks(s) && t !in s.callers
    ensures Hooks(Spawned(s, t, job))
  {
    var s' := Spawned(s, t, job);
    assert HookedKeys(s'.callers) == HookedKeys(s.callers);
    assert AskedKeys(s'.callers) == AskedKeys(s.callers);
  }

  lemma SpawnKeepsCallers(s: State, t: Id, job: Job)
    requires Typed(s) && Vacant(s) && Origins(s) && Stamps(s) && t !in s.callers
    ensures var s' := Spawned(s, t, job); Typed(s') && Vacant(s') && Origins(s') && Stamps(s')
  {
  }

  lemma SpawnKeepsTimes(s: State, t: Id, job: Job)
    requires Owned(s) && Clocked(s) && Listings(s) && t !in s.callers
    ensures var s' := Spawned(s, t, job); Owned(s') && Clocked(s') && Listings(s')
  {
    var s' := Spawned(s, t, job);
    forall u | u in s'.callers ensures Listed(s', u) && Timely(s'.callers[u], Lookup(s'.began, u), s'.now) {
      if u != t {
        assert Listed(s, u) && Timely(s.callers[u], Lookup(s.began, u), s.now);
      }
    }
  }

  lemma TickKeepsInv(s: State, d: nat)
    requires Inv(s)
    ensures Inv(s.(now := s.now + d))
  {
    var s' := s.(now := s.now + d);
    forall u | u in s'.callers ensures Listed(s', u) && Timely(s'.callers[u], Lookup(s'.began, u), s'.now) {
      assert Listed(s, u) && Timely(s.callers[u], Lookup(s.began, u), s.now);
    }
  }

  lemma SpawnKeepsInv(s: State, t: Id, job: Job)
    requires Inv(s) && t !in s.callers
    ensures Inv(Spawned(s, t, job))
  {
    SpawnKeepsLocks(s, t, job);
    SpawnConserves(s, t, job);
    SpawnKeepsHooks(s, t, job);
    SpawnKeepsCallers(s, t, job);
    SpawnKeepsTimes(s, t, job);
  }

  lemma {:induction false} AlwaysInv(actions: seq<Action>)
    ensures Inv(After(actions))
  {
    if actions != [] {
      AlwaysInv(actions[..|actions| - 1]);
      NextKeepsInv(After(actions[..|actions| - 1]), actions[|actions| - 1]);
    }
  }

  // ---- What every run guarantees ----

  lemma OnePlace(clients: map<Key, Client>, hands: map<Id, set<Client>>, gone: multiset<Client>, next: Client, c: Client)
    requires Apart(clients, hands, gone, next) && Somewhere(clients, hands, gone, c)
    ensures |set k | k in clients && clients[k] == c| + |set t | t in hands && c in hands[t]| + gone[c] == 1
  {
    var keys, holders := set k | k in clients && clients[k] == c, set t | t in hands && c in hands[t];
    if k :| k in clients && clients[k] == c {
      assert keys == {k} && holders == {};
    } else if t :| t in hands && c in hands[t] {
      assert keys == {} && holders == {t};
    } else {
      assert keys == {} && holders == {};
    }
  }

  /** Each connection is cached under one key, held by one caller, or was
      disconnected once: these counts always add up to one. */
  lemma ConnectionsAreConserved(actions: seq<Action>, c: Client)
    requires c < After(actions).next
    ensures var s := After(actions);
            var hands := Hands(s.callers);
            |set k | k in s.cache.clients && s.cache.clients[k] == c| + |set t | t in hands && c in hands[t]| + s.gone[c] == 1
  {
    AlwaysInv(actions);
    var s := After(actions);
    OnePlace(s.cache.clients, Hands(s.callers), s.gone, s.next, c);
  }

  lemma CachingNeverOverwrites(actions: seq<Action>, t: Id)
    requires t in After(actions).callers && After(actions).callers[t].pc.Holding?
    ensures After(actions).callers[t].job.key !in After(actions).cache.clients
  {
    AlwaysInv(actions);
    assert Absent(After(actions).callers[t]);
  }

  lemma MapsAlwaysAgree(actions: seq<Action>)
    ensures Agree(After(actions).cache)
  {
    AlwaysInv(actions);
  }

  /** Two callers never hold one key at once, no key stays locked without a holder,
      and what a client's callbacks find under a key is its holder's own or nothing. */
  lemma HooksBelongToTheHolder(actions: seq<Action>, t: Id)
    requires t in After(actions).callers && HasLock(After(actions).callers[t])
    ensures var s := After(actions);
            var key := s.callers[t].job.key;
            && key in s.cache.inFlight
            && (forall u :: u in s.callers && HasLock(s.callers[u]) && s.callers[u].job.key == key ==> u == t)
            && (Lookup(s.cache.trackers, key) == if Hooked(s.callers[t]) then Some(t) else None)
            && (Lookup(s.cache.requesters, key) == if Asked(s.callers[t]) then Some(t) else None)
  {
    AlwaysInv(actions);
    var s := After(actions);
    assert HasLock(s.callers[t]);
    assert forall k :: k in s.cache.trackers ==> s.cache.trackers[k] in HookedKeys(s.callers);
    assert forall k :: k in s.cache.requesters ==> s.cache.requesters[k] in AskedKeys(s.callers);
    assert Hooked(s.callers[t]) ==> t in HookedKeys(s.callers);
    assert Asked(s.callers[t]) ==> t in AskedKeys(s.callers);
  }

  /** Between turns a key has no tracker and no decision hook. */
  lemma NothingInstalledBetweenTurns(actions: seq<Action>, key: Key)
    requires key !in After(actions).cache.inFlight
    ensures key !in After(actions).cache.trackers && key !in After(actions).cache.requesters
  {
    AlwaysInv(actions);
    var s := After(actions);
    assert forall k :: k in s.cache.trackers ==> s.cache.trackers[k] in HookedKeys(s.callers);
    assert forall k :: k in s.cache.requesters ==> s.cache.requesters[k] in AskedKeys(s.callers);
  }

  /** A turn only ever talks through a connection made for its own key and selection,
      the one cached for its key if any still is. */
  lemma ClientMatchesTurn(actions: seq<Action>, t: Id)
    requires t in After(actions).callers && After(actions).callers[t].pc.Using?
    ensures var s := After(actions);
            var th := s.callers[t];
            && th.pc.client in s.born && s.born[th.pc.client] == Origin(th.job.key, th.job.selection)
            && (th.job.key in s.cache.clients ==> s.cache.clients[th.job.key] == th.pc.client)
  {
    AlwaysInv(actions);
    assert Uses(After(actions).callers[t].pc) && Owns(After(actions).callers[t], After(actions).cache.clients);
  }

  /** Last uses and clients keep one domain, except through one step: a touch
      that lands after the looked-up client was closed. */
  lemma StampWithoutClient(s: State, t: Id, e: Effect, pc: Pc)
    requires t in s.callers && Agree(s.cache) && s.cache.lastUsed.Keys == s.cache.clients.Keys
    ensures var s' := Moved(s, t, e, pc);
            s'.cache.lastUsed.Keys == s'.cache.clients.Keys <==> !(e.Touch? && s.callers[t].job.key !in s.cache.clients)
  {
    var s', key := Moved(s, t, e, pc), s.callers[t].job.key;
    if e.Touch? {
      assert s'.cache.lastUsed.Keys == s.cache.clients.Keys + {key};
    }
  }

  // ---- The idle sweep and clients in use ----

  /** A turn is using the client cached for its key. */
  predicate InUse(s: State, t: Id) {
    t in s.callers && s.callers[t].pc.Using? && s.callers[t].job.key in s.cache.clients
  }

  /** Its context has not ended yet. */
  predicate WithinBudget(s: State, t: Id) {
    t in s.callers && t in s.began && s.now - s.began[t] <= s.callers[t].job.budget
  }

  /** A sweep lists a client in use exactly while its turn is old: only the moment
      the turn began counts, not that it still runs. */
  lemma SweepTakesClientInUse(actions: seq<Action>, t: Id)
    requires InUse(After(actions), t)
    ensures var s := After(actions);
            var th := s.callers[t];
            th.job.key in Expired(s.cache, s.now) <==> s.now - th.pc.since > SESSION_IDLE_TIMEOUT
  {
    AlwaysInv(actions);
  }

  /** In this state a sweep would list a client in use by a turn within this budget. */
  predicate ListsEarly(s: State, t: Id, budget: nat) {
    InUse(s, t) && s.callers[t].job.budget == budget && WithinBudget(s, t) && s.callers[t].job.key in Expired(s.cache, s.now)
  }

  ghost predicate Spared(budget: nat) {
    forall actions, t :: !ListsEarly(After(actions), t, budget)
  }

  lemma ShortBudgetIsSpared(actions: seq<Action>, t: Id, budget: nat)
    requires budget <= SESSION_IDLE_TIMEOUT
    ensures !ListsEarly(After(actions), t, budget)
  {
    var s := After(actions);
    AlwaysInv(actions);
    if InUse(s, t) {
      SweepTakesClientInUse(actions, t);
      assert Timely(s.callers[t], Lookup(s.began, t), s.now);
    }
  }

  /** No sweep ever lists a client in use within its turn's budget, in any interleaving,
      if and only if that budget is no longer than the idle timeout. */
  lemma SparedExactly(budget: nat)
    ensures Spared(budget) <==> budget <= SESSION_IDLE_TIMEOUT
  {
    if budget <= SESSION_IDLE_TIMEOUT {
      forall actions, t ensures !ListsEarly(After(actions), t, budget) { ShortBudgetIsSpared(actions, t, budget); }
    } else {
      var run, s := LongTurnIsListed(budget);
      assert ListsEarly(After(run), 0, budget);
    }
  }

  /** So neither budget a turn has by default is ever cut short by a listing. */
  lemma DefaultsAreSpared()
    ensures Spared(AGENT_TIMEOUT) && Spared(AGENT_EXECUTION_TIMEOUT)
  {
    SparedExactly(AGENT_TIMEOUT);
    SparedExactly(AGENT_EXECUTION_TIMEOUT);
  }

  /** A sweep still has this client in use to close, and not because its turn was
      already older than the idle timeout when it was listed. */
  predicate Exposed(s: State, u: Id, t: Id) {
    && u in s.callers && InUse(s, t) && s.callers[t].job.key in Sweepings(s.callers[u].pc)
    && !(u in s.listed && s.listed[u] - s.callers[t].pc.since > SESSION_IDLE_TIMEOUT)
  }

  /** Every client a sweep still has to close was last used as long ago as when listed. */
  ghost predicate ListedFairly(s: State, u: Id)
    requires u in s.callers
  {
    forall k :: k in Sweepings(s.callers[u].pc) && k in s.cache.clients ==>
      u in s.listed && k in s.cache.lastUsed && s.listed[u] - s.cache.lastUsed[k] > SESSION_IDLE_TIMEOUT
  }

  ghost predicate Fair(s: State) {
    forall u :: u in s.callers ==> ListedFairly(s, u)
  }

  predicate ListedBySome(s: State, key: Key) {
    exists u :: u in s.callers && key in Sweepings(s.callers[u].pc)
  }

  /** This step makes the client cached under the key one in use. */
  predicate TakesUp(c: Cache, key: Key, e: Effect) {
    e.Store? || (e.Touch? && key in c.clients)
  }

  /** A turn takes up a client under a key that some sweep has listed and not closed. */
  predicate TakesUpListed(s: State, a: Action) {
    && a.Step? && a.t in s.callers
    && var key := s.callers[a.t].job.key;
       TakesUp(s.cache, key, Plan(s, s.callers[a.t], a).0) && ListedBySome(s, key)
  }

  lemma ClientsAfter(c: Cache, t: Id, job: Job, e: Effect, now: Instant, k: Key)
    requires Agree(c) && k in Affected(c, t, job, e, now).clients
    ensures var c' := Affected(c, t, job, e, now);
            (TakesUp(c, job.key, e) && k == job.key) ||
            (k in c.clients && k in c'.lastUsed && c'.lastUsed[k] == c.lastUsed[k])
  {
  }

  lemma MoveKeepsListFair(s: State, t: Id, e: Effect, pc: Pc, u: Id)
    requires t in s.callers && u in s.callers && ListedFairly(s, u) && PlansSweep(s, s.callers[t], e, pc) && Agree(s.cache)
    requires TakesUp(s.cache, s.callers[t].job.key, e) ==> !ListedBySome(s, s.callers[t].job.key)
    ensures ListedFairly(Moved(s, t, e, pc), u)
  {
    var s' := Moved(s, t, e, pc);
    forall k | k in Sweepings(s'.callers[u].pc) && k in s'.cache.clients
      ensures u in s'.listed && k in s'.cache.lastUsed && s'.listed[u] - s'.cache.lastUsed[k] > SESSION_IDLE_TIMEOUT
    {
      ClientsAfter(s.cache, t, s.callers[t].job, e, s.now, k);
      if !(u == t && e.List?) {
        assert k in Sweepings(s.callers[u].pc);
      }
    }
  }

  lemma FairUnlessTaken(s: State, a: Action)
    requires Inv(s) && Fair(s) && !TakesUpListed(s, a)
    ensures Fair(Next(s, a))
  {
    var s' := Next(s, a);
    if a.Step? && a.t in s.callers {
      PlanReadsTheClock(s, s.callers[a.t], a);
      var (e, pc) := Plan(s, s.callers[a.t], a);
      forall u | u in s'.callers ensures ListedFairly(s', u) {
        assert ListedFairly(s, u);
        MoveKeepsListFair(s, a.t, e, pc, u);
      }
    } else {
      forall u | u in s'.callers ensures ListedFairly(s', u) {
        if u in s.callers {
          assert ListedFairly(s, u);
        }
      }
    }
  }

  /** Touching and storing leave the turn using what is cached, stamped just now. */
  lemma TakesUpNow(s: State, t: Id, a: Action)
    requires t in s.callers && a.Step? && TakesUp(s.cache, s.callers[t].job.key, Plan(s, s.callers[t], a).0)
    ensures Sweepings(s.callers[t].pc) == []
    ensures var s' := Stepped(s, t, a); InUse(s', t) && s'.callers[t].pc.since == s.now && s'.listed == s.listed
  {
  }

  /** A taken-up key on a sweep's list is a client in use on it from the next step on. */
  lemma TakenIsExposed(s: State, a: Action) returns (u: Id)
    requires Listings(s) && TakesUpListed(s, a)
    ensures Exposed(Next(s, a), u, a.t)
  {
    var key := s.callers[a.t].job.key;
    TakesUpNow(s, a.t, a);
    u :| u in s.callers && key in Sweepings(s.callers[u].pc);
    assert u != a.t && Next(s, a).callers[u] == s.callers[u];
    assert Listed(s, u);
  }

  lemma FairExposesNone(s: State, u: Id, t: Id)
    requires Inv(s) && Fair(s)
    ensures !Exposed(s, u, t)
  {
    if u in s.callers && InUse(s, t) {
      assert ListedFairly(s, u);
      assert s.callers[t].job.key in s.cache.lastUsed ==> s.cache.lastUsed[s.callers[t].job.key] == s.callers[t].pc.since;
    }
  }

  ghost predicate NeverExposed(actions: seq<Action>) {
    forall n, u, t :: 0 <= n <= |actions| ==> !Exposed(After(actions[..n]), u, t)
  }

  predicate NeverTakesUpListed(actions: seq<Action>) {
    forall n :: 0 <= n < |actions| ==> !TakesUpListed(After(actions[..n]), actions[n])
  }

  lemma AfterStep(actions: seq<Action>, n: nat)
    requires n < |actions|
    ensures After(actions[..n + 1]) == Next(After(actions[..n]), actions[n])
  {
    assert actions[..n + 1][..n] == actions[..n];
  }

  lemma {:induction false} FairUpTo(actions: seq<Action>, n: nat)
    requires NeverTakesUpListed(actions) && n <= |actions|
    ensures Fair(After(actions[..n]))
  {
    if n > 0 {
      FairUpTo(actions, n - 1);
      AfterStep(actions, n - 1);
      AlwaysInv(actions[..n - 1]);
      FairUnlessTaken(After(actions[..n - 1]), actions[n - 1]);
    }
  }

  /** A sweep does not look again before it closes. Over a whole run, no sweep ever has a
      client in use to close, but for turns older than the idle timeout when listed, if
      and only if no turn ever takes up a key that is still on some sweep's list. */
  lemma SweepsSpareExactly(actions: seq<Action>)
    ensures NeverExposed(actions) <==> NeverTakesUpListed(actions)
  {
    if NeverTakesUpListed(actions) {
      forall n, u, t | 0 <= n <= |actions| ensures !Exposed(After(actions[..n]), u, t) {
        FairUpTo(actions, n);
        AlwaysInv(actions[..n]);
        FairExposesNone(After(actions[..n]), u, t);
      }
    }
    if n :| 0 <= n < |actions| && TakesUpListed(After(actions[..n]), actions[n]) {
      AlwaysInv(actions[..n]);
      AfterStep(actions, n);
      var u := TakenIsExposed(After(actions[..n]), actions[n]);
      assert Exposed(After(actions[..n + 1]), u, actions[n].t);
    }
  }

  /** Within a budget up to the idle timeout every client in use on a sweep's list is
      exposed: its turn cannot have been that old. */
  lemma ListedWithinBudgetIsExposed(actions: seq<Action>, u: Id, t: Id)
    requires u in After(actions).callers && InUse(After(actions), t) && WithinBudget(After(actions), t)
    requires After(actions).callers[t].job.budget <= SESSION_IDLE_TIMEOUT
    ensures Exposed(After(actions), u, t) <==> After(actions).callers[t].job.key in Sweepings(After(actions).callers[u].pc)
  {
    AlwaysInv(actions);
    var s := After(actions);
    assert Listed(s, u) && Timely(s.callers[t], Lookup(s.began, t), s.now);
  }

  // ---- Runs the source allows ----

  const SONNET := Selection("sonnet", "high")

  function Turn(key: Key, budget: nat): Job {
    Job(RunTurn, key, SONNET, false, false, budget)
  }

  function Fine1(t: Id): Action {
    Step(t, Fine, [], 0)
  }

  lemma AfterOne(actions: seq<Action>, a: Action)
    ensures After(actions + [a]) == Next(After(actions), a)
  {
    assert (actions + [a])[..|actions|] == actions;
  }

  function With(s: State, t: Id, pc: Pc, cache: Cache): State
    requires t in s.callers
  {
    s.(callers := s.callers[t := Caller(s.callers[t].job, pc)], cache := cache)
  }

  /** Two steps of one caller leave it where the second does. */
  lemma WithTwice(s: State, t: Id, first: Pc, c: Cache, second: Pc, d: Cache)
    requires t in s.callers
    ensures With(With(s, t, first, c), t, second, d) == With(s, t, second, d)
  {
    assert With(With(s, t, first, c), t, second, d).callers == With(s, t, second, d).callers;
  }

  /** One step of one caller, its plan known. */
  lemma TakeStep(run: seq<Action>, s: State, a: Action, e: Effect, pc: Pc) returns (run': seq<Action>, s': State)
    requires After(run) == s && a.Step? && a.t in s.callers && Plan(s, s.callers[a.t], a) == (e, pc)
    ensures After(run') == s' == Moved(s, a.t, e, pc)
  {
    AfterOne(run, a);
    run', s' := run + [a], Next(s, a);
  }

  lemma TakeTo(run: seq<Action>, s: State, t: Id, e: Effect, pc: Pc) returns (run': seq<Action>, s': State)
    requires After(run) == s && t in s.callers && Plan(s, s.callers[t], Fine1(t)) == (e, pc)
    ensures After(run') == s' == Moved(s, t, e, pc)
  {
    run', s' := TakeStep(run, s, Fine1(t), e, pc);
  }

  lemma SpawnOne(run: seq<Action>, s: State, t: Id, job: Job) returns (run': seq<Action>, s': State)
    requires After(run) == s && t !in s.callers
    ensures After(run') == s' == Spawned(s, t, job)
  {
    run', s' := run + [Spawn(t, job)], Spawned(s, t, job);
    AfterOne(run, Spawn(t, job));
  }

  lemma Wait(run: seq<Action>, s: State, d: nat) returns (run': seq<Action>, s': State)
    requires After(run) == s
    ensures After(run') == s' == s.(now := s.now + d)
  {
    run', s' := run + [Tick(d)], s.(now := s.now + d);
    AfterOne(run, Tick(d));
  }

  lemma TurnArms(run: seq<Action>, s: State, t: Id) returns (run': seq<Action>, s': State)
    requires After(run) == s && t in s.callers && s.callers[t].pc.Begin?
    requires s.callers[t].job.kind.RunTurn? && s.callers[t].job.key !in s.cache.inFlight
    ensures s' == With(s, t, Hooking, s.cache.(inFlight := s.cache.inFlight + {s.callers[t].job.key})).(began := s.began[t := s.now])
    ensures After(run') == s'
  {
    var cache := s.cache.(inFlight := s.cache.inFlight + {s.callers[t].job.key});
    var run1, s1 := TakeTo(run, s, t, Lock, Arming);
    assert s1 == With(s, t, Arming, cache);
    run', s' := TakeTo(run1, s1, t, Arm, Hooking);
    assert s' == With(s1, t, Hooking, cache).(began := s.began[t := s.now]);
    WithTwice(s, t, Arming, cache, Hooking, cache);
  }

  lemma TurnTracks(run: seq<Action>, s: State, t: Id) returns (run': seq<Action>, s': State)
    requires After(run) == s && t in s.callers && s.callers[t].pc.Hooking? && !s.callers[t].job.hook
    ensures s' == With(s, t, Sweeping(false), s.cache.(trackers := s.cache.trackers[s.callers[t].job.key := t]))
    ensures After(run') == s'
  {
    var cache := s.cache.(trackers := s.cache.trackers[s.callers[t].job.key := t]);
    var run1, s1 := TakeTo(run, s, t, Track, Asking);
    assert s1 == With(s, t, Asking, cache);
    run', s' := TakeTo(run1, s1, t, Quiet, Sweeping(false));
    assert s' == With(s1, t, Sweeping(false), cache);
    WithTwice(s, t, Asking, cache, Sweeping(false), cache);
  }

  /** A turn without a decision hook, up to its sweep. */
  lemma TurnEnters(run: seq<Action>, s: State, t: Id) returns (run': seq<Action>, s': State)
    requires After(run) == s && t in s.callers && s.callers[t].pc.Begin?
    requires s.callers[t].job.kind.RunTurn? && !s.callers[t].job.hook && s.callers[t].job.key !in s.cache.inFlight
    ensures var key := s.callers[t].job.key;
            s' == With(s, t, Sweeping(false), s.cache.(inFlight := s.cache.inFlight + {key}, trackers := s.cache.trackers[key := t]))
                  .(began := s.began[t := s.now])
    ensures After(run') == s'
  {
    var run1, s1 := TurnArms(run, s, t);
    run', s' := TurnTracks(run1, s1, t);
  }

  lemma TurnLists(run: seq<Action>, s: State, t: Id, order: seq<Key>) returns (run': seq<Action>, s': State)
    requires After(run) == s && t in s.callers && s.callers[t].pc == Sweeping(false) && Lists(order, Expired(s.cache, s.now))
    ensures After(run') == s' == With(s, t, Closing(None, order, ToLookup(false)), s.cache).(listed := s.listed[t := s.now])
  {
    run', s' := TakeStep(run, s, Step(t, Fine, order, 0), List, Closing(None, order, ToLookup(false)));
  }

  lemma TurnEvicts(run: seq<Action>, s: State, t: Id, key: Key) returns (run': seq<Action>, s': State)
    requires After(run) == s && t in s.callers && s.callers[t].pc == Closing(None, [key], ToLookup(false)) && key in s.cache.clients
    ensures After(run') == s'
    ensures s' == With(s, t, Closing(Some(s.cache.clients[key]), [], ToLookup(false)), Closed(s.cache, key))
  {
    assert [key][0] == key && [key][1..] == [];
    run', s' := TakeTo(run, s, t, Evict(key), Closing(Some(s.cache.clients[key]), [], ToLookup(false)));
  }

  lemma TurnDisconnects(run: seq<Action>, s: State, t: Id, c: Client) returns (run': seq<Action>, s': State)
    requires After(run) == s && t in s.callers && s.callers[t].pc == Closing(Some(c), [], ToLookup(false))
    ensures After(run') == s' == With(s, t, Closing(None, [], ToLookup(false)), s.cache).(gone := s.gone + multiset{c})
  {
    run', s' := TakeTo(run, s, t, Disconnect(c), Closing(None, [], ToLookup(false)));
  }

  /** Closing the one key listed evicts its client and disconnects it. */
  lemma TurnCloses(run: seq<Action>, s: State, t: Id, key: Key) returns (run': seq<Action>, s': State)
    requires After(run) == s && t in s.callers && s.callers[t].pc == Closing(None, [key], ToLookup(false)) && key in s.cache.clients
    ensures After(run') == s'
    ensures s' == With(s, t, Closing(None, [], ToLookup(false)), Closed(s.cache, key)).(gone := s.gone + multiset{s.cache.clients[key]})
  {
    var run1, s1 := TurnEvicts(run, s, t, key);
    run', s' := TurnDisconnects(run1, s1, t, s.cache.clients[key]);
  }

  lemma TurnFindsNothing(run: seq<Action>, s: State, t: Id) returns (run': seq<Action>, s': State)
    requires After(run) == s && t in s.callers && s.callers[t].pc == Closing(None, [], ToLookup(false))
    requires s.callers[t].job.key !in s.cache.clients
    ensures After(run') == s' == With(s, t, Connecting(s.callers[t].job.resume, false), s.cache)
  {
    var pc := Connecting(s.callers[t].job.resume, false);
    var run1, s1 := TakeTo(run, s, t, Quiet, LookingUp(false));
    assert s1 == With(s, t, LookingUp(false), s.cache);
    run', s' := TakeTo(run1, s1, t, Quiet, pc);
    assert s' == With(s1, t, pc, s.cache);
    WithTwice(s, t, LookingUp(false), s.cache, pc, s.cache);
  }

  lemma TurnHolds(run: seq<Action>, s: State, t: Id) returns (run': seq<Action>, s': State)
    requires After(run) == s && t in s.callers && s.callers[t].pc == Connecting(s.callers[t].job.resume, false)
    ensures After(run') == s'
    ensures var job := s.callers[t].job;
            s' == With(s, t, Holding(s.next, false), s.cache).(next := s.next + 1, born := s.born[s.next := Origin(job.key, job.selection)])
  {
    run', s' := TakeTo(run, s, t, Connect, Holding(s.next, false));
    assert s'.cache == s.cache && s'.callers == With(s, t, Holding(s.next, false), s.cache).callers;
  }

  lemma TurnCaches(run: seq<Action>, s: State, t: Id, c: Client) returns (run': seq<Action>, s': State)
    requires After(run) == s && t in s.callers && s.callers[t].pc == Holding(c, false)
    ensures After(run') == s'
    ensures var job := s.callers[t].job; s' == With(s, t, Using(c, false, s.now), Cached(s.cache, job.key, c, job.selection, s.now))
  {
    run', s' := TakeTo(run, s, t, Store(c), Using(c, false, s.now));
  }

  /** With nothing cached for its key, a turn connects, caches and uses a new client. */
  lemma TurnConnects(run: seq<Action>, s: State, t: Id) returns (run': seq<Action>, s': State)
    requires After(run) == s && t in s.callers && s.callers[t].pc == Closing(None, [], ToLookup(false))
    requires s.callers[t].job.key !in s.cache.clients
    ensures After(run') == s'
    ensures var job := s.callers[t].job;
            s' == With(s, t, Using(s.next, false, s.now), Cached(s.cache, job.key, s.next, job.selection, s.now))
                  .(next := s.next + 1, born := s.born[s.next := Origin(job.key, job.selection)])
  {
    var job := s.callers[t].job;
    var run1, s1 := TurnFindsNothing(run, s, t);
    var run2, s2 := TurnHolds(run1, s1, t);
    run', s' := TurnCaches(run2, s2, t, s.next);
    WithTwice(s, t, Connecting(job.resume, false), s.cache, Holding(s.next, false), s.cache);
    WithTwice(s, t, Holding(s.next, false), s.cache, Using(s.next, false, s.now), s'.cache);
  }

  lemma TurnUntracks(run: seq<Action>, s: State, t: Id) returns (run': seq<Action>, s': State)
    requires After(run) == s && t in s.callers && s.callers[t].pc.Unhooking?
    ensures After(run') == s' == With(s, t, Unlocking, s.cache.(trackers := s.cache.trackers - {s.callers[t].job.key}))
  {
    run', s' := TakeTo(run, s, t, Untrack, Unlocking);
  }

  lemma TurnUnlocks(run: seq<Action>, s: State, t: Id) returns (run': seq<Action>, s': State)
    requires After(run) == s && t in s.callers && s.callers[t].pc.Unlocking?
    ensures After(run') == s' == With(s, t, Ended, s.cache.(inFlight := s.cache.inFlight - {s.callers[t].job.key}))
  {
    run', s' := TakeTo(run, s, t, Unlock, Ended);
  }

  lemma TurnReturns(run: seq<Action>, s: State, t: Id) returns (run': seq<Action>, s': State)
    requires After(run) == s && t in s.callers && s.callers[t].pc.Using? && !s.callers[t].job.hook
    ensures After(run') == s' == With(s, t, Unhooking, s.cache)
  {
    var run1, s1 := TakeTo(run, s, t, Quiet, Unasking);
    assert s1 == With(s, t, Unasking, s.cache);
    run', s' := TakeTo(run1, s1, t, Quiet, Unhooking);
    assert s' == With(s1, t, Unhooking, s.cache);
    WithTwice(s, t, Unasking, s.cache, Unhooking, s.cache);
  }

  /** The result has come: the turn clears its tracker and releases its key. */
  lemma TurnEnds(run: seq<Action>, s: State, t: Id) returns (run': seq<Action>, s': State)
    requires After(run) == s && t in s.callers && s.callers[t].pc.Using? && !s.callers[t].job.hook
    ensures After(run') == s'
    ensures var key := s.callers[t].job.key;
            s' == With(s, t, Ended, s.cache.(inFlight := s.cache.inFlight - {key}, trackers := s.cache.trackers - {key}))
  {
    var run1, s1 := TurnReturns(run, s, t);
    var run2, s2 := TurnUntracks(run1, s1, t);
    run', s' := TurnUnlocks(run2, s2, t);
  }

  /** The state after one turn, started alone at the very beginning, has its client. */
  function Alone(job: Job): State {
    State(Cache(map[job.key := 0], map[job.key := job.selection], map[job.key := 0], map[job.key := 0],
                {job.key}, map[job.key := 0], map[]),
          map[0 := Caller(job, Using(0, false, 0))], multiset{}, 1, map[0 := Origin(job.key, job.selection)],
          map[0 := 0], map[0 := 0], 0)
  }

  lemma FirstTurn(job: Job) returns (run: seq<Action>, s: State)
    requires job.kind.RunTurn? && !job.hook
    ensures After(run) == s == Alone(job)
  {
    assert Lists([], {});
    var run1, s1 := SpawnOne([], INITIAL, 0, job);
    var run2, s2 := TurnEnters(run1, s1, 0);
    var run3, s3 := TurnLists(run2, s2, 0, []);
    run, s := TurnConnects(run3, s3, 0);
    assert s.callers == Alone(job).callers;
  }

  /** A turn given more than the idle timeout is listed within its budget. */
  lemma LongTurnIsListed(budget: nat) returns (run: seq<Action>, s: State)
    requires budget > SESSION_IDLE_TIMEOUT
    ensures After(run) == s == Alone(Turn("review", budget)).(now := SESSION_IDLE_TIMEOUT + 1)
    ensures ListsEarly(s, 0, budget) && Expired(s.cache, s.now) == {"review"}
  {
    var run1, s1 := FirstTurn(Turn("review", budget));
    run, s := Wait(run1, s1, SESSION_IDLE_TIMEOUT + 1);
  }

  /** With an executing budget configured above the idle timeout, a review turn well
      within it loses its connection in mid-use to another key's sweep. */
  lemma LongTurnLosesItsClient(budget: nat) returns (run: seq<Action>)
    requires budget > SESSION_IDLE_TIMEOUT
    ensures var s := After(run);
            WithinBudget(s, 0) && s.callers[0] == Caller(Turn("review", budget), Using(0, false, 0)) && 0 in s.gone
  {
    var run1, s1 := LongTurnIsListed(budget);
    var run2, s2 := SpawnOne(run1, s1, 1, Turn("planning", AGENT_TIMEOUT));
    var run3, s3 := TurnEnters(run2, s2, 1);
    assert Lists(["review"], {"review"});
    var run4, s4 := TurnLists(run3, s3, 1, ["review"]);
    var run5, s5 := TurnCloses(run4, s4, 1, "review");
    run := run5;
  }

  lemma TurnArrives(run: seq<Action>, s: State, t: Id, job: Job) returns (run': seq<Action>, s': State)
    requires After(run) == s && t !in s.callers && job.kind.RunTurn? && !job.hook && job.key !in s.cache.inFlight
    ensures After(run') == s'
    ensures s' == s.(callers := s.callers[t := Caller(job, Sweeping(false))], began := s.began[t := s.now],
                     cache := s.cache.(inFlight := s.cache.inFlight + {job.key}, trackers := s.cache.trackers[job.key := t]))
  {
    var run1, s1 := SpawnOne(run, s, t, job);
    run', s' := TurnEnters(run1, s1, t);
    assert s'.callers == s.callers[t := Caller(job, Sweeping(false))];
  }

  /** A turn whose sweep finds one key idle lists it. */
  lemma TurnListsIdle(run: seq<Action>, s: State, t: Id, job: Job, key: Key) returns (run': seq<Action>, s': State)
    requires After(run) == s && t !in s.callers && job.kind.RunTurn? && !job.hook && job.key !in s.cache.inFlight
    requires Expired(s.cache, s.now) == {key}
    ensures After(run') == s'
    ensures s'.callers == s.callers[t := Caller(job, Closing(None, [key], ToLookup(false)))] && s'.began == s.began[t := s.now]
    ensures s'.now == s.now && s'.next == s.next
    ensures s'.cache == s.cache.(inFlight := s.cache.inFlight + {job.key}, trackers := s.cache.trackers[job.key := t])
  {
    var run1, s1 := TurnArrives(run, s, t, job);
    assert Expired(s1.cache, s1.now) == {key} && Lists([key], {key});
    run', s' := TurnLists(run1, s1, t, [key]);
    assert s'.callers == s.callers[t := Caller(job, Closing(None, [key], ToLookup(false)))];
  }

  /** The state an idle client is left in. */
  lemma ReviewIsIdle() returns (run: seq<Action>, s: State)
    ensures After(run) == s && s.now == SESSION_IDLE_TIMEOUT + 1 && s.next == 1 && s.callers.Keys == {0} && s.cache.inFlight == {}
    ensures s.cache.clients == map["review" := 0] && s.cache.lastUsed == map["review" := 0]
  {
    var run1, s1 := FirstTurn(Turn("review", AGENT_EXECUTION_TIMEOUT));
    var run2, s2 := TurnEnds(run1, s1, 0);
    run, s := Wait(run2, s2, SESSION_IDLE_TIMEOUT + 1);
  }

  /** Another conversation's sweep has listed an idle key and not closed it yet. */
  lemma IdleKeyIsListed() returns (run: seq<Action>, s: State)
    ensures After(run) == s && s.now == SESSION_IDLE_TIMEOUT + 1 && s.next == 1 && 2 !in s.callers
    ensures 1 in s.callers && s.callers[1] == Caller(Turn("planning", AGENT_TIMEOUT), Closing(None, ["review"], ToLookup(false)))
    ensures s.cache.clients == map["review" := 0] && s.cache.lastUsed == map["review" := 0] && "review" !in s.cache.inFlight
  {
    var run1, s1 := ReviewIsIdle();
    assert Expired(s1.cache, s1.now) == {"review"};
    run, s := TurnListsIdle(run1, s1, 1, Turn("planning", AGENT_TIMEOUT), "review");
  }

  /** A turn that finds its own key idle closes it before it looks it up. */
  lemma TurnClosesItsOwn(run: seq<Action>, s: State, t: Id, job: Job) returns (run': seq<Action>, s': State)
    requires After(run) == s && t !in s.callers && job.kind.RunTurn? && !job.hook && job.key !in s.cache.inFlight
    requires job.key in s.cache.clients && Expired(s.cache, s.now) == {job.key}
    ensures After(run') == s' && s'.now == s.now && s'.next == s.next && s'.began == s.began[t := s.now]
    ensures s'.callers == s.callers[t := Caller(job, Closing(None, [], ToLookup(false)))]
    ensures s'.cache.clients == s.cache.clients - {job.key}
  {
    var run1, s1 := TurnListsIdle(run, s, t, job, job.key);
    run', s' := TurnCloses(run1, s1, t, job.key);
    assert s'.callers == s.callers[t := Caller(job, Closing(None, [], ToLookup(false)))];
  }

  /** Meanwhile the key's own turn comes back, closes the idle client itself and connects. */
  lemma IdleKeyComesBack(run: seq<Action>, s: State) returns (run': seq<Action>, s': State)
    requires After(run) == s && s.now == SESSION_IDLE_TIMEOUT + 1 && s.next == 1 && 2 !in s.callers
    requires s.cache.clients == map["review" := 0] && s.cache.lastUsed == map["review" := 0] && "review" !in s.cache.inFlight
    ensures After(run') == s' && s'.now == s.now && 2 in s'.began && s'.began[2] == s.now
    ensures s'.callers == s.callers[2 := Caller(Turn("review", AGENT_EXECUTION_TIMEOUT), Using(1, false, s.now))]
    ensures s'.cache.clients == map["review" := 1]
  {
    var job := Turn("review", AGENT_EXECUTION_TIMEOUT);
    assert Expired(s.cache, s.now) == {"review"};
    var run1, s1 := TurnClosesItsOwn(run, s, 2, job);
    run', s' := TurnConnects(run1, s1, 2);
    assert s'.callers == s.callers[2 := Caller(job, Using(1, false, s.now))];
  }

  /** With the default budgets too: a late close takes the fresh connection of a turn
      that has only just begun. */
  lemma FreshTurnLosesItsClient() returns (run: seq<Action>)
    ensures var s := After(run);
            && WithinBudget(s, 2) && s.now == s.began[2]
            && s.callers[2] == Caller(Turn("review", AGENT_EXECUTION_TIMEOUT), Using(1, false, s.now)) && 1 in s.gone
  {
    var run1, s1 := IdleKeyIsListed();
    var run2, s2 := IdleKeyComesBack(run1, s1);
    var run3, s3 := TurnCloses(run2, s2, 1, "review");
    run := run3;
  }

  // ---- The runner performs the effects ----

  /** Each effect on the shared maps is one critical section of the runner. */
  method Perform(runner: ClaudeRunner, t: Id, job: Job, e: Effect, now: Instant)
    modifies runner
    ensures runner.Abs() == Affected(old(runner.Abs()), t, job, e, now)
  {
    match e {
      case Lock => var ok := runner.TryLock(job.key);
      case Unlock => runner.Unlock(job.key);
      case Track => runner.SetSubagentTracker(job.key, t);
      case Untrack => runner.ClearSubagentTracker(job.key);
      case Ask => runner.SetPermissionRequester(job.key, t);
      case Unask => runner.ClearPermissionRequester(job.key);
      case Evict(key) => var victim, cancel := runner.Evict(key);
      case Touch => runner.TouchClient(job.key, now);
      case Store(client) => runner.CacheClient(job.key, client, job.selection, now);
      case Clear => var victims, toCancel := runner.TakeAll();
      case List => var expired := runner.ListExpired(now);
      case _ =>
    }
  }
}
