/**
 Waiting for spawned subagents (subagentTracker.wait, start and stop,
 internal/agentrunner/claude_runner.go): a condition variable under the tracker's
 mutex, hook goroutines that count, and a watcher that wakes the waiter once its
 context is done. One action is one step of one goroutine.
 */
module SubagentWait {

  /** Checked: found a reason to sleep and still holds the mutex. */
  datatype Waiter = Entering | Checked | Asleep | Done
  /** Roused: saw the context done, has yet to broadcast. */
  datatype Watcher = Armed | Roused | Spent

  datatype State = State(started: nat, stopped: nat, contextDone: bool, waiter: Waiter, watcher: Watcher)
  datatype Action = Start | Stop | Cancel | Rouse | Broadcast | Check | Sleep

  const INITIAL := State(0, 0, false, Entering, Armed)

  predicate Enabled(s: State, a: Action) {
    match a
    case Start => !s.waiter.Checked?
    case Stop => !s.waiter.Checked?
    case Cancel => true
    case Rouse => s.watcher.Armed? && s.contextDone && !s.waiter.Done?
    case Broadcast => s.watcher.Roused? && !s.waiter.Checked?
    case Check => s.waiter.Entering?
    case Sleep => s.waiter.Checked?
  }

  function Woken(w: Waiter): Waiter {
    if w.Asleep? then Entering else w
  }

  function Next(s: State, a: Action): State {
    if !Enabled(s, a) then s else
    match a
    case Start => s.(started := s.started + 1)
    case Stop => s.(stopped := s.stopped + 1, waiter := Woken(s.waiter))
    case Cancel => s.(contextDone := true)
    case Rouse => s.(watcher := Roused)
    case Broadcast => s.(watcher := Spent, waiter := Woken(s.waiter))
    case Check => s.(waiter := if s.started != s.stopped && !s.contextDone then Checked else Done)
    case Sleep => s.(waiter := Asleep)
  }

  function After(actions: seq<Action>): State {
    if actions == [] then INITIAL else Next(After(actions[..|actions| - 1]), actions[|actions| - 1])
  }

  /** The watcher has not spent its one broadcast on a waiter about to sleep. */
  predicate WatcherPending(s: State) {
    && (!s.watcher.Armed? ==> s.contextDone)
    && (s.waiter.Checked? || s.waiter.Asleep? ==> !s.watcher.Spent?)
  }

  lemma {:induction false} WatcherStaysPending(actions: seq<Action>)
    ensures WatcherPending(After(actions))
  {
    if actions != [] {
      WatcherStaysPending(actions[..|actions| - 1]);
    }
  }

  /** Steps the waiter and its watcher still have to take once the context is done. */
  function Remaining(s: State): nat {
    if s.waiter.Done? then 0
    else if s.waiter.Entering? then 1
    else if s.waiter.Asleep? then (if s.watcher.Armed? then 3 else 2)
    else (if s.watcher.Armed? then 4 else 3)
  }

  function Hurry(s: State): Action {
    if s.waiter.Entering? then Check
    else if s.waiter.Checked? then Sleep
    else if s.watcher.Armed? then Rouse
    else Broadcast
  }

  /** Once the context is done the waiter is never stuck: until it has returned, one
      of its own or its watcher's steps is enabled and brings it nearer to
      returning, and nothing the hooks do takes it further away. */
  lemma NeverSleepsPastContext(actions: seq<Action>, a: Action)
    requires After(actions).contextDone
    ensures var s := After(actions);
            && Remaining(Next(s, a)) <= Remaining(s) && Next(s, a).contextDone
            && (!s.waiter.Done? ==> Enabled(s, Hurry(s)) && Remaining(Next(s, Hurry(s))) < Remaining(s))
            && (Remaining(s) == 0 <==> s.waiter.Done?)
  {
    WatcherStaysPending(actions);
  }

  /** The waiter returns only when every start is matched or the context is done. */
  lemma ReturnsOnlyWhenMatched(s: State, a: Action)
    requires !s.waiter.Done? && Next(s, a).waiter.Done?
    ensures a.Check? && (s.started == s.stopped || s.contextDone)
  {
  }

  // ---- A matched count is noticed ----

  /** A sleeper still has something to wait for. */
  predicate SleepsForReason(s: State) {
    s.waiter.Checked? || s.waiter.Asleep? ==> s.started != s.stopped
  }

  /** Exactly one step can leave a waiter asleep with nothing to wait for: a start
      counted after its own stop, since counting a start wakes nobody. */
  lemma OnlyALateStartStrands(s: State, a: Action)
    requires SleepsForReason(s)
    ensures SleepsForReason(Next(s, a)) <==> !(a.Start? && s.waiter.Asleep? && s.started + 1 == s.stopped)
  {
  }

  predicate StopsFollowStarts(actions: seq<Action>) {
    forall n :: 0 <= n <= |actions| ==> After(actions[..n]).stopped <= After(actions[..n]).started
  }

  /** While stops never overtake starts, no interleaving strands the waiter. */
  lemma {:induction false} NeverSleepsWhenMatched(actions: seq<Action>)
    requires StopsFollowStarts(actions)
    ensures SleepsForReason(After(actions))
  {
    if actions != [] {
      var prefix := actions[..|actions| - 1];
      forall n | 0 <= n <= |prefix| ensures After(prefix[..n]).stopped <= After(prefix[..n]).started {
        assert prefix[..n] == actions[..n];
      }
      NeverSleepsWhenMatched(prefix);
      assert actions[..|prefix|] == prefix;
      OnlyALateStartStrands(After(prefix), actions[|prefix|]);
    }
  }

  lemma AfterOne(run: seq<Action>, s: State, a: Action) returns (run': seq<Action>, s': State)
    requires After(run) == s
    ensures After(run') == s' == Next(s, a) && run' == run + [a]
  {
    run', s' := run + [a], Next(s, a);
    assert run'[..|run|] == run;
  }

  /** A stop counted before its start: the waiter sleeps on although both have
      happened, and only the context can end it. */
  lemma LateStartStrands() returns (run: seq<Action>)
    ensures run == [Stop, Check, Sleep, Start]
    ensures var s := After(run); s.waiter.Asleep? && s.started == s.stopped && !s.contextDone
  {
    var run1, s1 := AfterOne([], INITIAL, Stop);
    var run2, s2 := AfterOne(run1, s1, Check);
    var run3, s3 := AfterOne(run2, s2, Sleep);
    var run4, s4 := AfterOne(run3, s3, Start);
    run := run4;
  }
}
