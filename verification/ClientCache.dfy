/**
 The client cache of the Claude runner (internal/agentrunner/claude_runner.go):
 the maps guarded by one mutex, each method of the source that takes the mutex
 being one atomic change of them.
 */
module ClientCache {
  import opened Options

  type Key = string
  type Client = nat
  type Turn = nat
  type Instant = int
  datatype Selection = Selection(model: string, effort: string)

  /** Thirty minutes, in nanoseconds. */
  const SESSION_IDLE_TIMEOUT := 30 * 60 * 1_000_000_000

  datatype Cache = Cache(
    clients: map<Key, Client>,
    selections: map<Key, Selection>,
    cancels: map<Key, Client>,     // a connection's cancel function, named by its client
    lastUsed: map<Key, Instant>,
    inFlight: set<Key>,
    trackers: map<Key, Turn>,      // a turn's subagent tracker, named by the turn
    requesters: map<Key, Turn>)    // a turn's decision hook, named by the turn

  const EMPTY := Cache(map[], map[], map[], map[], {}, map[], map[])

  function Closed(c: Cache, key: Key): Cache {
    if key in c.clients then
      c.(clients := c.clients - {key}, selections := c.selections - {key},
         cancels := c.cancels - {key}, lastUsed := c.lastUsed - {key})
    else c
  }

  function Cached(c: Cache, key: Key, client: Client, selection: Selection, now: Instant): Cache {
    c.(clients := c.clients[key := client], selections := c.selections[key := selection],
       cancels := c.cancels[key := client], lastUsed := c.lastUsed[key := now])
  }

  function Touched(c: Cache, key: Key, now: Instant): Cache {
    c.(lastUsed := c.lastUsed[key := now])
  }

  function Emptied(c: Cache): Cache {
    c.(clients := map[], selections := map[], cancels := map[], lastUsed := map[])
  }

  function Expired(c: Cache, now: Instant): set<Key> {
    set k | k in c.lastUsed && now - c.lastUsed[k] > SESSION_IDLE_TIMEOUT
  }

  function Lookup<K, V>(m: map<K, V>, key: K): Option<V> {
    if key in m then Some(m[key]) else None
  }

  /** The three maps written together agree, each connection has its own cancel,
      and every cached client has a last use. */
  ghost predicate Agree(c: Cache) {
    && c.clients.Keys == c.selections.Keys == c.cancels.Keys <= c.lastUsed.Keys
    && (forall k :: k in c.clients ==> c.cancels[k] == c.clients[k])
    && (forall k, l :: k in c.clients && l in c.clients && c.clients[k] == c.clients[l] ==> k == l)
  }

  class ClaudeRunner {
    var clients: map<Key, Client>
    var selections: map<Key, Selection>
    var cancels: map<Key, Client>
    var lastUsed: map<Key, Instant>
    var inFlight: set<Key>
    var trackers: map<Key, Turn>
    var requesters: map<Key, Turn>

    ghost function Abs(): Cache
      reads this
    {
      Cache(clients, selections, cancels, lastUsed, inFlight, trackers, requesters)
    }

    constructor ()
      ensures Abs() == EMPTY
    {
      clients, selections, cancels, lastUsed := map[], map[], map[], map[];
      inFlight, trackers, requesters := {}, map[], map[];
    }

    method TryLock(key: Key) returns (ok: bool)
      modifies this`inFlight
      ensures ok <==> key !in old(inFlight)
      ensures inFlight == old(inFlight) + {key}
    {
      ok := key !in inFlight;
      if ok {
        inFlight := inFlight + {key};
      }
    }

    method Unlock(key: Key)
      modifies this`inFlight
      ensures inFlight == old(inFlight) - {key}
    {
      inFlight := inFlight - {key};
    }

    /** The locked half of CloseSession: what is to be disconnected and cancelled. */
    method Evict(key: Key) returns (victim: Option<Client>, cancel: Option<Client>)
      modifies this`clients, this`selections, this`cancels, this`lastUsed
      ensures Abs() == Closed(old(Abs()), key)
      ensures victim == Lookup(old(clients), key) && cancel == Lookup(old(cancels), key)
      ensures old(Agree(Abs())) ==> cancel == victim && Agree(Abs())
    {
      victim, cancel := Lookup(clients, key), Lookup(cancels, key);
      if victim.Some? {
        clients := clients - {key};
        selections := selections - {key};
        cancels := cancels - {key};
        lastUsed := lastUsed - {key};
      }
    }

    method CacheClient(key: Key, client: Client, selection: Selection, now: Instant)
      modifies this`clients, this`selections, this`cancels, this`lastUsed
      ensures Abs() == Cached(old(Abs()), key, client, selection, now)
      ensures old(Agree(Abs())) && client !in old(clients).Values ==> Agree(Abs())
    {
      clients := clients[key := client];
      cancels := cancels[key := client];
      lastUsed := lastUsed[key := now];
      selections := selections[key := selection];
    }

    method TouchClient(key: Key, now: Instant)
      modifies this`lastUsed
      ensures Abs() == Touched(old(Abs()), key, now)
      ensures old(Agree(Abs())) ==> Agree(Abs())
    {
      lastUsed := lastUsed[key := now];
    }

    /** The locked half of reapIdleClients: the keys found idle, in whatever order the map is walked. */
    method ListExpired(now: Instant) returns (expired: seq<Key>)
      ensures forall k :: k in expired <==> k in Expired(Abs(), now)
      ensures forall i, j :: 0 <= i < j < |expired| ==> expired[i] != expired[j]
    {
      expired := [];
      var rest := lastUsed.Keys;
      while rest != {}
        invariant rest <= lastUsed.Keys
        invariant forall k :: k in expired <==> k in Expired(Abs(), now) && k !in rest
        invariant forall i, j :: 0 <= i < j < |expired| ==> expired[i] != expired[j]
        decreases |rest|
      {
        var key :| key in rest;
        rest := rest - {key};
        if now - lastUsed[key] > SESSION_IDLE_TIMEOUT {
          expired := expired + [key];
        }
      }
    }

    /** The locked half of CloseAll. */
    method TakeAll() returns (victims: map<Key, Client>, toCancel: map<Key, Client>)
      modifies this`clients, this`selections, this`cancels, this`lastUsed
      ensures Abs() == Emptied(old(Abs()))
      ensures victims == old(clients) && toCancel == old(cancels)
      ensures old(Agree(Abs())) ==> toCancel == victims && Agree(Abs())
    {
      victims, toCancel := clients, cancels;
      clients, selections, cancels, lastUsed := map[], map[], map[], map[];
    }

    method SetSubagentTracker(key: Key, t: Turn)
      modifies this`trackers
      ensures trackers == old(trackers)[key := t]
    {
      trackers := trackers[key := t];
    }

    method ClearSubagentTracker(key: Key)
      modifies this`trackers
      ensures trackers == old(trackers) - {key}
    {
      trackers := trackers - {key};
    }

    method SetPermissionRequester(key: Key, t: Turn)
      modifies this`requesters
      ensures requesters == old(requesters)[key := t]
    {
      requesters := requesters[key := t];
    }

    method ClearPermissionRequester(key: Key)
      modifies this`requesters
      ensures requesters == old(requesters) - {key}
    {
      requesters := requesters - {key};
    }
  }
}
