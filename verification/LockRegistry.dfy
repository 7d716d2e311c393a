/** The upload locker: a distributed mutex per name, and in each process a registry of callbacks by
    which a waiting client asks the holder to let go. A client is one use of a lock, from `Lock` to
    the end of `Unlock`; registry accesses are atomic, they happen under the registry's own mutex. */
module LockRegistry {
  import opened Text
  import opened StepSystems

  type Client = nat
  type Process = nat

  datatype Slot = Slot(process: Process, name: string)

  datatype Pc =
    | Asking(slot: Slot)
    | Waiting(slot: Slot)
    | Acquired(slot: Slot)   // has got the mutex, callback not registered yet
    | Held(slot: Slot)       // `Lock` has returned
    | Releasing(slot: Slot)  // `Unlock` has removed the callback, mutex not released yet

  /** A callback that was called, who held the mutex at that moment, and whether the time of the
      called client's mutex was over by then. */
  datatype Ask = Ask(target: Client, holder: Option<Client>, lapsed: bool)

  datatype State = State(
    mutex: map<string, Client>,
    holders: map<Slot, Client>,
    clients: map<Client, Pc>,
    lapsed: set<Client>,         // clients whose mutex expired while they were using it
    asks: seq<Ask>)

  const Init := State(map[], map[], map[], {}, [])

  datatype Step =
    | BeginLock(c: Client, slot: Slot)
    | AskHolder(c: Client)
    | Acquire(c: Client)
    | GiveUp(c: Client)
    | Register(c: Client)
    | Deregister(c: Client)
    | Release(c: Client, ok: bool)
    | Expire(name: string)

  /** Nothing is left of an earlier use under this number. */
  predicate Unused(s: State, c: Client)
  {
    c !in s.clients && c !in s.lapsed && forall name :: name in s.mutex ==> s.mutex[name] != c
  }

  predicate Is(s: State, c: Client, at: Pc -> bool) { c in s.clients && at(s.clients[c]) }

  predicate Enabled(s: State, step: Step)
  {
    match step
    case BeginLock(c, _) => Unused(s, c)
    case AskHolder(c) => Is(s, c, (pc: Pc) => pc.Asking?)
    case Acquire(c) => Is(s, c, (pc: Pc) => pc.Waiting?) && s.clients[c].slot.name !in s.mutex
    case GiveUp(c) => Is(s, c, (pc: Pc) => pc.Waiting?)
    case Register(c) => Is(s, c, (pc: Pc) => pc.Acquired?)
    case Deregister(c) => Is(s, c, (pc: Pc) => pc.Held?)
    case Release(c, _) => Is(s, c, (pc: Pc) => pc.Releasing?)
    case Expire(name) => name in s.mutex
  }

  function Owner(s: State, name: string): Option<Client>
  {
    if name in s.mutex then Some(s.mutex[name]) else None
  }

  function AsksAfter(s: State, slot: Slot): seq<Ask>
  {
    if slot in s.holders
    then s.asks + [Ask(s.holders[slot], Owner(s, slot.name), s.holders[slot] in s.lapsed)]
    else s.asks
  }

  function Do(s: State, step: Step): State
    requires Enabled(s, step)
  {
    match step
    case BeginLock(c, slot) => s.(clients := s.clients[c := Asking(slot)])
    case AskHolder(c) =>
      var slot := s.clients[c].slot;
      s.(clients := s.clients[c := Waiting(slot)], asks := AsksAfter(s, slot))
    case Acquire(c) =>
      var slot := s.clients[c].slot;
      s.(mutex := s.mutex[slot.name := c], clients := s.clients[c := Acquired(slot)])
    case GiveUp(c) => s.(clients := s.clients - {c})
    case Register(c) =>
      var slot := s.clients[c].slot;
      s.(holders := s.holders[slot := c], clients := s.clients[c := Held(slot)])
    case Deregister(c) =>
      var slot := s.clients[c].slot;
      s.(holders := s.holders - {slot}, clients := s.clients[c := Releasing(slot)])
    case Release(c, ok) =>
      // releasing fails when the mutex is no longer this client's, or when redis does not answer
      var name := s.clients[c].slot.name;
      var t := s.(clients := s.clients - {c});
      if ok && Owner(s, name) == Some(c) then t.(mutex := s.mutex - {name}) else t
    case Expire(name) =>
      var c := s.mutex[name];
      s.(mutex := s.mutex - {name}, lapsed := if c in s.clients then s.lapsed + {c} else s.lapsed)
  }

  function Next(s: State, step: Step): Option<State> { if Enabled(s, step) then Some(Do(s, step)) else None }

  // ---- invariant ----

  predicate Using(pc: Pc) { pc.Acquired? || pc.Held? || pc.Releasing? }

  ghost predicate ClientInv(s: State, c: Client)
    requires c in s.clients
  {
    if Using(s.clients[c]) then Owner(s, s.clients[c].slot.name) == Some(c) <==> c !in s.lapsed
    else c !in s.lapsed
  }

  ghost predicate MutexInv(s: State, name: string)
    requires name in s.mutex
  {
    s.mutex[name] in s.clients ==> Using(s.clients[s.mutex[name]]) && s.clients[s.mutex[name]].slot.name == name
  }

  ghost predicate AskInv(s: State, a: Ask)
  {
    (a.holder == Some(a.target) <==> !a.lapsed) && (a.lapsed ==> a.target in s.lapsed)
  }

  ghost predicate OwnersInv(s: State)
  {
    && (forall c :: c in s.clients ==> ClientInv(s, c))
    && (forall name :: name in s.mutex ==> MutexInv(s, name))
  }

  ghost predicate RegistryInv(s: State)
  {
    && (forall slot :: slot in s.holders ==> s.holders[slot] in s.clients && s.clients[s.holders[slot]] == Held(slot))
    && (forall i :: 0 <= i < |s.asks| ==> AskInv(s, s.asks[i]))
    && (s.lapsed == {} ==>
          forall c :: c in s.clients && s.clients[c].Held? ==>
            s.clients[c].slot in s.holders && s.holders[s.clients[c].slot] == c)
  }

  ghost predicate Inv(s: State) { OwnersInv(s) && RegistryInv(s) }

  lemma OwnersKept(s: State, step: Step)
    requires OwnersInv(s) && Enabled(s, step)
    ensures OwnersInv(Do(s, step))
  {
  }

  lemma RegistryKept(s: State, step: Step)
    requires Inv(s) && Enabled(s, step)
    ensures RegistryInv(Do(s, step))
  {
    hide MutexInv;
  }

  lemma StepKeeps(s: State, step: Step)
    requires Inv(s) && Enabled(s, step)
    ensures Inv(Do(s, step))
  {
    hide OwnersInv, RegistryInv, Enabled, Do;
    OwnersKept(s, step);
    RegistryKept(s, step);
  }

  lemma {:induction false} RunKeeps(s: State, steps: seq<Step>, t: State)
    requires Inv(s) && Runs(Next, s, steps, t)
    ensures Inv(t)
    decreases |steps|
  {
    hide Inv, Enabled, Do;
    if steps != [] {
      StepKeeps(s, steps[0]);
      RunKeeps(Do(s, steps[0]), steps[1..], t);
    }
  }

  lemma Reachable(t: State)
    requires Leads(Next, Init, t)
    ensures Inv(t)
  {
    var steps :| Runs(Next, Init, steps, t);
    RunKeeps(Init, steps, t);
  }

  // ---- what holds over every run, with mutexes expiring ----

  /** A client that has got a mutex owns it exactly as long as it has not expired on it; and a client
      that was asked to let go held the mutex when asked exactly if it had not. Whoever is registered
      has returned from `Lock` and not called `Unlock`. */
  lemma OwnershipLapses(t: State)
    requires Leads(Next, Init, t)
    ensures forall c :: c in t.clients && Using(t.clients[c]) ==>
              (Owner(t, t.clients[c].slot.name) == Some(c) <==> c !in t.lapsed)
    ensures forall i :: 0 <= i < |t.asks| ==> (t.asks[i].holder == Some(t.asks[i].target) <==> !t.asks[i].lapsed)
    ensures forall slot :: slot in t.holders ==>
              t.holders[slot] in t.clients && t.clients[t.holders[slot]] == Held(slot)
  {
    Reachable(t);
    forall c | c in t.clients && Using(t.clients[c])
      ensures Owner(t, t.clients[c].slot.name) == Some(c) <==> c !in t.lapsed
    {
      assert ClientInv(t, c);
    }
    forall i | 0 <= i < |t.asks| ensures t.asks[i].holder == Some(t.asks[i].target) <==> !t.asks[i].lapsed {
      assert AskInv(t, t.asks[i]);
    }
  }

  /** As long as nobody's mutex has expired in use, a callback is registered exactly while its client
      is between the return of `Lock` and the call of `Unlock`, that client holds the mutex, and
      whoever was ever asked to let go held the mutex when asked. */
  lemma OnlyHoldersAreAsked(t: State)
    requires Leads(Next, Init, t) && t.lapsed == {}
    ensures forall slot, c ::
              slot in t.holders && t.holders[slot] == c <==> c in t.clients && t.clients[c] == Held(slot)
    ensures forall slot :: slot in t.holders ==> Owner(t, slot.name) == Some(t.holders[slot])
    ensures forall i :: 0 <= i < |t.asks| ==> t.asks[i].holder == Some(t.asks[i].target)
  {
    Reachable(t);
    forall slot | slot in t.holders ensures Owner(t, slot.name) == Some(t.holders[slot]) {
      assert ClientInv(t, t.holders[slot]);
    }
    forall i | 0 <= i < |t.asks| ensures t.asks[i].holder == Some(t.asks[i].target) {
      assert AskInv(t, t.asks[i]);
    }
  }

  predicate NoExpiry(steps: seq<Step>) { forall i :: 0 <= i < |steps| ==> !steps[i].Expire? }

  /** In particular in every run without expiry. */
  lemma {:induction false} NothingLapses(s: State, steps: seq<Step>, t: State)
    requires Runs(Next, s, steps, t) && NoExpiry(steps)
    ensures t.lapsed == s.lapsed
    decreases |steps|
  {
    if steps != [] {
      NothingLapses(Do(s, steps[0]), steps[1..], t);
    }
  }

  /** Of all the clients, in one process or in several, that are using one name, at most one has not
      lapsed. */
  lemma MutualExclusion(t: State, c: Client, d: Client)
    requires Leads(Next, Init, t) && c in t.clients && d in t.clients && c != d
    requires Using(t.clients[c]) && Using(t.clients[d]) && t.clients[c].slot.name == t.clients[d].slot.name
    ensures c in t.lapsed || d in t.lapsed
  {
    Reachable(t);
    assert ClientInv(t, c) && ClientInv(t, d);
  }

  // ---- single clients ----

  /** A client that asks, with nothing in between. */
  lemma AskAlone(o: State, s: State, c: Client, slot: Slot) returns (t: State)
    requires Leads(Next, o, s) && Unused(s, c)
    ensures Leads(Next, o, t) && t == s.(clients := s.clients[c := Waiting(slot)], asks := AsksAfter(s, slot))
  {
    hide Leads, Unused, AsksAfter;
    LeadsOn(Next, o, s, BeginLock(c, slot));
    t := Do(s, BeginLock(c, slot));
    LeadsOn(Next, o, t, AskHolder(c));
    t := Do(t, AskHolder(c));
    SameAsks(s, c, slot);
  }

  lemma SameAsks(s: State, c: Client, slot: Slot)
    ensures AsksAfter(s.(clients := s.clients[c := Asking(slot)]), slot) == AsksAfter(s, slot)
  {
  }

  /** A client that locks, with nothing in between. */
  lemma LockAlone(o: State, s: State, c: Client, slot: Slot) returns (t: State)
    requires Leads(Next, o, s) && Unused(s, c) && slot.name !in s.mutex
    ensures Leads(Next, o, t)
    ensures t == s.(mutex := s.mutex[slot.name := c], holders := s.holders[slot := c],
                    clients := s.clients[c := Held(slot)], asks := AsksAfter(s, slot))
  {
    hide Leads, Unused, AsksAfter;
    t := AskAlone(o, s, c, slot);
    LeadsOn(Next, o, t, Acquire(c));
    t := Do(t, Acquire(c));
    LeadsOn(Next, o, t, Register(c));
    t := Do(t, Register(c));
  }

  /** A run in which ownership lapses: a first client locks and its mutex expires, a second one in
      another process gets the mutex, and a third asks the first one to let go. */
  lemma ExpiryMisdirects(name: string) returns (t: State)
    ensures Leads(Next, Init, t) && t.asks == [Ask(0, Some(1), true)]
  {
    hide Leads;
    Stutter(Next, Init);
    t := LockAlone(Init, Init, 0, Slot(0, name));
    LeadsOn(Next, Init, t, Expire(name));
    t := Do(t, Expire(name));
    t := LockAlone(Init, t, 1, Slot(1, name));
    t := AskAlone(Init, t, 2, Slot(0, name));
  }

  // ---- the lock as it is written, over the registry it changes ----

  class Locker {
    const process: Process
    var holders: map<Slot, Client>
    var mutex: map<string, Client>
    ghost var clients: map<Client, Pc>
    ghost var lapsed: set<Client>
    ghost var asks: seq<Ask>

    ghost function Now(): State
      reads this
    {
      State(mutex, holders, clients, lapsed, asks)
    }

    ghost predicate Valid()
      reads this
    {
      Leads(Next, Init, Now())
    }

    constructor (process: Process)
      ensures Valid() && this.process == process && Now() == Init
    {
      this.process := process;
      holders, mutex, clients, lapsed, asks := map[], map[], map[], {}, [];
      new;
      Stutter(Next, Init);
    }

    /** Returns whom it asked to let go, and whether the lock was got: waiting times out on a mutex
        that stays taken. */
    method Lock(name: string, c: Client) returns (asked: Option<Client>, ok: bool)
      requires Valid() && Unused(Now(), c)
      modifies this
      ensures Valid() && Leads(Next, old(Now()), Now()) && lapsed == old(lapsed)
      ensures asked == if Slot(process, name) in old(holders) then Some(old(holders)[Slot(process, name)]) else None
      ensures ok <==> name !in old(mutex)
      ensures if ok then mutex == old(mutex)[name := c] && holders == old(holders)[Slot(process, name) := c]
              else mutex == old(mutex) && holders == old(holders)
      ensures clients == if ok then old(clients)[c := Held(Slot(process, name))] else old(clients)
    {
      hide Leads, Unused, AsksAfter;
      ghost var s := Now();
      Stutter(Next, s);
      var slot := Slot(process, name);
      asked := if slot in holders then Some(holders[slot]) else None;
      ghost var t;
      if name in mutex {
        t := AskAlone(s, s, c, slot);
        LeadsOn(Next, s, t, GiveUp(c));
        t := Do(t, GiveUp(c));
        NotUsed(s, c);
        assert t.clients == clients;
        ok := false;
      } else {
        t := LockAlone(s, s, c, slot);
        mutex := mutex[name := c];
        holders := holders[slot := c];
        ok := true;
      }
      clients, asks := t.clients, t.asks;
      LeadsThrough(Next, Init, s, Now());
    }

    /** Removes the callback first, then releases the mutex; `answers` says whether redis does. */
    method Unlock(name: string, c: Client, answers: bool) returns (ok: bool)
      requires Valid() && c in clients && clients[c] == Held(Slot(process, name))
      modifies this
      ensures Valid() && Leads(Next, old(Now()), Now()) && lapsed == old(lapsed)
      ensures holders == old(holders) - {Slot(process, name)} && clients == old(clients) - {c}
      ensures ok <==> answers && name in old(mutex) && old(mutex)[name] == c
      ensures mutex == if ok then old(mutex) - {name} else old(mutex)
    {
      hide Leads;
      ghost var s := Now();
      Stutter(Next, s);
      LeadsOn(Next, s, s, Deregister(c));
      ghost var t := Do(s, Deregister(c));
      LeadsOn(Next, s, t, Release(c, answers));
      t := Do(t, Release(c, answers));
      assert t.clients == clients - {c};
      holders := holders - {Slot(process, name)};
      ok := answers && name in mutex && mutex[name] == c;
      if ok {
        mutex := mutex - {name};
      }
      clients := t.clients;
      LeadsThrough(Next, Init, s, Now());
    }
  }

  lemma NotUsed(s: State, c: Client)
    requires Unused(s, c)
    ensures c !in s.clients
  {
  }
}
