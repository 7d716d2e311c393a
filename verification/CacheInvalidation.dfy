/** What invalidating the cached searches on a new block achieves: which searches asked for before the
    block can come back into the master's cache after it. Lookups that find what a lagging replica still
    has are not stopped by it; they are bounded by the expiration. */
module CacheInvalidation {
  import opened Text
  import opened StepSystems
  import opened Json
  import opened QueryRequest
  import opened QueryCache

  /** A cached search whose call was among the first `n`. */
  predicate StaleEntry(e: Entry, n: nat) { e.methodName == CLAIM_SEARCH && e.flight < n }

  ghost predicate HasStale(s: State, n: nat) { exists key :: key in s.cache && StaleEntry(s.cache[key], n) }

  /** A search among the first `n` calls that is still under way. */
  predicate StaleCall(s: State, slot: Slot, n: nat)
  {
    && slot in s.open && s.open[slot] < n && s.open[slot] < |s.flights|
    && s.flights[s.open[slot]].req.methodName == CLAIM_SEARCH
  }

  /** A request that has, or is about to take, the answer to a search among the first `n` calls, and
      still has time to store it. */
  predicate MayStoreStale(s: State, pc: Pc, n: nat)
  {
    && (pc.Waiting? || pc.Storing?) && pc.q.req.methodName == CLAIM_SEARCH && s.clock <= pc.q.since + CACHE_TIMEOUT
    && pc.flight < n && pc.flight < |s.flights| && s.flights[pc.flight].result.Some?
    && s.flights[pc.flight].result.value.Reply? && s.flights[pc.flight].result.value.rpc.resp.error.None?
  }

  ghost predicate Clean(s: State, n: nat)
  {
    && n <= |s.flights| && !HasStale(s, n)
    && (forall slot :: !StaleCall(s, slot, n))
    && (forall a :: a in s.agents ==> !MayStoreStale(s, s.agents[a], n))
  }

  // ---- a clean cache stays clean ----

  lemma StoreClean(s: State, a: Id, n: nat)
    requires Inv(s) && Clean(s, n) && Enabled(s, Store(a, true))
    ensures !HasStale(Do(s, Store(a, true)), n)
  {
    hide KeyText, EntriesInv, FlightsInv, Cacheable;
    assert PcInv(s, s.agents[a]) && !MayStoreStale(s, s.agents[a], n);
    var t := Do(s, Store(a, true));
    forall key | key in t.cache ensures !StaleEntry(t.cache[key], n) {
      if key in s.cache && t.cache[key] == s.cache[key] {
        assert !StaleEntry(s.cache[key], n);
      }
    }
  }

  lemma EntriesClean(s: State, step: Step, n: nat)
    requires Inv(s) && Clean(s, n) && Enabled(s, step)
    ensures !HasStale(Do(s, step), n)
  {
    hide KeyText, Inv, Cacheable, MayStoreStale, StaleCall;
    if step.Store? && step.ok {
      StoreClean(s, step.a, n);
    } else {
      var t := Do(s, step);
      assert forall key :: key in t.cache ==> key in s.cache && t.cache[key] == s.cache[key];
    }
  }

  lemma CallsClean(s: State, step: Step, n: nat)
    requires Clean(s, n) && Enabled(s, step)
    ensures forall slot :: !StaleCall(Do(s, step), slot, n)
  {
    hide KeyText, Cacheable, MayStoreStale, HasStale;
    var t := Do(s, step);
    forall slot ensures !StaleCall(t, slot, n) {
      assert !StaleCall(s, slot, n);
    }
  }

  /** A request that does not move: its call may have finished, but then it was none of those. */
  lemma WaiterClean(s: State, step: Step, pc: Pc, n: nat)
    requires Inv(s) && Clean(s, n) && Enabled(s, step) && PcInv(s, pc) && !MayStoreStale(s, pc, n)
    ensures !MayStoreStale(Do(s, step), pc, n)
  {
    StepLater(s, step);
    if (pc.Waiting? || pc.Storing?) && s.flights[pc.flight].result.None? && step.Finish? {
      assert !StaleCall(s, step.slot, n);
    }
    hide KeyText, Cacheable, Inv, PcInv, HasStale;
  }

  lemma MoverClean(s: State, step: Step, a: Id, n: nat)
    requires Inv(s) && Clean(s, n) && Enabled(s, step) && Moves(step, a) && a in Do(s, step).agents
    ensures !MayStoreStale(Do(s, step), Do(s, step).agents[a], n)
  {
    hide KeyText, Cacheable, HasStale, StaleCall, EntriesInv, PcsInv;
    if step.Join? && SlotOf(s.agents[a].q) in s.open {
      assert OpenInv(s, SlotOf(s.agents[a].q));
    } else if step.Take? {
      assert !MayStoreStale(s, s.agents[a], n);
    }
    hide FlightsInv;
  }

  lemma AgentsClean(s: State, step: Step, n: nat)
    requires Inv(s) && Clean(s, n) && Enabled(s, step)
    ensures var t := Do(s, step); forall a :: a in t.agents ==> !MayStoreStale(t, t.agents[a], n)
  {
    hide MayStoreStale, HasStale, StaleCall, PcInv, EntriesInv, FlightsInv, Do, Enabled;
    var t := Do(s, step);
    forall a | a in t.agents ensures !MayStoreStale(t, t.agents[a], n) {
      if Moves(step, a) {
        MoverClean(s, step, a, n);
      } else {
        OnlyMover(s, step, a);
        WaiterClean(s, step, s.agents[a], n);
      }
    }
  }

  lemma {:induction false} RunClean(s: State, steps: seq<Step>, t: State, n: nat)
    requires Inv(s) && Clean(s, n) && Runs(Next, s, steps, t)
    ensures Clean(t, n)
    decreases |steps|
  {
    hide Inv, Do, Enabled, HasStale, StaleCall, MayStoreStale;
    if steps != [] {
      StepKeeps(s, steps[0]);
      AgentsClean(s, steps[0], n);
      EntriesClean(s, steps[0], n);
      CallsClean(s, steps[0], n);
      RunClean(Do(s, steps[0]), steps[1..], t, n);
    }
  }

  // ---- how an old search comes back ----

  lemma StoreNow(o: State, s: State, a: Id, n: nat) returns (t: State)
    requires Leads(Next, o, s) && a in s.agents && s.agents[a].Storing? && MayStoreStale(s, s.agents[a], n)
    ensures Leads(Next, o, t) && HasStale(t, n)
  {
    hide KeyText, Leads;
    LeadsOn(Next, o, s, Store(a, true));
    t := Do(s, Store(a, true));
    assert StaleEntry(t.cache[KeyText(s.agents[a].q.req)], n);
  }

  lemma HolderStores(o: State, s: State, a: Id, n: nat) returns (t: State)
    requires Leads(Next, o, s) && a in s.agents && MayStoreStale(s, s.agents[a], n)
    ensures Leads(Next, o, t) && HasStale(t, n)
  {
    hide Leads, HasStale;
    if s.agents[a].Storing? {
      t := StoreNow(o, s, a, n);
    } else {
      LeadsOn(Next, o, s, Take(a));
      t := StoreNow(o, Do(s, Take(a)), a, n);
    }
  }

  lemma FreshId(agents: map<Id, Pc>) returns (a: Id)
    ensures a !in agents
  {
    a := AboveAll(agents.Keys);
    assert a !in agents.Keys;
  }

  lemma {:induction false} AboveAll(ids: set<Id>) returns (a: Id)
    ensures forall i :: i in ids ==> i < a
  {
    a := 0;
    if ids != {} {
      var x :| x in ids;
      var b := AboveAll(ids - {x});
      a := if b > x then b else x + 1;
      forall i | i in ids ensures i < a {
        if i != x { assert i in ids - {x}; }
      }
    }
  }

  const ANSWER := Response(Null, None)

  /** A request that comes now joins a call that is under way, and stores what it brings. */
  lemma JoinerStores(o: State, s: State, slot: Slot, n: nat) returns (t: State)
    requires Inv(s) && Leads(Next, o, s) && StaleCall(s, slot, n) && Searches(s.cache) == {}
    ensures Leads(Next, o, t) && HasStale(t, n)
  {
    var f := s.open[slot];
    var req := s.flights[f].req;
    assert OpenInv(s, slot) && FlightInv(s, f);
    NotCached(s, req);
    hide Leads, KeyText, Cacheable, Inv, HasStale;
    var a := FreshId(s.agents);
    var q := Incoming(slot.process, 0, req, s.clock);
    t := JoinAlone(o, s, a, q);
    assert t == With(s, a, Waiting(q, f));
    hide DoJoin, MayFind, Searches;
    t := FinishAlone(o, t, a, slot, n);
    t := HolderStores(o, t, a, n);
  }

  lemma FinishAlone(o: State, s: State, a: Id, slot: Slot, n: nat) returns (t: State)
    requires Leads(Next, o, s) && StaleCall(s, slot, n) && a in s.agents && s.agents[a].Waiting?
    requires s.agents[a].flight == s.open[slot] && s.agents[a].q.req.methodName == CLAIM_SEARCH
    requires s.agents[a].q.since == s.clock
    ensures Leads(Next, o, t) && a in t.agents && MayStoreStale(t, t.agents[a], n)
  {
    hide Leads;
    LeadsOn(Next, o, s, Finish(slot, Reply(Rpc(0, ANSWER))));
    t := Do(s, Finish(slot, Reply(Rpc(0, ANSWER))));
  }

  lemma NotCached(s: State, req: Request)
    requires Inv(s) && Searches(s.cache) == {} && Cacheable(req) && req.methodName == CLAIM_SEARCH
    ensures KeyText(req) !in s.cache
  {
    hide KeyText, Cacheable, PcsInv, FlightsInv;
    var key := KeyText(req);
    assert key !in Searches(s.cache);
    if key in s.cache {
      assert (key, s.cache[key]) in s.stored && EntryInv(s, key, s.cache[key]);
      SameRequest(req, s.flights[s.cache[key].flight].req);
    }
  }

  // ---- the exact condition ----

  /** A search is under way, or some request has the answer to one and has time to store it. */
  ghost predicate Threatened(s: State)
  {
    || (exists slot :: StaleCall(s, slot, |s.flights|))
    || (exists a :: a in s.agents && MayStoreStale(s, s.agents[a], |s.flights|))
  }

  lemma SameThreat(s: State, height: int)
    requires height > s.height
    ensures var t := Do(s, Invalidate(height, true));
            && t.flights == s.flights && Searches(t.cache) == {}
            && (forall slot, n :: StaleCall(t, slot, n) <==> StaleCall(s, slot, n))
            && t.agents == s.agents && (forall pc, n :: MayStoreStale(t, pc, n) <==> MayStoreStale(s, pc, n))
  {
  }

  /** After the searches have been dropped for a new block, one that was asked for before can come back
      into the master's cache exactly if, at that moment, a search was under way or some request had the answer
      to one and time to store it. */
  lemma InvalidationHolds(o: State, s: State, height: int)
    requires Initial(o) && Leads(Next, o, s) && height > s.height
    ensures var t := Do(s, Invalidate(height, true));
            (exists u :: Leads(Next, t, u) && HasStale(u, |s.flights|)) <==> Threatened(s)
  {
    LeadsKeeps(o, s);
    var n := |s.flights|;
    var t := Do(s, Invalidate(height, true));
    StepKeeps(s, Invalidate(height, true));
    SameThreat(s, height);
    hide Leads, MayStoreStale, StaleCall, Inv, Do;
    if Threatened(s) {
      Stutter(Next, t);
      if slot :| StaleCall(s, slot, n) {
        var u := JoinerStores(t, t, slot, n);
      } else {
        var a :| a in s.agents && MayStoreStale(s, s.agents[a], n);
        var u := HolderStores(t, t, a, n);
      }
    } else {
      assert Clean(t, n) by { NoneLeft(t, n); }
      hide HasStale;
      forall u | Leads(Next, t, u) ensures !HasStale(u, n) {
        StaysClean(t, u, n);
      }
    }
  }

  lemma NoneLeft(t: State, n: nat)
    requires Searches(t.cache) == {}
    ensures !HasStale(t, n)
  {
    forall key | key in t.cache ensures !StaleEntry(t.cache[key], n) {
      assert key !in Searches(t.cache);
    }
  }

  lemma StaysClean(t: State, u: State, n: nat)
    requires Inv(t) && Clean(t, n) && Leads(Next, t, u)
    ensures !HasStale(u, n)
  {
    hide Inv, HasStale;
    var steps :| Runs(Next, t, steps, u);
    RunClean(t, steps, u, n);
  }

  /** A run in which it does come back: a search is under way when the block comes. */
  lemma OldSearchReturns(now: nat, height: int) returns (o: State, s: State, u: State)
    ensures Initial(o) && Leads(Next, o, s) && s.height < height
    ensures Leads(Next, Do(s, Invalidate(height, true)), u) && HasStale(u, |s.flights|)
  {
    var req := Request(CLAIM_SEARCH, None);
    o := State(now, height - 1, map[], {}, map[], [], map[]);
    assert Cacheable(req) by {
      assert CLAIM_SEARCH == RELAXED_METHODS[6];
      AllowedMethod(CLAIM_SEARCH);
    }
    hide Leads, KeyText, Cacheable;
    Stutter(Next, o);
    s := JoinAlone(o, o, 0, Incoming(0, 0, req, now));
    assert StaleCall(s, Slot(0, KeyText(req)), |s.flights|);
    hide StaleCall, DoJoin, Do;
    InvalidationHolds(o, s, height);
    u :| Leads(Next, Do(s, Invalidate(height, true)), u) && HasStale(u, |s.flights|);
  }

  // ---- when invalidating fails ----

  /** No step drops or hides the entry but what would be allowed to: an eviction or a newer answer. */
  lemma {:induction false} EntryRemains(s: State, steps: seq<Step>, u: State, key: Key, e: Entry, since: nat)
    requires Runs(Next, s, steps, u) && key in s.cache && since <= s.clock
    requires s.cache[key] == e || s.cache[key].storedAt >= since
    requires forall i :: 0 <= i < |steps| ==>
               steps[i] != Evict(key) && (steps[i].Invalidate? ==> steps[i].height <= s.height)
    ensures u.height == s.height && key in u.cache && (u.cache[key] == e || u.cache[key].storedAt >= since)
    decreases |steps|
  {
    hide KeyText, Cacheable;
    if steps != [] {
      var t := Do(s, steps[0]);
      assert steps[0] != Evict(key);
      EntryRemains(t, steps[1..], u, key, e, since);
    }
  }

  /** A block is handled once. When invalidating fails for it, every search that was cached stays until
      a higher block comes: along every run it is there, unless the backend evicts it or a newer answer
      to the same search takes its place. */
  lemma FailedInvalidationStays(s: State, height: int, steps: seq<Step>, u: State, key: Key)
    requires height > s.height && key in s.cache && Runs(Next, Do(s, Invalidate(height, false)), steps, u)
    requires forall i :: 0 <= i < |steps| ==>
               steps[i] != Evict(key) && (steps[i].Invalidate? ==> steps[i].height <= height)
    ensures u.height == height && key in u.cache
    ensures u.cache[key] == s.cache[key] || u.cache[key].storedAt >= s.clock
  {
    EntryRemains(Do(s, Invalidate(height, false)), steps, u, key, s.cache[key], s.clock);
  }
}
