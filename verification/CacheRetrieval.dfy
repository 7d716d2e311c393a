/** Retrieval and invalidation as they are written, over the cache and the calls under way. */
module CacheRetrieval {
  import opened Text
  import opened StepSystems
  import opened Json
  import opened QueryRequest
  import opened QueryCache

  // ---- single requests ----

  function CallNumber(s: State, slot: Slot): nat { if slot in s.open then s.open[slot] else |s.flights| }

  /** A request that has missed joins the call under way or starts one, and waits until it is done. */
  lemma CallAlone(o: State, s: State, a: Id, outcome: Outcome, took: nat) returns (t: State)
    requires Leads(Next, o, s) && a in s.agents && s.agents[a].Missed?
    requires SlotOf(s.agents[a].q) in s.open ==> s.open[SlotOf(s.agents[a].q)] < |s.flights|
    ensures Leads(Next, o, t) && t.clock == s.clock + took
    ensures t.cache == s.cache && t.stored == s.stored && t.height == s.height
    ensures var q := s.agents[a].q;
            var f := CallNumber(s, SlotOf(q));
            && t.open == s.open - {SlotOf(q)}
            && |t.flights| == (if f < |s.flights| then |s.flights| else |s.flights| + 1)
            && f < |t.flights| && t.flights[f].result == Some(outcome)
            && t.agents == s.agents[a := Waiting(q, f)]
  {
    hide Leads, KeyText;
    LeadsOn(Next, o, s, Join(a));
    t := Do(s, Join(a));
    LeadsOn(Next, o, t, Tick(took));
    t := Do(t, Tick(took));
    var slot := SlotOf(s.agents[a].q);
    LeadsOn(Next, o, t, Finish(slot, outcome));
    t := Do(t, Finish(slot, outcome));
  }

  /** An answer is stored if it has no error and the backend takes it in time. */
  function StoredIf(
      cache: map<Key, Entry>, key: Key, req: Request, resp: Response, now: nat, f: nat, ok: bool): map<Key, Entry>
  {
    if resp.error.None? && ok then cache[key := NewEntry(req, resp, now, f)] else cache
  }

  /** What is stored, field by field. */
  lemma Stores(cache: map<Key, Entry>, key: Key, req: Request, resp: Response, now: nat, f: nat, ok: bool)
    ensures var after := StoredIf(cache, key, req, resp, now, f, ok);
            if resp.error.Some? || !ok then after == cache
            else && key in after && after - {key} == cache - {key}
                 && after[key].resp == resp && after[key].methodName == req.methodName
                 && after[key].expires == now + (if req.methodName == "resolve" then 600_000
                                                 else if req.methodName == "claim_search" then 160_000 else 60_000)
  {
  }

  function EverStored(
      stored: set<(Key, Entry)>, key: Key, req: Request, resp: Response, now: nat, f: nat, ok: bool): set<(Key, Entry)>
  {
    if resp.error.None? && ok then stored + {(key, NewEntry(req, resp, now, f))} else stored
  }

  lemma TakeAlone(o: State, s: State, a: Id, ok: bool) returns (t: State)
    requires Leads(Next, o, s) && a in s.agents && s.agents[a].Waiting? && s.agents[a].flight < |s.flights|
    requires s.flights[s.agents[a].flight].result.Some? && (ok ==> s.clock <= s.agents[a].q.since + CACHE_TIMEOUT)
    ensures Leads(Next, o, t)
    ensures var Waiting(q, f) := s.agents[a];
            match s.flights[f].result.value
            case Failure => t == With(s, a, Answered(q, Failed, s.clock))
            case Reply(rpc) =>
              t == With(s, a, Answered(q, Fetched(AnswerTo(q, rpc.resp), f), s.clock)).(
                     cache := StoredIf(s.cache, KeyText(q.req), q.req, rpc.resp, s.clock, f, ok),
                     stored := EverStored(s.stored, KeyText(q.req), q.req, rpc.resp, s.clock, f, ok))
  {
    hide Leads, KeyText;
    LeadsOn(Next, o, s, Take(a));
    t := Do(s, Take(a));
    if t.agents[a].Storing? {
      LeadsOn(Next, o, t, Store(a, ok));
      t := Do(t, Store(a, ok));
    }
  }

  lemma FetchAlone(o: State, s: State, a: Id, outcome: Outcome, took: nat, ok: bool) returns (t: State)
    requires Leads(Next, o, s) && a in s.agents && s.agents[a].Missed?
    requires SlotOf(s.agents[a].q) in s.open ==> s.open[SlotOf(s.agents[a].q)] < |s.flights|
    requires ok ==> s.clock + took <= s.agents[a].q.since + CACHE_TIMEOUT
    ensures Leads(Next, o, t) && t.clock == s.clock + took && t.height == s.height
    ensures var q := s.agents[a].q;
            var f := CallNumber(s, SlotOf(q));
            && t.open == s.open - {SlotOf(q)}
            && |t.flights| == (if f < |s.flights| then |s.flights| else |s.flights| + 1)
            && match outcome
               case Failure =>
                 && t.cache == s.cache && t.stored == s.stored
                 && t.agents == s.agents[a := Answered(q, Failed, t.clock)]
               case Reply(rpc) =>
                 && t.cache == StoredIf(s.cache, KeyText(q.req), q.req, rpc.resp, t.clock, f, ok)
                 && t.stored == EverStored(s.stored, KeyText(q.req), q.req, rpc.resp, t.clock, f, ok)
                 && t.agents == s.agents[a := Answered(q, Fetched(AnswerTo(q, rpc.resp), f), t.clock)]
  {
    hide Leads, KeyText, StoredIf, EverStored, CallNumber;
    t := CallAlone(o, s, a, outcome, took);
    t := TakeAlone(o, t, a, ok);
  }

  lemma ForwardAlone(o: State, s: State, a: Id) returns (t: State)
    requires Leads(Next, o, s) && a in s.agents && (s.agents[a].Asking? || s.agents[a].Missed?)
    ensures Leads(Next, o, t) && t == With(s, a, Answered(s.agents[a].q, Forwarded, s.clock))
  {
    LeadsOn(Next, o, s, Forward(a));
    t := Do(s, Forward(a));
  }

  /** What the backend says to a lookup: nothing in time, that it has no entry, or an entry. */
  datatype Lookup = Unanswered | NotFound | Found(entry: Entry)

  /** A lookup that the backend may answer so. */
  predicate Possible(s: State, key: Key, found: Lookup)
  {
    match found
    case Unanswered => true
    case NotFound => MayFind(s, key, None)
    case Found(e) => MayFind(s, key, Some(e))
  }

  /** A request that is answered from the cache, or passed on because the lookup fails or there is no
      getter. */
  lemma QuickAnswer(s: State, a: Id, q: Incoming, found: Lookup)
    requires a !in s.agents && Cacheable(q.req) && q.since == s.clock && Possible(s, KeyText(q.req), found)
    ensures Leads(Next, s, With(s, a, if found.Found? then FoundAnswer(q, found.entry, s.clock)
                                      else Answered(q, Forwarded, s.clock)))
  {
    hide Leads, Cacheable, KeyText, MayFind;
    Stutter(Next, s);
    var t;
    match found {
      case Unanswered =>
        LeadsOn(Next, s, s, Ask(a, q.process, q.id, q.req));
        t := ForwardAlone(s, Do(s, Ask(a, q.process, q.id, q.req)), a);
        assert t.agents == s.agents[a := Answered(q, Forwarded, s.clock)];
      case NotFound =>
        t := LookAlone(s, s, a, q, None);
        t := ForwardAlone(s, t, a);
        assert t.agents == s.agents[a := Answered(q, Forwarded, s.clock)];
      case Found(e) =>
        t := LookAlone(s, s, a, q, Some(e));
    }
  }

  // ---- the class ----

  class Cache {
    const process: Process
    var clock: nat
    var height: int
    var cache: map<Key, Entry>
    var open: map<Slot, nat>       // the calls under way
    var calls: nat
    ghost var stored: set<(Key, Entry)>
    ghost var flights: seq<Flight>
    ghost var agents: map<Id, Pc>

    ghost function Now(): State
      reads this
    {
      State(clock, height, cache, stored, open, flights, agents)
    }

    ghost predicate Valid()
      reads this
    {
      calls == |flights| && Inv(Now())
    }

    constructor (process: Process, now: nat, height: int)
      ensures Valid() && Initial(Now()) && this.process == process && this.height == height
    {
      this.process := process;
      clock, this.height, cache, open, calls := now, height, map[], map[], 0;
      stored, flights, agents := {}, [], map[];
    }

    /** `found` is what the backend says to the lookup, `getter` is what the call brings, the one under
        way for the key or a new one, if there is a getter, `took` the time until then and `takes`
        whether the backend takes the answer. */
    method Retrieve(
        a: Id, id: int, req: Request, key: Key, found: Lookup, getter: Option<Outcome>, took: nat, takes: bool)
      returns (answer: Answer)
      requires Valid() && Cacheable(req) && key == KeyText(req) && a !in agents && Possible(Now(), key, found)
      modifies this
      ensures Valid() && Leads(Next, old(Now()), Now()) && height == old(height)
      ensures agents == old(agents)[a := Answered(Incoming(process, id, req, old(clock)), answer, clock)]
      ensures found.Found? ==>
                && answer == Cached(Rpc(id, found.entry.resp), found.entry.flight)
                && cache == old(cache) && open == old(open)
      ensures found.Unanswered? || (found.NotFound? && getter.None?) ==>
                answer == Forwarded && cache == old(cache) && open == old(open)
      ensures found.NotFound? && getter.Some? ==>
                && open == old(open) - {Slot(process, key)}
                && match getter.value
                   case Failure => answer == Failed && cache == old(cache)
                   case Reply(rpc) =>
                     && answer == Fetched(Rpc(id, rpc.resp), Called(old(open), Slot(process, key), old(calls)))
                     && cache == StoredIf(old(cache), key, req, rpc.resp, clock, answer.flight,
                                          takes && took <= CACHE_TIMEOUT)
      ensures clock == old(clock) + if found.NotFound? && getter.Some? then took else 0
      ensures if && found.NotFound? && getter.Some? && getter.value.Reply? && getter.value.rpc.resp.error.None?
                 && takes && took <= 5000
              then && key in cache && cache - {key} == old(cache) - {key}
                   && cache[key].resp == getter.value.rpc.resp && cache[key].methodName == req.methodName
                   && cache[key].expires == clock + (if req.methodName == "resolve" then 600_000
                                                     else if req.methodName == "claim_search" then 160_000 else 60_000)
              else cache == old(cache)
    {
      ghost var s := Now();
      var q := Incoming(process, id, req, clock);
      var slot := Slot(process, key);
      assert slot in open ==> open[slot] < calls by {
        if slot in open { assert OpenInv(s, slot); }
      }
      hide Leads, Cacheable, KeyText, Enabled, Do, Inv, StoredIf, MayFind, Expiration;
      Stutter(Next, s);
      if found.NotFound? && getter.Some? {
        ghost var t := LookAlone(s, s, a, q, None);
        answer := Fetch(s, a, q, slot, getter.value, took, takes);
        if getter.value.Reply? {
          Stores(old(cache), key, req, getter.value.rpc.resp, clock, answer.flight, takes && took <= CACHE_TIMEOUT);
        }
      } else {
        answer := if found.Found? then Cached(Rpc(id, found.entry.resp), found.entry.flight) else Forwarded;
        QuickAnswer(s, a, q, found);
        agents := agents[a := Answered(q, answer, clock)];
      }
      LeadsKeeps(s, Now());
    }

    /** The part after a miss. */
    method Fetch(ghost o: State, a: Id, q: Incoming, slot: Slot, outcome: Outcome, took: nat, takes: bool)
      returns (answer: Answer)
      requires calls == |flights| && slot == SlotOf(q) && q.since == clock && (slot in open ==> open[slot] < calls)
      requires Leads(Next, o, With(Now(), a, Missed(q)))
      modifies this
      ensures clock == old(clock) + took
      ensures calls == |flights| && Leads(Next, o, Now()) && height == old(height) && open == old(open) - {slot}
      ensures agents == old(agents)[a := Answered(q, answer, clock)]
      ensures match outcome
              case Failure => answer == Failed && cache == old(cache)
              case Reply(rpc) =>
                && answer == Fetched(Rpc(q.id, rpc.resp), Called(old(open), slot, old(calls)))
                && cache == StoredIf(old(cache), slot.key, q.req, rpc.resp, clock, answer.flight,
                                     takes && took <= CACHE_TIMEOUT)
    {
      hide Leads, KeyText, Enabled, Do, StoredIf;
      ghost var s := With(Now(), a, Missed(q));
      ghost var t := FetchAlone(o, s, a, outcome, took, takes && took <= CACHE_TIMEOUT);
      var f := Called(open, slot, calls);
      calls := if slot in open then calls else calls + 1;
      open := open - {slot};
      clock := clock + took;
      stored, flights, agents := t.stored, t.flights, t.agents;
      match outcome {
        case Failure =>
          answer := Failed;
        case Reply(rpc) =>
          answer := Fetched(AnswerTo(q, rpc.resp), f);
          cache := StoredIf(cache, slot.key, q.req, rpc.resp, clock, f, takes && took <= CACHE_TIMEOUT);
      }
    }

    /** `chain` is the height the chain reports, if it does; `accepts` whether the backend invalidates. */
    method RunInvalidator(chain: Option<int>, accepts: bool) returns (ok: bool)
      requires Valid()
      modifies this
      ensures Valid() && Leads(Next, old(Now()), Now())
      ensures agents == old(agents) && flights == old(flights) && open == old(open) && clock == old(clock)
      ensures stored == old(stored)
      ensures ok <==> chain.Some? && (old(height) >= chain.value || accepts)
      ensures height == if chain.Some? && chain.value > old(height) then chain.value else old(height)
      ensures cache == if chain.Some? && chain.value > old(height) && accepts then old(cache) - Searches(old(cache))
                       else old(cache)
      ensures forall key :: key in cache ==> key in old(cache) && cache[key] == old(cache)[key]
      ensures forall key :: key in old(cache) ==>
                (key !in cache <==> && chain.Some? && chain.value > old(height) && accepts
                                    && old(cache)[key].methodName == "claim_search")
    {
      hide Leads, Inv;
      ghost var s := Now();
      Stutter(Next, s);
      if chain.None? {
        return false;
      }
      LeadsOn(Next, s, s, Invalidate(chain.value, accepts));
      LeadsKeeps(s, Do(s, Invalidate(chain.value, accepts)));
      if height >= chain.value {
        return true;
      }
      height := chain.value;
      if !accepts {
        return false;
      }
      cache := cache - Searches(cache);
      return true;
    }
  }

  /** The number of the call a request gets its answer from: the one under way or the next. */
  function Called(open: map<Slot, nat>, slot: Slot, calls: nat): nat { if slot in open then open[slot] else calls }

  /** An entry's method is that of the request it answers, so a request of another method than
      `claim_search` finds after an invalidation what it found before. */
  lemma OthersSurvive(s: State, height: int, req: Request)
    requires Inv(s) && Cacheable(req)
    ensures var t := Do(s, Invalidate(height, true));
            if req.methodName == "claim_search" && height > s.height then KeyText(req) !in t.cache
            else && (KeyText(req) in t.cache <==> KeyText(req) in s.cache)
                 && (KeyText(req) in t.cache ==> t.cache[KeyText(req)] == s.cache[KeyText(req)])
  {
    hide KeyText, Cacheable, PcsInv, FlightsInv;
    var key := KeyText(req);
    if key in s.cache {
      assert (key, s.cache[key]) in s.stored && EntryInv(s, key, s.cache[key]);
      SameRequest(req, s.flights[s.cache[key].flight].req);
    }
  }

  // ---- a shared call ----

  /** A run in which two requests share one call: made under the first one's id, answered by the SDK
      under a third, it is passed on to each under its own. */
  lemma OneCallTwoIds(req: Request, i: int, j: int, rpc: Rpc) returns (o: State, s: State)
    requires Cacheable(req) && rpc.resp.error.None?
    ensures Initial(o) && Leads(Next, o, s) && |s.flights| == 1
    ensures s.flights[0].id == i && s.flights[0].result == Some(Reply(rpc))
    ensures s.agents == map[0 := Answered(Incoming(0, i, req, 0), Fetched(Rpc(i, rpc.resp), 0), 0),
                            1 := Answered(Incoming(0, j, req, 0), Fetched(Rpc(j, rpc.resp), 0), 0)]
  {
    hide Leads, KeyText, Cacheable;
    o := State(0, 0, map[], {}, map[], [], map[]);
    var slot := Slot(0, KeyText(req));
    var p, q := Incoming(0, i, req, 0), Incoming(0, j, req, 0);
    Stutter(Next, o);
    s := JoinAlone(o, o, 0, p);
    s := JoinAlone(o, s, 1, q);
    assert s == State(0, 0, map[], {}, map[slot := 0], [Flight(0, req, i, 0, None, 0)],
                      map[0 := Waiting(p, 0), 1 := Waiting(q, 0)]);
    hide DoJoin;
    LeadsOn(Next, o, s, Finish(slot, Reply(rpc)));
    s := Do(s, Finish(slot, Reply(rpc)));
    hide Do, Enabled;
    s := TakeAlone(o, s, 0, false);
    s := TakeAlone(o, s, 1, false);
  }

  /** A run in which an entry that was dropped for a new block still answers a request afterwards: a
      replica has not heard of it. */
  lemma DroppedEntryServed(q: Incoming, rpc: Rpc, height: int) returns (o: State, s: State)
    requires Cacheable(q.req) && q.req.methodName == CLAIM_SEARCH && rpc.resp.error.None? && q.since == 0
    ensures Initial(o) && Leads(Next, o, s) && s.cache == map[] && s.height == height && |s.flights| == 1
    ensures 1 in s.agents && s.agents[1] == Answered(q, Cached(Rpc(q.id, rpc.resp), 0), 0)
  {
    hide Leads, KeyText, Cacheable;
    o := State(0, height - 1, map[], {}, map[], [], map[]);
    var slot, key := SlotOf(q), KeyText(q.req);
    var e := NewEntry(q.req, rpc.resp, 0, 0);
    Stutter(Next, o);
    s := JoinAlone(o, o, 0, q);
    assert s == State(0, height - 1, map[], {}, map[slot := 0], [Flight(q.process, q.req, q.id, 0, None, 0)],
                      map[0 := Waiting(q, 0)]);
    LeadsOn(Next, o, s, Finish(slot, Reply(rpc)));
    s := Do(s, Finish(slot, Reply(rpc)));
    s := TakeAlone(o, s, 0, true);
    assert s.cache == map[key := e] && s.stored == {(key, e)} && |s.flights| == 1;
    hide DoJoin, DoTake, DoStore;
    s := DropAndLook(o, s, q, e, height);
  }

  lemma DropAndLook(o: State, s: State, q: Incoming, e: Entry, height: int) returns (t: State)
    requires Leads(Next, o, s) && Cacheable(q.req) && e.methodName == CLAIM_SEARCH && q.since == s.clock < e.expires
    requires s.cache == map[KeyText(q.req) := e] && (KeyText(q.req), e) in s.stored && 1 !in s.agents
    requires height > s.height
    ensures Leads(Next, o, t) && t.cache == map[] && t.height == height && t.flights == s.flights
    ensures 1 in t.agents && t.agents[1] == FoundAnswer(q, e, s.clock)
  {
    hide Leads, KeyText, Cacheable;
    LeadsOn(Next, o, s, Invalidate(height, true));
    t := Do(s, Invalidate(height, true));
    assert KeyText(q.req) in Searches(s.cache);
    assert t.cache == map[];
    t := LookAlone(o, t, 1, q, Some(e));
  }
}
