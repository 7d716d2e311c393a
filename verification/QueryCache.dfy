/** The query cache: lookups, the singleflight group that merges calls for one key, storing of
    answers without errors, and the invalidation of searches on a new block.

    Any number of requests in any number of processes interleave. A request looks its key up, on a miss
    joins the call under way for that key in its process or starts one, and stores what the call
    brought. The processes share one caching backend, a master with replicas that lag: a lookup may find
    any entry ever stored under the key that has not expired, and misses only if the master does (as
    `ReplicatedCache.ReadsAreHistoric` has it). The backend may drop entries at any moment, and a cache
    operation fails at the latest when the request's five seconds for cache operations are over. Times
    are in milliseconds. */
module QueryCache {
  import opened Text
  import opened StepSystems
  import opened Json
  import opened QueryRequest

  type Id = nat
  type Key = string
  type Process = nat

  /** Each process has its own group of calls under way. */
  datatype Slot = Slot(process: Process, key: Key)

  const CACHE_TIMEOUT := 5000

  function Expiration(methodName: string): nat
  {
    if methodName == RESOLVE then 600_000 else if methodName == CLAIM_SEARCH then 160_000 else 60_000
  }

  /** How long an answer is kept, by method. */
  lemma ExpirationTimes(methodName: string)
    ensures Expiration("resolve") == 10 * 60 * 1000 && Expiration("claim_search") == 160 * 1000
    ensures methodName !in {"resolve", "claim_search"} ==> Expiration(methodName) == 60 * 1000
  {
    assert "resolve"[0] != "claim_search"[0];
  }

  /** What is cached of a response, and a response as it travels, with a JSON-RPC id. */
  datatype Response = Response(result: Json, error: Option<string>)
  datatype Rpc = Rpc(id: int, resp: Response)

  /** `rpc` is the SDK's response as it came, whatever id it carries. */
  datatype Outcome = Failure | Reply(rpc: Rpc)

  /** A client's request: where and when it came, its JSON-RPC id, its method and parameters. */
  datatype Incoming = Incoming(process: Process, id: int, req: Request, since: nat)

  /** One call of a getter, made under the id of the request that started it. */
  datatype Flight = Flight(
    process: Process, req: Request, id: int, startedAt: nat, result: Option<Outcome>, finishedAt: nat)

  /** `flight` is the number of the call the answer came from. */
  datatype Entry = Entry(resp: Response, methodName: string, storedAt: nat, expires: nat, flight: nat)

  /** What the client is told. */
  datatype Answer =
    | Cached(rpc: Rpc, flight: nat)
    | Fetched(rpc: Rpc, flight: nat)
    | Failed
    | Forwarded      // the request goes on to the SDK, past the cache

  datatype Pc =
    | Asking(q: Incoming)
    | Missed(q: Incoming)
    | Waiting(q: Incoming, flight: nat)
    | Storing(q: Incoming, flight: nat)
    | Answered(q: Incoming, answer: Answer, at: nat)

  /** `cache` is what the master holds, `stored` all that was ever stored. */
  datatype State = State(
    clock: nat, height: int, cache: map<Key, Entry>, stored: set<(Key, Entry)>, open: map<Slot, nat>,
    flights: seq<Flight>, agents: map<Id, Pc>)

  datatype Step =
    | Tick(ms: nat)
    | Ask(a: Id, process: Process, id: int, req: Request)
    | Look(a: Id, found: Option<Entry>)
    | Forward(a: Id)                     // the lookup failed, or there is no getter
    | Join(a: Id)
    | Finish(slot: Slot, outcome: Outcome)
    | Take(a: Id)
    | Store(a: Id, ok: bool)
    | Evict(key: Key)
    | Invalidate(height: int, ok: bool)

  /** A request that made it through the allow lists and holds proper JSON. */
  ghost predicate Cacheable(req: Request) { NoColon(req.methodName) && ValidParams(req.params) }

  predicate Warm(cache: map<Key, Entry>, key: Key, now: nat) { key in cache && now < cache[key].expires }

  /** What the backend may give for a key. */
  predicate MayFind(s: State, key: Key, found: Option<Entry>)
  {
    match found
    case Some(e) => (key, e) in s.stored && s.clock < e.expires
    case None => !Warm(s.cache, key, s.clock)
  }

  ghost predicate Enabled(s: State, step: Step)
  {
    match step
    case Tick(_) => true
    case Ask(a, _, _, req) => a !in s.agents && Cacheable(req)
    case Look(a, found) =>
      && a in s.agents && s.agents[a].Asking? && s.clock <= s.agents[a].q.since + CACHE_TIMEOUT
      && MayFind(s, KeyText(s.agents[a].q.req), found)
    case Forward(a) => a in s.agents && (s.agents[a].Asking? || s.agents[a].Missed?)
    case Join(a) => a in s.agents && s.agents[a].Missed?
    case Finish(slot, _) => slot in s.open && s.open[slot] < |s.flights|
    case Take(a) =>
      && a in s.agents && s.agents[a].Waiting? && s.agents[a].flight < |s.flights|
      && s.flights[s.agents[a].flight].result.Some?
    case Store(a, ok) =>
      && a in s.agents && s.agents[a].Storing? && s.agents[a].flight < |s.flights|
      && s.flights[s.agents[a].flight].result.Some? && s.flights[s.agents[a].flight].result.value.Reply?
      && (ok ==> s.clock <= s.agents[a].q.since + CACHE_TIMEOUT)
    case Evict(_) => true
    case Invalidate(_, _) => true
  }

  function With(s: State, a: Id, pc: Pc): State { s.(agents := s.agents[a := pc]) }

  function Searches(cache: map<Key, Entry>): set<Key> { set k | k in cache && cache[k].methodName == CLAIM_SEARCH }

  /** Only the result and the error of a response are kept; the asker's id is put to them. */
  function AnswerTo(q: Incoming, resp: Response): Rpc { Rpc(q.id, resp) }

  function FoundAnswer(q: Incoming, e: Entry, now: nat): Pc
  {
    Answered(q, Cached(AnswerTo(q, e.resp), e.flight), now)
  }

  function DoLook(s: State, a: Id, found: Option<Entry>): State
    requires a in s.agents && s.agents[a].Asking?
  {
    var q := s.agents[a].q;
    With(s, a, if found.Some? then FoundAnswer(q, found.value, s.clock) else Missed(q))
  }

  ghost function SlotOf(q: Incoming): Slot { Slot(q.process, KeyText(q.req)) }

  ghost function DoJoin(s: State, a: Id): State
    requires a in s.agents && s.agents[a].Missed?
  {
    var q := s.agents[a].q;
    if SlotOf(q) in s.open then With(s, a, Waiting(q, s.open[SlotOf(q)]))
    else With(s, a, Waiting(q, |s.flights|)).(
           open := s.open[SlotOf(q) := |s.flights|],
           flights := s.flights + [Flight(q.process, q.req, q.id, s.clock, None, 0)])
  }

  function Finished(f: Flight, outcome: Outcome, now: nat): Flight { f.(result := Some(outcome), finishedAt := now) }

  function DoTake(s: State, a: Id): State
    requires a in s.agents && s.agents[a].Waiting? && s.agents[a].flight < |s.flights|
    requires s.flights[s.agents[a].flight].result.Some?
  {
    var Waiting(q, f) := s.agents[a];
    match s.flights[f].result.value
    case Failure => With(s, a, Answered(q, Failed, s.clock))
    case Reply(rpc) =>
      if rpc.resp.error.Some? then With(s, a, Answered(q, Fetched(AnswerTo(q, rpc.resp), f), s.clock))
      else With(s, a, Storing(q, f))
  }

  ghost function DoStore(s: State, a: Id, ok: bool): State
    requires Enabled(s, Store(a, ok))
  {
    var Storing(q, f) := s.agents[a];
    var resp := s.flights[f].result.value.rpc.resp;
    var t := With(s, a, Answered(q, Fetched(AnswerTo(q, resp), f), s.clock));
    if !ok then t
    else
      var e := NewEntry(q.req, resp, s.clock, f);
      t.(cache := s.cache[KeyText(q.req) := e], stored := s.stored + {(KeyText(q.req), e)})
  }

  function NewEntry(req: Request, resp: Response, now: nat, f: nat): Entry
  {
    Entry(resp, req.methodName, now, now + Expiration(req.methodName), f)
  }

  ghost function Do(s: State, step: Step): State
    requires Enabled(s, step)
  {
    match step
    case Tick(ms) => s.(clock := s.clock + ms)
    case Ask(a, process, id, req) => With(s, a, Asking(Incoming(process, id, req, s.clock)))
    case Look(a, found) => DoLook(s, a, found)
    case Forward(a) => With(s, a, Answered(s.agents[a].q, Forwarded, s.clock))
    case Join(a) => DoJoin(s, a)
    case Finish(slot, outcome) =>
      var f := s.open[slot];
      s.(open := s.open - {slot}, flights := s.flights[f := Finished(s.flights[f], outcome, s.clock)])
    case Take(a) => DoTake(s, a)
    case Store(a, ok) => DoStore(s, a, ok)
    case Evict(key) => s.(cache := s.cache - {key})
    case Invalidate(height, ok) =>
      if height <= s.height then s
      else s.(height := height, cache := if ok then s.cache - Searches(s.cache) else s.cache)
  }

  ghost function Next(s: State, step: Step): Option<State> { if Enabled(s, step) then Some(Do(s, step)) else None }

  ghost predicate Initial(s: State)
  {
    s.cache == map[] && s.stored == {} && s.open == map[] && s.flights == [] && s.agents == map[]
  }

  // ---- invariant ----

  /** Call `f` was for this request and brought this answer. */
  ghost predicate Brought(s: State, f: nat, req: Request, resp: Response)
  {
    && f < |s.flights| && s.flights[f].req == req && s.flights[f].result.Some?
    && s.flights[f].result.value.Reply? && s.flights[f].result.value.rpc.resp == resp
  }

  ghost predicate EntryInv(s: State, key: Key, e: Entry)
  {
    && e.flight < |s.flights|
    && var f := s.flights[e.flight];
       && KeyText(f.req) == key && Cacheable(f.req) && f.req.methodName == e.methodName
       && Brought(s, e.flight, f.req, e.resp) && e.resp.error.None?
       && f.finishedAt <= e.storedAt <= s.clock && e.storedAt <= f.finishedAt + CACHE_TIMEOUT
       && e.expires == e.storedAt + Expiration(e.methodName)
  }

  ghost predicate FlightInv(s: State, i: nat)
    requires i < |s.flights|
  {
    var f := s.flights[i];
    && Cacheable(f.req) && f.startedAt <= s.clock
    && (f.result.Some? ==> f.startedAt <= f.finishedAt <= s.clock)
    && (f.result.None? ==>
          Slot(f.process, KeyText(f.req)) in s.open && s.open[Slot(f.process, KeyText(f.req))] == i)
  }

  ghost predicate OpenInv(s: State, slot: Slot)
    requires slot in s.open
  {
    && s.open[slot] < |s.flights| && s.flights[s.open[slot]].result.None?
    && s.flights[s.open[slot]].process == slot.process && KeyText(s.flights[s.open[slot]].req) == slot.key
  }

  ghost predicate AnswerInv(s: State, q: Incoming, answer: Answer, at: nat)
  {
    match answer
    case Fetched(rpc, f) =>
      rpc.id == q.id && Brought(s, f, q.req, rpc.resp) && q.since <= s.flights[f].finishedAt <= at
    case Cached(rpc, f) =>
      && rpc.id == q.id && Brought(s, f, q.req, rpc.resp) && rpc.resp.error.None?
      && s.flights[f].finishedAt <= at < s.flights[f].finishedAt + CACHE_TIMEOUT + Expiration(q.req.methodName)
    case _ => true
  }

  ghost predicate PcInv(s: State, pc: Pc)
  {
    && Cacheable(pc.q.req) && pc.q.since <= s.clock
    && match pc
       case Waiting(q, f) =>
         && f < |s.flights| && s.flights[f].req == q.req
         && (s.flights[f].result.Some? ==> q.since <= s.flights[f].finishedAt)
       case Storing(q, f) =>
         && f < |s.flights| && s.flights[f].req == q.req && q.since <= s.flights[f].finishedAt
         && s.flights[f].result.Some? && s.flights[f].result.value.Reply?
         && s.flights[f].result.value.rpc.resp.error.None?
       case Answered(q, answer, at) => at <= s.clock && AnswerInv(s, q, answer, at)
       case _ => true
  }

  /** Two calls of one process for one request are never under way together. */
  ghost predicate Apart(f: Flight, g: Flight)
  {
    f.process == g.process && f.req == g.req ==> f.result.Some? && f.finishedAt <= g.startedAt
  }

  ghost predicate PcsInv(s: State) { forall a :: a in s.agents ==> PcInv(s, s.agents[a]) }

  ghost predicate EntriesInv(s: State)
  {
    && (forall key, e :: (key, e) in s.stored ==> EntryInv(s, key, e))
    && (forall key :: key in s.cache ==> (key, s.cache[key]) in s.stored)
  }

  ghost predicate FlightsInv(s: State)
  {
    && (forall i: nat :: i < |s.flights| ==> FlightInv(s, i))
    && (forall slot :: slot in s.open ==> OpenInv(s, slot))
    && (forall i: nat, j: nat :: i < j < |s.flights| ==> Apart(s.flights[i], s.flights[j]))
  }

  ghost predicate Inv(s: State) { PcsInv(s) && EntriesInv(s) && FlightsInv(s) }

  /** What time and other requests do to a call: it stays as it is once it has finished. */
  ghost predicate Later(s: State, t: State)
  {
    && s.clock <= t.clock && |s.flights| <= |t.flights|
    && forall i :: 0 <= i < |s.flights| ==> FlightLater(s.flights[i], t.flights[i], s.clock)
  }

  ghost predicate FlightLater(f: Flight, g: Flight, now: nat)
  {
    && g.process == f.process && g.req == f.req && g.id == f.id && g.startedAt == f.startedAt
    && (f.result.Some? ==> g == f)
    && (f.result.None? && g.result.Some? ==> g.finishedAt >= now)
  }

  lemma StepLater(s: State, step: Step)
    requires Inv(s) && Enabled(s, step)
    ensures Later(s, Do(s, step))
  {
    hide KeyText, EntryInv, FlightInv, PcInv, Apart;
    if step.Finish? { assert OpenInv(s, step.slot); }
  }

  lemma PcStays(s: State, t: State, pc: Pc)
    requires Later(s, t) && PcInv(s, pc)
    ensures PcInv(t, pc)
  {
    hide Cacheable;
  }

  lemma EntryStays(s: State, t: State, key: Key, e: Entry)
    requires Later(s, t) && EntryInv(s, key, e)
    ensures EntryInv(t, key, e)
  {
    hide Cacheable, KeyText;
  }

  lemma SameRequest(a: Request, b: Request)
    requires Cacheable(a) && Cacheable(b) && KeyText(a) == KeyText(b)
    ensures a == b
  {
    KeyTextInjective(a, b);
  }

  lemma LookKeeps(s: State, a: Id, found: Option<Entry>)
    requires Inv(s) && Enabled(s, Look(a, found))
    ensures PcInv(Do(s, Look(a, found)), Do(s, Look(a, found)).agents[a])
  {
    hide KeyText, Cacheable, Apart;
    var pc := s.agents[a];
    assert PcInv(s, pc);
    if found.Some? {
      assert EntryInv(s, KeyText(pc.q.req), found.value);
      SameRequest(pc.q.req, s.flights[found.value.flight].req);
    }
  }

  lemma JoinKeeps(s: State, a: Id)
    requires Inv(s) && Enabled(s, Join(a))
    ensures PcInv(Do(s, Join(a)), Do(s, Join(a)).agents[a])
  {
    hide KeyText, Cacheable, Apart;
    var pc := s.agents[a];
    assert PcInv(s, pc);
    var slot := SlotOf(pc.q);
    if slot in s.open {
      assert OpenInv(s, slot) && FlightInv(s, s.open[slot]);
      SameRequest(pc.q.req, s.flights[s.open[slot]].req);
    }
  }

  lemma TakeKeeps(s: State, a: Id)
    requires Inv(s) && Enabled(s, Take(a))
    ensures PcInv(Do(s, Take(a)), Do(s, Take(a)).agents[a])
  {
    hide KeyText, Cacheable, Apart;
    assert PcInv(s, s.agents[a]);
    assert FlightInv(s, s.agents[a].flight);
  }

  lemma StoreKeeps(s: State, a: Id, ok: bool)
    requires Inv(s) && Enabled(s, Store(a, ok))
    ensures PcInv(Do(s, Store(a, ok)), Do(s, Store(a, ok)).agents[a])
  {
    hide KeyText, Cacheable, Apart;
    assert PcInv(s, s.agents[a]);
    assert FlightInv(s, s.agents[a].flight);
  }

  /** The request a step moves, and to where. */
  predicate Moves(step: Step, a: Id)
  {
    (step.Ask? || step.Look? || step.Forward? || step.Join? || step.Take? || step.Store?) && step.a == a
  }

  lemma OnlyMover(s: State, step: Step, a: Id)
    requires Enabled(s, step) && a in Do(s, step).agents && !Moves(step, a)
    ensures a in s.agents && Do(s, step).agents[a] == s.agents[a]
  {
    hide KeyText, Cacheable;
  }

  lemma MoverKeeps(s: State, step: Step, a: Id)
    requires Inv(s) && Enabled(s, step) && Moves(step, a)
    ensures a in Do(s, step).agents && PcInv(Do(s, step), Do(s, step).agents[a])
  {
    hide KeyText, Cacheable, Apart, EntryInv, FlightInv, OpenInv;
    match step {
      case Look(_, found) => LookKeeps(s, a, found);
      case Join(_) => JoinKeeps(s, a);
      case Take(_) => TakeKeeps(s, a);
      case Store(_, ok) => StoreKeeps(s, a, ok);
      case Forward(_) => assert PcInv(s, s.agents[a]);
      case Ask(_, _, _, _) =>
    }
  }

  lemma PcsKept(s: State, step: Step)
    requires Inv(s) && Enabled(s, step)
    ensures PcsInv(Do(s, step))
  {
    hide PcInv, Later, EntriesInv, FlightsInv, Do, Enabled;
    var t := Do(s, step);
    StepLater(s, step);
    forall a | a in t.agents ensures PcInv(t, t.agents[a]) {
      if Moves(step, a) {
        MoverKeeps(s, step, a);
      } else {
        OnlyMover(s, step, a);
        PcStays(s, t, s.agents[a]);
      }
    }
  }

  lemma StoredEntry(s: State, a: Id)
    requires Inv(s) && Enabled(s, Store(a, true))
    ensures var q, f := s.agents[a].q, s.agents[a].flight;
            var e := NewEntry(q.req, s.flights[f].result.value.rpc.resp, s.clock, f);
            EntryInv(Do(s, Store(a, true)), KeyText(q.req), e)
  {
    hide KeyText, Cacheable, Apart;
    assert PcInv(s, s.agents[a]);
    assert FlightInv(s, s.agents[a].flight);
  }

  lemma EntriesKept(s: State, step: Step)
    requires Inv(s) && Enabled(s, step)
    ensures EntriesInv(Do(s, step))
  {
    hide PcInv, KeyText, Later, EntryInv, FlightsInv;
    var t := Do(s, step);
    StepLater(s, step);
    forall key, e | (key, e) in t.stored ensures EntryInv(t, key, e) {
      if (key, e) in s.stored {
        EntryStays(s, t, key, e);
      } else {
        StoredEntry(s, step.a);
      }
    }
  }

  /** Steps that start and finish no call. */
  lemma FlightsStay(s: State, t: State)
    requires FlightsInv(s) && s.flights == t.flights && s.open == t.open && s.clock <= t.clock
    ensures FlightsInv(t)
  {
    hide KeyText, Cacheable, Apart;
    forall i: nat | i < |t.flights| ensures FlightInv(t, i) {
      assert FlightInv(s, i);
    }
    forall slot | slot in t.open ensures OpenInv(t, slot) {
      assert OpenInv(s, slot);
    }
  }

  lemma StartKeeps(s: State, a: Id)
    requires Inv(s) && Enabled(s, Join(a)) && SlotOf(s.agents[a].q) !in s.open
    ensures FlightsInv(Do(s, Join(a)))
  {
    hide KeyText, Cacheable, Apart;
    var t := Do(s, Join(a));
    var q := s.agents[a].q;
    var n := |s.flights|;
    assert PcInv(s, s.agents[a]);
    forall i: nat | i < |t.flights| ensures FlightInv(t, i) {
      if i < n { assert FlightInv(s, i); }
    }
    forall slot | slot in t.open ensures OpenInv(t, slot) {
      if slot in s.open { assert OpenInv(s, slot); }
    }
    forall i: nat, j: nat | i < j < |t.flights| ensures Apart(t.flights[i], t.flights[j]) {
      if j == n {
        NewApart(s, i, q);
      } else {
        assert Apart(s.flights[i], s.flights[j]);
      }
    }
  }

  lemma NewApart(s: State, i: nat, q: Incoming)
    requires i < |s.flights| && FlightInv(s, i) && SlotOf(q) !in s.open
    ensures Apart(s.flights[i], Flight(q.process, q.req, q.id, s.clock, None, 0))
  {
  }

  lemma FinishKeeps(s: State, slot: Slot, outcome: Outcome)
    requires Inv(s) && Enabled(s, Finish(slot, outcome))
    ensures FlightsInv(Do(s, Finish(slot, outcome)))
  {
    hide KeyText, Cacheable, Apart;
    var t := Do(s, Finish(slot, outcome));
    var f := s.open[slot];
    assert OpenInv(s, slot) && FlightInv(s, f);
    forall i: nat | i < |t.flights| ensures FlightInv(t, i) {
      assert FlightInv(s, i);
    }
    forall k | k in t.open ensures OpenInv(t, k) {
      assert OpenInv(s, k);
    }
    forall i: nat, j: nat | i < j < |t.flights| ensures Apart(t.flights[i], t.flights[j]) {
      assert Apart(s.flights[i], s.flights[j]);
      FinishedApart(s.flights[i], s.flights[j], outcome, s.clock);
    }
  }

  lemma FinishedApart(f: Flight, g: Flight, outcome: Outcome, now: nat)
    requires Apart(f, g)
    ensures Apart(f, Finished(g, outcome, now))
    ensures f.result.None? ==> Apart(Finished(f, outcome, now), g)
  {
  }

  lemma FlightsKept(s: State, step: Step)
    requires Inv(s) && Enabled(s, step)
    ensures FlightsInv(Do(s, step))
  {
    hide PcInv, KeyText, EntryInv, FlightInv, OpenInv, Apart;
    if step.Finish? {
      FinishKeeps(s, step.slot, step.outcome);
    } else if step.Join? && SlotOf(s.agents[step.a].q) !in s.open {
      StartKeeps(s, step.a);
    } else {
      FlightsStay(s, Do(s, step));
    }
  }

  lemma StepKeeps(s: State, step: Step)
    requires Inv(s) && Enabled(s, step)
    ensures Inv(Do(s, step)) && Later(s, Do(s, step))
  {
    StepLater(s, step);
    PcsKept(s, step);
    EntriesKept(s, step);
    FlightsKept(s, step);
    hide PcsInv, EntriesInv, FlightsInv, Later, Do;
  }

  lemma {:induction false} RunKeeps(s: State, steps: seq<Step>, t: State)
    requires Inv(s) && Runs(Next, s, steps, t)
    ensures Inv(t)
    decreases |steps|
  {
    hide Inv, Do, Enabled;
    if steps != [] {
      StepKeeps(s, steps[0]);
      RunKeeps(Do(s, steps[0]), steps[1..], t);
    }
  }

  lemma LeadsKeeps(s: State, t: State)
    requires Inv(s) && Leads(Next, s, t)
    ensures Inv(t)
  {
    var steps :| Runs(Next, s, steps, t);
    RunKeeps(s, steps, t);
  }

  // ---- what holds over every run ----

  /** Every answer a client is given carries the client's own id, whatever id the call was made under,
      and was brought by a call for that same method and those same parameters. Either the call
      finished while the request was waiting, or the answer has no error and the call finished less
      than the expiration time plus five seconds ago. */
  lemma EveryAnswer(o: State, s: State, a: Id)
    requires Initial(o) && Leads(Next, o, s) && a in s.agents && s.agents[a].Answered?
    requires s.agents[a].answer.Cached? || s.agents[a].answer.Fetched?
    ensures var Answered(q, answer, at) := s.agents[a];
            && answer.rpc.id == q.id
            && exists f: nat :: Brought(s, f, q.req, answer.rpc.resp) && s.flights[f].finishedAt <= at
                 && (q.since <= s.flights[f].finishedAt
                     || (answer.rpc.resp.error.None?
                         && at < s.flights[f].finishedAt + CACHE_TIMEOUT + Expiration(q.req.methodName)))
  {
    hide Brought;
    LeadsKeeps(o, s);
    assert PcInv(s, s.agents[a]);
    assert Brought(s, s.agents[a].answer.flight, s.agents[a].q.req, s.agents[a].answer.rpc.resp);
  }

  /** No error is ever stored, and nothing under a key that is not its request's. */
  lemma CacheHoldsAnswers(o: State, s: State, req: Request, e: Entry)
    requires Initial(o) && Leads(Next, o, s) && Cacheable(req) && (KeyText(req), e) in s.stored
    ensures e.resp.error.None? && Brought(s, e.flight, req, e.resp)
    ensures e.expires == e.storedAt + Expiration(req.methodName)
  {
    hide KeyText, Cacheable;
    LeadsKeeps(o, s);
    assert EntryInv(s, KeyText(req), e);
    SameRequest(req, s.flights[e.flight].req);
  }

  /** No process's cache has two calls for the same thing under way: of two calls for one request, the
      first has finished before the second starts. Requests that go past the cache, and other processes,
      may ask the SDK meanwhile. */
  lemma OneCallAtATime(o: State, s: State, i: nat, j: nat)
    requires Initial(o) && Leads(Next, o, s) && i < j < |s.flights|
    requires s.flights[i].process == s.flights[j].process && s.flights[i].req == s.flights[j].req
    ensures s.flights[i].result.Some? && s.flights[i].startedAt <= s.flights[i].finishedAt <= s.flights[j].startedAt
  {
    LeadsKeeps(o, s);
    assert Apart(s.flights[i], s.flights[j]) && FlightInv(s, i);
  }

  // ---- single requests ----

  /** A request that asks and looks, with nothing in between. */
  lemma LookAlone(o: State, s: State, a: Id, q: Incoming, found: Option<Entry>) returns (t: State)
    requires Leads(Next, o, s) && a !in s.agents && Cacheable(q.req) && q.since == s.clock
    requires MayFind(s, KeyText(q.req), found)
    ensures Leads(Next, o, t)
    ensures t == With(s, a, if found.Some? then FoundAnswer(q, found.value, s.clock) else Missed(q))
  {
    hide Leads, KeyText, Cacheable;
    LeadsOn(Next, o, s, Ask(a, q.process, q.id, q.req));
    t := Do(s, Ask(a, q.process, q.id, q.req));
    LeadsOn(Next, o, t, Look(a, found));
    t := Do(t, Look(a, found));
  }

  /** A request that misses and joins the call under way, or starts one. */
  lemma JoinAlone(o: State, s: State, a: Id, q: Incoming) returns (t: State)
    requires Leads(Next, o, s) && a !in s.agents && Cacheable(q.req) && q.since == s.clock
    requires MayFind(s, KeyText(q.req), None)
    ensures Leads(Next, o, t) && t == DoJoin(With(s, a, Missed(q)), a)
  {
    hide Leads, KeyText, Cacheable, MayFind, DoJoin;
    t := LookAlone(o, s, a, q, None);
    LeadsOn(Next, o, t, Join(a));
    t := Do(t, Join(a));
  }
}
