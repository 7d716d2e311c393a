/** First requests of users: each request creates the user's row if there is none, claims an SDK
    server for it with a conditional update, and creates the wallet there, inside one transaction
    that is retried once. Any number of requests interleave.

    A transaction's writes are its own until it commits; a row it inserted or updated is locked until
    it ends. After a failed statement Postgres refuses every further one of that transaction. */
module FirstLogin {
  import opened Text
  import opened StepSystems

  type UserId = int
  /** Id 0 marks a server from a configuration file, which has no row in the database. */
  type ServerId = nat
  type ReqId = nat

  datatype Wallet = Wallet(server: ServerId, user: UserId, maker: ReqId)

  datatype Outcome = Returned(server: Option<ServerId>) | AbortedError | OtherError

  /** `n` is the attempt, `mine` says that this transaction inserted the user's row. */
  datatype Pc =
    | Begun(u: UserId, n: nat)
    | Creating(u: UserId, n: nat)
    | Conflicted(u: UserId, n: nat)                  // unique violation: the transaction is aborted
    | Loaded(u: UserId, n: nat, mine: bool, server: Option<ServerId>)
    | Claiming(u: UserId, n: nat, mine: bool, srv: ServerId)
    | Won(u: UserId, n: nat, mine: bool, srv: ServerId)
    | Lost(u: UserId, n: nat)                        // the conditional update changed no row
    | ToCommit(u: UserId, n: nat, mine: bool, won: bool, server: Option<ServerId>)
    | Ended(u: UserId, outcome: Outcome)

  datatype State = State(
    users: map<UserId, Option<ServerId>>,   // committed rows
    wallets: set<Wallet>,                   // wallets made or confirmed, and by which request
    assignedBy: map<UserId, ReqId>,         // whose commit assigned the user's server
    offers: map<ReqId, ServerId>,           // what was offered to a request whose row had no server
    reqs: map<ReqId, Pc>)

  datatype Step =
    | Begin(r: ReqId, u: UserId)
    | ReadUser(r: ReqId)
    | InsertUser(r: ReqId)
    | Reread(r: ReqId)
    | ChooseServer(r: ReqId, srv: ServerId)
    | Claim(r: ReqId)
    | Reload(r: ReqId)
    | CreateWallet(r: ReqId, made: bool, ok: bool)
    | Commit(r: ReqId)
    | Fail(r: ReqId)

  const TX_MAX_RETRIES := 2

  predicate Holds(pc: Pc, u: UserId)
  {
    pc.u == u &&
    match pc
    case Loaded(_, _, mine, _) => mine
    case Claiming(_, _, mine, _) => mine
    case Won(_, _, _, _) => true
    case ToCommit(_, _, mine, won, _) => mine || won
    case _ => false
  }

  predicate Free(s: State, u: UserId, r: ReqId)
  {
    forall q :: q in s.reqs && q != r ==> !Holds(s.reqs[q], u)
  }

  predicate At(s: State, r: ReqId) { r in s.reqs }

  predicate Enabled(s: State, step: Step)
  {
    match step
    case Begin(r, _) => r !in s.reqs
    case ReadUser(r) => At(s, r) && s.reqs[r].Begun?
    case InsertUser(r) => At(s, r) && s.reqs[r].Creating? && (s.reqs[r].u in s.users || Free(s, s.reqs[r].u, r))
    case Reread(r) => At(s, r) && s.reqs[r].Conflicted?
    case ChooseServer(r, _) => At(s, r) && s.reqs[r].Loaded?
    case Claim(r) => At(s, r) && s.reqs[r].Claiming? && Free(s, s.reqs[r].u, r)
    case Reload(r) => At(s, r) && s.reqs[r].Lost?
    case CreateWallet(r, made, ok) => At(s, r) && s.reqs[r].Won? && (ok ==> made)
    case Commit(r) => At(s, r) && s.reqs[r].ToCommit?
    case Fail(r) => At(s, r) && !s.reqs[r].Ended?
  }

  function Go(s: State, r: ReqId, pc: Pc): State { s.(reqs := s.reqs[r := pc]) }

  function Do(s: State, step: Step): State
    requires Enabled(s, step)
  {
    match step
    case Begin(r, u) => Go(s, r, Begun(u, 1))
    case ReadUser(r) =>
      var Begun(u, n) := s.reqs[r];
      Go(s, r, if u in s.users then Loaded(u, n, false, s.users[u]) else Creating(u, n))
    case InsertUser(r) =>
      var Creating(u, n) := s.reqs[r];
      Go(s, r, if u in s.users then Conflicted(u, n) else Loaded(u, n, true, None))
    case Reread(r) =>
      // the re-read fails in the aborted transaction, which is rolled back and begun anew
      var Conflicted(u, n) := s.reqs[r];
      Go(s, r, if n < TX_MAX_RETRIES then Begun(u, n + 1) else Ended(u, AbortedError))
    case ChooseServer(r, srv) =>
      var Loaded(u, n, mine, server) := s.reqs[r];
      if server.Some? then Go(s, r, ToCommit(u, n, mine, false, server))
      else
        var t := s.(offers := s.offers[r := srv]);
        if srv == 0 then Go(t.(wallets := s.wallets + {Wallet(0, u, r)}), r, ToCommit(u, n, mine, false, None))
        else Go(t, r, Claiming(u, n, mine, srv))
    case Claim(r) =>
      var Claiming(u, n, mine, srv) := s.reqs[r];
      Go(s, r, if mine || (u in s.users && s.users[u].None?) then Won(u, n, mine, srv) else Lost(u, n))
    case Reload(r) =>
      var Lost(u, n) := s.reqs[r];
      Go(s, r, if u in s.users then ToCommit(u, n, false, false, s.users[u]) else Ended(u, OtherError))
    case CreateWallet(r, made, ok) =>
      var Won(u, n, mine, srv) := s.reqs[r];
      var t := if made then s.(wallets := s.wallets + {Wallet(srv, u, r)}) else s;
      Go(t, r, if ok then ToCommit(u, n, mine, true, Some(srv)) else Ended(u, OtherError))
    case Commit(r) =>
      var ToCommit(u, n, mine, won, server) := s.reqs[r];
      var t := if won then s.(users := s.users[u := server], assignedBy := s.assignedBy[u := r])
               else if mine then s.(users := s.users[u := None]) else s;
      Go(t, r, Ended(u, Returned(server)))
    case Fail(r) => Go(s, r, Ended(s.reqs[r].u, OtherError))
  }

  function Next(s: State, step: Step): Option<State> { if Enabled(s, step) then Some(Do(s, step)) else None }

  /** The table as it was found, with no request under way. */
  predicate Initial(s: State)
  {
    s.reqs == map[] && s.assignedBy == map[] && s.offers == map[] && forall u :: u in s.users ==> s.users[u] != Some(0)
  }

  // ---- invariant ----

  /** The committed row is there exactly when the transaction did not insert it itself. */
  predicate RowSeen(s: State, u: UserId, mine: bool) { mine <==> u !in s.users }

  ghost predicate PcInv(s: State, r: ReqId, pc: Pc)
  {
    match pc
    case Begun(u, n) => n == 1 || (n == 2 && u in s.users)
    case Creating(u, n) => n == 1
    case Conflicted(u, n) => n == 1 && u in s.users
    case Loaded(u, n, mine, server) =>
      RowSeen(s, u, mine) && (server.Some? ==> !mine && s.users[u] == server)
    case Claiming(u, n, mine, srv) => RowSeen(s, u, mine) && srv != 0
    case Won(u, n, mine, srv) => RowSeen(s, u, mine) && srv != 0 && (!mine ==> s.users[u].None?)
    case Lost(u, n) => u in s.users && s.users[u].Some?
    case ToCommit(u, n, mine, won, server) =>
      && RowSeen(s, u, mine)
      && (won ==> server.Some? && server != Some(0) && Wallet(server.value, u, r) in s.wallets)
      && (won && !mine ==> s.users[u].None?)
      && (!won && server.Some? ==> !mine && s.users[u] == server)
    case Ended(u, Returned(Some(x))) => u in s.users && s.users[u] == Some(x)
    case Ended(u, o) => o != AbortedError
  }

  ghost predicate Inv(s: State)
  {
    && (forall r :: r in s.reqs ==> PcInv(s, r, s.reqs[r]))
    && (forall q, r, u :: q in s.reqs && r in s.reqs && q != r ==> !(Holds(s.reqs[q], u) && Holds(s.reqs[r], u)))
    && TablesInv(s)
  }

  /** Rows stay, assigned servers stay, wallets stay. */
  ghost predicate Grows(s: State, t: State)
  {
    && s.wallets <= t.wallets
    && forall u :: u in s.users ==> u in t.users && (s.users[u].Some? ==> t.users[u] == s.users[u])
  }

  /** A step that changes at most the row its request holds keeps what the others rely on. */
  lemma OthersStay(s: State, t: State, r: ReqId, q: ReqId)
    requires Inv(s) && Grows(s, t) && q in s.reqs && q != r
    requires forall u :: u in t.users && (u !in s.users || t.users[u] != s.users[u]) ==>
               r in s.reqs && Holds(s.reqs[r], u)
    ensures PcInv(t, q, s.reqs[q])
  {
  }

  lemma OwnPc(s: State, step: Step)
    requires Inv(s) && Enabled(s, step)
    ensures step.r in Do(s, step).reqs && PcInv(Do(s, step), step.r, Do(s, step).reqs[step.r])
  {
    assert step.r in s.reqs ==> PcInv(s, step.r, s.reqs[step.r]);
  }

  lemma LocksStay(s: State, step: Step)
    requires Inv(s) && Enabled(s, step)
    ensures var t := Do(s, step);
            forall q, r, u :: q in t.reqs && r in t.reqs && q != r ==> !(Holds(t.reqs[q], u) && Holds(t.reqs[r], u))
  {
  }

  ghost predicate TablesInv(s: State)
  {
    && (forall u :: u in s.assignedBy ==>
          u in s.users && s.users[u].Some? && Wallet(s.users[u].value, u, s.assignedBy[u]) in s.wallets)
    && (forall u :: u in s.users ==> s.users[u] != Some(0))
  }

  /** A step changes no row but one its request holds, and the tables only grow. */
  lemma TablesGrow(s: State, step: Step)
    requires TablesInv(s) && Enabled(s, step) && (step.r in s.reqs ==> PcInv(s, step.r, s.reqs[step.r]))
    ensures var t := Do(s, step);
            && TablesInv(t) && Grows(s, t)
            && forall u :: u in t.users && (u !in s.users || t.users[u] != s.users[u]) ==>
                 step.r in s.reqs && Holds(s.reqs[step.r], u)
  {
  }

  lemma StepKeeps(s: State, step: Step)
    requires Inv(s) && Enabled(s, step)
    ensures Inv(Do(s, step)) && Grows(s, Do(s, step))
  {
    var t := Do(s, step);
    OwnPc(s, step);
    LocksStay(s, step);
    TablesGrow(s, step);
    hide PcInv, Free, Grows, Holds;
    forall q | q in t.reqs ensures PcInv(t, q, t.reqs[q]) {
      if q != step.r {
        OthersStay(s, t, step.r, q);
      }
    }
  }

  lemma {:induction false} RunKeeps(s: State, steps: seq<Step>, t: State)
    requires Inv(s) && Runs(Next, s, steps, t)
    ensures Inv(t) && Grows(s, t)
    decreases |steps|
  {
    if steps != [] {
      StepKeeps(s, steps[0]);
      RunKeeps(Do(s, steps[0]), steps[1..], t);
    }
  }

  // ---- what holds over every run ----

  lemma LeadsKeeps(o: State, t: State)
    requires Inv(o) && Leads(Next, o, t)
    ensures Inv(t) && Grows(o, t)
  {
    var steps :| Runs(Next, o, steps, t);
    RunKeeps(o, steps, t);
  }

  /** All requests of a user that return a server return the one that is committed for the user. */
  lemma Agreement(o: State, t: State, q: ReqId, r: ReqId, u: UserId, x: ServerId, y: ServerId)
    requires Initial(o) && Leads(Next, o, t) && q in t.reqs && r in t.reqs
    requires t.reqs[q] == Ended(u, Returned(Some(x))) && t.reqs[r] == Ended(u, Returned(Some(y)))
    ensures x == y && u in t.users && t.users[u] == Some(x)
  {
    LeadsKeeps(o, t);
    assert PcInv(t, q, t.reqs[q]) && PcInv(t, r, t.reqs[r]);
  }

  /** A committed assignment never changes. */
  lemma AssignmentStays(o: State, s: State, t: State, u: UserId)
    requires Initial(o) && Leads(Next, o, s) && Leads(Next, s, t) && u in s.users && s.users[u].Some?
    ensures u in t.users && t.users[u] == s.users[u]
  {
    LeadsKeeps(o, s);
    LeadsKeeps(s, t);
  }

  /** Every assignment made since the start has its wallet, on that same server, made by the request
      whose conditional update won. */
  lemma AssignmentHasWallet(o: State, t: State, u: UserId)
    requires Initial(o) && Leads(Next, o, t) && u in t.users && t.users[u].Some?
    ensures (u in o.users && o.users[u] == t.users[u])
         || (u in t.assignedBy && Wallet(t.users[u].value, u, t.assignedBy[u]) in t.wallets)
  {
    var steps :| Runs(Next, o, steps, t);
    if !(u in o.users && o.users[u].Some?) {
      AssignedSince(o, steps, t, u);
    }
    LeadsKeeps(o, t);
  }

  lemma {:induction false} AssignedSince(s: State, steps: seq<Step>, t: State, u: UserId)
    requires Inv(s) && Runs(Next, s, steps, t) && u in t.users && t.users[u].Some?
    requires (u in s.users && s.users[u].Some?) ==> u in s.assignedBy
    ensures u in t.assignedBy
    decreases |steps|
  {
    if steps != [] {
      StepKeeps(s, steps[0]);
      assert steps[0].r in s.reqs ==> PcInv(s, steps[0].r, s.reqs[steps[0].r]);
      AssignedSince(Do(s, steps[0]), steps[1..], t, u);
    }
  }

  /** The request that loses the insert race finds the winner's row on its second attempt, and no
      request ever ends with the aborted-transaction error. */
  lemma LoserRetries(o: State, t: State, r: ReqId)
    requires Initial(o) && Leads(Next, o, t) && r in t.reqs
    ensures t.reqs[r].Conflicted? ==> t.reqs[r].n < TX_MAX_RETRIES
    ensures t.reqs[r].Begun? && t.reqs[r].n > 1 ==>
              t.reqs[r].u in t.users
              && Do(t, ReadUser(r)).reqs[r] == Loaded(t.reqs[r].u, t.reqs[r].n, false, t.users[t.reqs[r].u])
    ensures t.reqs[r].Ended? ==> t.reqs[r].outcome != AbortedError
  {
    LeadsKeeps(o, t);
    assert PcInv(t, r, t.reqs[r]);
  }

  // ---- who is left without a server ----

  /** How far a request has come with the offer made to it. */
  ghost predicate OfferInv(s: State, r: ReqId)
    requires r in s.reqs
  {
    match s.reqs[r]
    case Claiming(_, _, _, _) => r in s.offers && s.offers[r] != 0
    case Won(_, _, _, _) => r in s.offers && s.offers[r] != 0
    case Lost(_, _) => r in s.offers && s.offers[r] != 0
    case ToCommit(_, _, _, _, server) => server.None? <==> r in s.offers && s.offers[r] == 0
    case Ended(_, Returned(server)) => server.None? <==> r in s.offers && s.offers[r] == 0
    case Ended(_, _) => true
    case _ => r !in s.offers
  }

  ghost predicate OffersInv(s: State)
  {
    s.offers.Keys <= s.reqs.Keys && forall r :: r in s.reqs ==> OfferInv(s, r)
  }

  lemma OwnOffer(s: State, step: Step)
    requires Enabled(s, step) && (step.r in s.offers ==> step.r in s.reqs)
    requires step.r in s.reqs ==> OfferInv(s, step.r) && PcInv(s, step.r, s.reqs[step.r])
    ensures step.r in Do(s, step).reqs && OfferInv(Do(s, step), step.r)
  {
  }

  lemma OthersOffer(s: State, step: Step, q: ReqId)
    requires Enabled(s, step) && q in s.reqs && q != step.r && OfferInv(s, q)
    ensures q in Do(s, step).reqs && OfferInv(Do(s, step), q)
  {
  }

  lemma OffersKept(s: State, step: Step)
    requires Inv(s) && OffersInv(s) && Enabled(s, step)
    ensures OffersInv(Do(s, step))
  {
    hide OfferInv, PcInv;
    OwnOffer(s, step);
    forall q | q in s.reqs && q != step.r ensures OfferInv(Do(s, step), q) {
      OthersOffer(s, step, q);
    }
  }

  lemma {:induction false} RunOffers(s: State, steps: seq<Step>, t: State)
    requires Inv(s) && OffersInv(s) && Runs(Next, s, steps, t)
    ensures OffersInv(t)
    decreases |steps|
  {
    hide Inv, OffersInv, Enabled, Do;
    if steps != [] {
      StepKeeps(s, steps[0]);
      OffersKept(s, steps[0]);
      RunOffers(Do(s, steps[0]), steps[1..], t);
    }
  }

  /** A request that returns a user returns no server exactly if it found the user without one and was
      offered a server without an id. */
  lemma UnservedExactly(o: State, t: State, r: ReqId)
    requires Initial(o) && Leads(Next, o, t) && r in t.reqs && t.reqs[r].Ended? && t.reqs[r].outcome.Returned?
    ensures t.reqs[r].outcome.server.None? <==> r in t.offers && t.offers[r] == 0
  {
    var steps :| Runs(Next, o, steps, t);
    RunOffers(o, steps, t);
    assert OfferInv(t, r);
  }

  predicate FromDatabase(steps: seq<Step>)
  {
    forall i :: 0 <= i < |steps| && steps[i].ChooseServer? ==> steps[i].srv != 0
  }

  lemma {:induction false} OffersFromDatabase(s: State, steps: seq<Step>, t: State)
    requires Runs(Next, s, steps, t) && FromDatabase(steps) && forall r :: r in s.offers ==> s.offers[r] != 0
    ensures forall r :: r in t.offers ==> t.offers[r] != 0
    decreases |steps|
  {
    if steps != [] {
      OffersFromDatabase(Do(s, steps[0]), steps[1..], t);
    }
  }

  /** So when every server on offer is in the database, whoever returns a user returns a server. */
  lemma EveryoneServed(o: State, steps: seq<Step>, t: State, r: ReqId)
    requires Initial(o) && Runs(Next, o, steps, t) && FromDatabase(steps)
    requires r in t.reqs && t.reqs[r].Ended? && t.reqs[r].outcome.Returned?
    ensures t.reqs[r].outcome.server.Some?
  {
    OffersFromDatabase(o, steps, t);
    UnservedExactly(o, t, r);
  }

  const Empty := State(map[], {}, map[], map[], map[])

  /** A run with a server without an id: its user gets a row and a wallet, but no server. */
  lemma ConfiguredServerUnassigned(u: UserId) returns (t: State)
    ensures Leads(Next, Empty, t)
    ensures t.reqs == map[0 := Ended(u, Returned(None))] && t.users == map[u := None] && t.wallets == {Wallet(0, u, 0)}
  {
    t := KeepAlone(Empty, 0, u);
  }

  // ---- the retrying transaction wrapper ----

  datatype BodyResult = BodyOk | BodyAborted | BodyError

  /** How a begun transaction stands; the body runs once in each. */
  datatype Tx = Open | Committed | RolledBack

  datatype TxResult = Done | CommitFailed | BeginFailed | Gave(err: BodyResult)

  /** `begins`, `bodies` and `commits` say how the i-th attempt's statements end; `txs` are the
      transactions in the order they were begun. */
  method InTx(begins: nat -> bool, bodies: nat -> BodyResult, commits: nat -> bool)
    returns (res: TxResult, txs: seq<Tx>)
    ensures |txs| <= TX_MAX_RETRIES && Open !in txs
    ensures forall i :: 0 <= i < |txs| && txs[i] == Committed ==> i == |txs| - 1
    ensures Committed in txs <==> res == Done || res == CommitFailed
    ensures res == Done <==>
              begins(0) && ((bodies(0) == BodyOk && commits(0))
                            || (bodies(0) == BodyAborted && begins(1) && bodies(1) == BodyOk && commits(1)))
    ensures res == CommitFailed <==>
              begins(0) && ((bodies(0) == BodyOk && !commits(0))
                            || (bodies(0) == BodyAborted && begins(1) && bodies(1) == BodyOk && !commits(1)))
    ensures res == BeginFailed <==> !begins(0) || (bodies(0) == BodyAborted && !begins(1))
    ensures res == Gave(BodyError) <==>
              begins(0) && (bodies(0) == BodyError || (bodies(0) == BodyAborted && begins(1) && bodies(1) == BodyError))
    ensures res == Gave(BodyAborted) <==> begins(0) && bodies(0) == BodyAborted && begins(1) && bodies(1) == BodyAborted
  {
    txs := [];
    res := Gave(BodyOk);
    var i := 0;
    while i < TX_MAX_RETRIES
      invariant 0 <= i == |txs| <= TX_MAX_RETRIES
      invariant forall j :: 0 <= j < i ==> txs[j] == RolledBack && begins(j) && bodies(j) == BodyAborted
      invariant i > 0 ==> res == Gave(BodyAborted)
    {
      if !begins(i) {
        return BeginFailed, txs;
      }
      txs := txs + [Open];
      var r := bodies(i);
      if r == BodyOk {
        txs := txs[i := Committed];
        assert txs[i] == Committed;
        return if commits(i) then Done else CommitFailed, txs;
      }
      txs := txs[i := RolledBack];
      res := Gave(r);
      if r != BodyAborted {
        break;
      }
      i := i + 1;
    }
  }

  // ---- a request as it is written, over the tables it changes ----

  /** Only requests that have ended, so no row is locked. */
  predicate Quiet(s: State) { forall r :: r in s.reqs ==> s.reqs[r].Ended? }

  /** The steps of a request that runs alone, up to its choice of a server. */
  lemma LoadAlone(o: State, r: ReqId, u: UserId) returns (t: State)
    requires Quiet(o) && r !in o.reqs
    ensures Leads(Next, o, t)
    ensures t == Go(o, r, Loaded(u, 1, u !in o.users, if u in o.users then o.users[u] else None))
  {
    hide Leads;
    Stutter(Next, o);
    LeadsOn(Next, o, o, Begin(r, u));
    t := Do(o, Begin(r, u));
    LeadsOn(Next, o, t, ReadUser(r));
    t := Do(t, ReadUser(r));
    if u !in o.users {
      LeadsOn(Next, o, t, InsertUser(r));
      t := Do(t, InsertUser(r));
    }
  }

  lemma WinAlone(o: State, r: ReqId, u: UserId, srv: ServerId) returns (t: State)
    requires Quiet(o) && r !in o.reqs && !(u in o.users && o.users[u].Some?) && srv != 0
    ensures Leads(Next, o, t) && t == Go(o.(offers := o.offers[r := srv]), r, Won(u, 1, u !in o.users, srv))
  {
    hide Leads;
    t := LoadAlone(o, r, u);
    LeadsOn(Next, o, t, ChooseServer(r, srv));
    t := Do(t, ChooseServer(r, srv));
    LeadsOn(Next, o, t, Claim(r));
    t := Do(t, Claim(r));
  }

  /** From there to its end: the server is claimed and furnished with a wallet, */
  lemma ClaimAlone(o: State, r: ReqId, u: UserId, srv: ServerId, created: bool) returns (t: State)
    requires Quiet(o) && r !in o.reqs && !(u in o.users && o.users[u].Some?) && srv != 0
    ensures Leads(Next, o, t)
    ensures t == if created
                 then State(o.users[u := Some(srv)], o.wallets + {Wallet(srv, u, r)}, o.assignedBy[u := r],
                            o.offers[r := srv], o.reqs[r := Ended(u, Returned(Some(srv)))])
                 else Go(o.(offers := o.offers[r := srv]), r, Ended(u, OtherError))
  {
    hide Leads;
    t := WinAlone(o, r, u, srv);
    LeadsOn(Next, o, t, CreateWallet(r, created, created));
    t := Do(t, CreateWallet(r, created, created));
    if created {
      LeadsOn(Next, o, t, Commit(r));
      t := Do(t, Commit(r));
    }
  }

  /** or kept, or left open when the server has no id, */
  lemma KeepAlone(o: State, r: ReqId, u: UserId) returns (t: State)
    requires Quiet(o) && r !in o.reqs
    ensures Leads(Next, o, t)
    ensures t == if u in o.users && o.users[u].Some? then Go(o, r, Ended(u, Returned(o.users[u])))
                 else State(o.users[u := None], o.wallets + {Wallet(0, u, r)}, o.assignedBy,
                            o.offers[r := 0], o.reqs[r := Ended(u, Returned(None))])
  {
    hide Leads;
    t := LoadAlone(o, r, u);
    LeadsOn(Next, o, t, ChooseServer(r, 0));
    t := Do(t, ChooseServer(r, 0));
    hide Quiet, Free;
    LeadsOn(Next, o, t, Commit(r));
    t := Do(t, Commit(r));
    assert u in o.users && o.users[u].None? ==> t.users == o.users[u := None];
  }

  /** or nothing comes of it. */
  lemma FailAlone(o: State, r: ReqId, u: UserId) returns (t: State)
    requires Quiet(o) && r !in o.reqs && !(u in o.users && o.users[u].Some?)
    ensures Leads(Next, o, t) && t == Go(o, r, Ended(u, OtherError))
  {
    hide Leads;
    t := LoadAlone(o, r, u);
    LeadsOn(Next, o, t, Fail(r));
    t := Do(t, Fail(r));
  }

  class UserTable {
    var users: map<UserId, Option<ServerId>>
    var wallets: set<Wallet>
    ghost const first: State
    ghost var assignedBy: map<UserId, ReqId>
    ghost var offers: map<ReqId, ServerId>
    ghost var reqs: map<ReqId, Pc>

    ghost function Now(): State
      reads this
    {
      State(users, wallets, assignedBy, offers, reqs)
    }

    /** The tables are what some run has made of those the service started with. */
    ghost predicate Valid()
      reads this
    {
      Initial(first) && Leads(Next, first, Now()) && Quiet(Now())
    }

    constructor (users: map<UserId, Option<ServerId>>, wallets: set<Wallet>)
      requires forall u :: u in users ==> users[u] != Some(0)
      ensures Valid() && this.users == users && this.wallets == wallets && reqs == map[]
    {
      this.users, this.wallets := users, wallets;
      assignedBy, offers, reqs := map[], map[], map[];
      first := State(users, wallets, map[], map[], map[]);
      new;
      Stutter(Next, first);
    }

    /** `srv` is the least loaded server, `created` says whether the wallet could be made there. */
    method GetUserWithSDKServer(r: ReqId, u: UserId, srv: ServerId, created: bool) returns (o: Outcome)
      requires Valid() && r !in reqs
      modifies this
      ensures Valid() && Leads(Next, old(Now()), Now()) && reqs == old(reqs)[r := Ended(u, o)]
      ensures o.Returned? ==> u in users && users[u] == o.server
      ensures !o.Returned? ==> users == old(users)
      ensures u in old(users) && old(users)[u].Some? ==>
                o == Returned(old(users)[u]) && users == old(users) && wallets == old(wallets)
      ensures !(u in old(users) && old(users)[u].Some?) ==>
                if created
                then && o == Returned(if srv != 0 then Some(srv) else None)
                     && wallets == old(wallets) + {Wallet(srv, u, r)}
                else o == OtherError && wallets == old(wallets)
      ensures forall v :: v != u ==> (v in users <==> v in old(users)) && (v in users ==> users[v] == old(users)[v])
    {
      hide Leads, Initial;
      ghost var s := Now();
      var server := if u in users then users[u] else None;
      ghost var t;
      if server.Some? {
        t := KeepAlone(s, r, u);
        o := Returned(server);
      } else if !created {
        if srv == 0 {
          t := FailAlone(s, r, u);
        } else {
          t := ClaimAlone(s, r, u, srv, false);
        }
        o := OtherError;
      } else {
        if srv == 0 {
          t := KeepAlone(s, r, u);
        } else {
          t := ClaimAlone(s, r, u, srv, true);
        }
        server := if srv == 0 then None else Some(srv);
        wallets := wallets + {Wallet(srv, u, r)};
        users := users[u := server];
        o := Returned(server);
      }
      assignedBy, offers, reqs := t.assignedBy, t.offers, t.reqs;
      LeadsThrough(Next, first, s, Now());
    }
  }
}
