/** Sending a query: the wallet is loaded again and the query repeated when the SDK has lost it; and
    the cache's getter, which repeats failed queries and moves anonymous callers between endpoints. */
module Retries {
  const WALLET_LOAD_RETRIES := 3

  /** What one request to the SDK comes back with. The two wallet errors are told apart from other RPC
      errors; an RPC error the client is to blame for is an InputError. */
  datatype Reply =
    | NetError
    | NotLoaded
    | AlreadyLoaded
    | Success(result: string)
    | InputError(message: string)
    | SdkError(message: string)

  predicate WalletTrouble(r: Reply) { r.NotLoaded? || r.AlreadyLoaded? }

  /** The getter tries again after a transport error or an error of the SDK. */
  predicate Retryable(r: Reply) { !r.Success? && !r.InputError? }

  /** One attempt of the getter: where it went, its first and last request, the reply to the last, and
      whether the user was deleted over it. */
  datatype Attempt = Attempt(endpoint: string, first: nat, last: nat, reply: Reply, deleted: bool)

  /** `Nothing` is the nil response of a getter that may not try at all. */
  datatype Outcome = Nothing | Panicked | Got(reply: Reply)

  predicate Only(endpoints: seq<string>, e: string) { forall i :: 0 <= i < |endpoints| ==> endpoints[i] == e }

  /** The requests from `from` to `to` that were answered with a missing wallet. */
  function Lacking(reply: nat -> Reply, from: nat, to: nat): set<nat>
  {
    set i: nat | from <= i < to && reply(i).NotLoaded?
  }

  /** Their number. */
  function Missing(reply: nat -> Reply, from: nat, n: nat): nat
  {
    if n == 0 then 0 else Missing(reply, from, n - 1) + if reply(from + n - 1).NotLoaded? then 1 else 0
  }

  lemma LackingOn(reply: nat -> Reply, from: nat, to: nat)
    requires from <= to
    ensures to !in Lacking(reply, from, to)
    ensures Lacking(reply, from, to + 1) == Lacking(reply, from, to) + if reply(to).NotLoaded? then {to} else {}
  {
  }

  lemma {:induction false} MissingCounts(reply: nat -> Reply, from: nat, n: nat)
    ensures Missing(reply, from, n) == |Lacking(reply, from, from + n)|
  {
    if n == 0 {
      assert Lacking(reply, from, from) == {};
    } else {
      MissingCounts(reply, from, n - 1);
      LackingOn(reply, from, from + n - 1);
      hide Lacking;
    }
  }

  lemma {:induction false} MissingSplits(reply: nat -> Reply, from: nat, n: nat, m: nat)
    ensures Missing(reply, from, n + m) == Missing(reply, from, n) + Missing(reply, from + n, m)
  {
    if m > 0 {
      MissingSplits(reply, from, n, m - 1);
    }
  }

  /** The attempts over which the user was deleted. */
  function Deleting(trace: seq<Attempt>): set<nat>
  {
    set k: nat | k < |trace| && trace[k].deleted
  }

  /** Attempts the getter was not content with. */
  function Failures(trace: seq<Attempt>): nat
  {
    if trace != [] && !Retryable(trace[|trace| - 1].reply) then |trace| - 1 else |trace|
  }

  /** How often an anonymous caller can be moved when all backup endpoints are one and the same. */
  function Moves(endpoint: string, backups: seq<string>): nat
    requires backups != []
  {
    if endpoint == backups[0] then 0 else 1
  }

  /** The backups are one and the same endpoint, and there are attempts enough to run out of it. */
  predicate MayPanic(userID: int, endpoint: string, backups: seq<string>, retries: nat)
  {
    userID == 0 && backups != [] && Only(backups, backups[0]) && retries > Moves(endpoint, backups)
  }

  ghost predicate AllRetryable(reply: nat -> Reply) { forall i :: Retryable(reply(i)) }

  /** The requests of an attempt: up to three, each repeated over trouble with the wallet. */
  predicate IsAttempt(a: Attempt, reply: nat -> Reply)
  {
    && a.first <= a.last <= a.first + 2 && a.reply == reply(a.last)
    && (forall i: nat :: a.first <= i < a.last ==> reply(i).NotLoaded? || reply(i).AlreadyLoaded?)
    && (a.last < a.first + 2 ==> !a.reply.NotLoaded? && !a.reply.AlreadyLoaded?)
  }

  /** What a getter starts with and what it has counted since. */
  datatype Tally = Tally(sends: nat, loads: nat, deletions: nat)

  /** The user is deleted exactly over a third missing wallet whose load, the last so far, fails. */
  predicate DeletedRight(a: Attempt, o: Tally, reply: nat -> Reply, load: nat -> bool)
    requires o.sends <= a.last
  {
    var n := o.loads + Missing(reply, o.sends, a.last + 1 - o.sends);
    a.deleted <==> a.last == a.first + 2 && a.reply.NotLoaded? && n > 0 && !load(n - 1)
  }

  /** The attempts follow each other without a gap. */
  ghost predicate Chained(trace: seq<Attempt>, o: Tally, t: Tally)
  {
    && (if trace == [] then o.sends == t.sends else trace[0].first == o.sends && trace[|trace| - 1].last + 1 == t.sends)
    && (forall k :: 0 < k < |trace| ==> trace[k].first == trace[k - 1].last + 1)
    && o.sends + |trace| <= t.sends <= o.sends + 3 * |trace|
  }

  ghost predicate Judged(a: Attempt, o: Tally, reply: nat -> Reply, load: nat -> bool)
  {
    IsAttempt(a, reply) && o.sends <= a.last && DeletedRight(a, o, reply, load)
  }

  /** The attempts are as they should be, one after the other, and the counts are theirs. */
  ghost predicate Tallied(trace: seq<Attempt>, o: Tally, t: Tally, reply: nat -> Reply, load: nat -> bool)
  {
    && Chained(trace, o, t)
    && (forall k :: 0 <= k < |trace| ==> Judged(trace[k], o, reply, load))
    && t.loads == o.loads + Missing(reply, o.sends, t.sends - o.sends)
    && t.deletions == o.deletions + |Deleting(trace)|
  }

  lemma DeletingOn(trace: seq<Attempt>, a: Attempt)
    ensures |Deleting(trace + [a])| == |Deleting(trace)| + if a.deleted then 1 else 0
  {
    var more := trace + [a];
    assert forall k: nat :: k < |trace| ==> more[k] == trace[k];
    assert Deleting(more) == Deleting(trace) + if a.deleted then {|trace|} else {};
  }

  lemma ChainOn(trace: seq<Attempt>, o: Tally, t: Tally, a: Attempt, u: Tally)
    requires Chained(trace, o, t) && a.first == t.sends && a.last + 1 == u.sends && a.first <= a.last <= a.first + 2
    ensures Chained(trace + [a], o, u)
  {
  }

  lemma JudgeLast(o: Tally, t: Tally, a: Attempt, u: Tally, reply: nat -> Reply, load: nat -> bool)
    requires o.sends <= t.sends && IsAttempt(a, reply) && a.first == t.sends && a.last + 1 == u.sends
    requires t.loads == o.loads + Missing(reply, o.sends, t.sends - o.sends)
    requires u.loads == t.loads + Missing(reply, t.sends, u.sends - t.sends)
    requires a.deleted <==> a.last == a.first + 2 && a.reply.NotLoaded? && u.loads > 0 && !load(u.loads - 1)
    ensures u.loads == o.loads + Missing(reply, o.sends, u.sends - o.sends) && Judged(a, o, reply, load)
  {
    hide Missing;
    MissingSplits(reply, o.sends, t.sends - o.sends, u.sends - t.sends);
  }

  lemma TallyOn(trace: seq<Attempt>, o: Tally, t: Tally, a: Attempt, u: Tally, reply: nat -> Reply, load: nat -> bool)
    requires Tallied(trace, o, t, reply, load) && IsAttempt(a, reply) && a.first == t.sends && a.last + 1 == u.sends
    requires u.loads == t.loads + Missing(reply, t.sends, u.sends - t.sends)
    requires u.deletions == t.deletions + if a.deleted then 1 else 0
    requires a.deleted <==> a.last == a.first + 2 && a.reply.NotLoaded? && u.loads > 0 && !load(u.loads - 1)
    ensures Tallied(trace + [a], o, u, reply, load)
  {
    hide Missing, Judged, Deleting;
    assert o.sends <= t.sends && a.first <= a.last <= a.first + 2;
    hide IsAttempt, Chained;
    ChainOn(trace, o, t, a, u);
    JudgeLast(o, t, a, u, reply, load);
    DeletingOn(trace, a);
  }

  lemma LastReply(trace: seq<Attempt>, o: Tally, t: Tally, reply: nat -> Reply, load: nat -> bool)
    requires Tallied(trace, o, t, reply, load)
    ensures o.sends + |trace| <= t.sends <= o.sends + 3 * |trace|
    ensures trace != [] ==> trace[|trace| - 1].reply == reply(t.sends - 1)
    ensures t.loads == o.loads + |set i: nat | o.sends <= i < t.sends && reply(i).NotLoaded?|
    ensures t.deletions == o.deletions + |set k: nat | k < |trace| && trace[k].deleted|
  {
    MissingCounts(reply, o.sends, t.sends - o.sends);
  }

  /** Whether the caller has somewhere else to go. */
  predicate Movable(userID: int, backups: seq<string>) { userID == 0 && backups != [] }

  /** Where the attempts went, from the endpoint `e` at first, and that the next goes to `f`. */
  ghost predicate Routed(trace: seq<Attempt>, userID: int, backups: seq<string>, e: string, f: string)
  {
    && (if trace == [] then f == e else trace[0].endpoint == e)
    && (!Movable(userID, backups) ==> f == e && forall i :: 0 <= i < |trace| ==> trace[i].endpoint == e)
    && (Movable(userID, backups) ==>
          && (forall i :: 0 < i < |trace| ==>
                trace[i].endpoint in backups && trace[i].endpoint != trace[i - 1].endpoint)
          && (trace != [] ==> f in backups && f != trace[|trace| - 1].endpoint)
          && (Only(backups, backups[0]) ==> |trace| <= Moves(e, backups)))
  }

  lemma RouteOn(trace: seq<Attempt>, userID: int, backups: seq<string>, e: string, f: string, a: Attempt, g: string)
    requires Routed(trace, userID, backups, e, f) && a.endpoint == f
    requires if Movable(userID, backups) then g in backups && g != f else g == f
    ensures Routed(trace + [a], userID, backups, e, g)
  {
  }

  /** The route of a getter that is done, the last attempt included. */
  ghost predicate Went(trace: seq<Attempt>, userID: int, backups: seq<string>, e: string)
  {
    && (trace != [] ==> trace[0].endpoint == e)
    && (!Movable(userID, backups) ==> forall i :: 0 <= i < |trace| ==> trace[i].endpoint == e)
    && (Movable(userID, backups) ==>
          forall i :: 0 < i < |trace| ==> trace[i].endpoint in backups && trace[i].endpoint != trace[i - 1].endpoint)
  }

  lemma RouteEnds(trace: seq<Attempt>, userID: int, backups: seq<string>, e: string, f: string, a: Attempt)
    requires Routed(trace, userID, backups, e, f) && a.endpoint == f
    ensures Went(trace + [a], userID, backups, e) && (!Movable(userID, backups) ==> f == e)
    ensures Movable(userID, backups) && Only(backups, f) ==>
              Only(backups, backups[0]) && |trace| + 1 > Moves(e, backups)
    ensures Movable(userID, backups) && Only(backups, backups[0]) && !Only(backups, f) ==>
              |trace| + 1 <= Moves(e, backups)
  {
  }

  class Caller {
    const userID: int
    const backups: seq<string>
    var endpoint: string
    var sends: nat         // requests sent so far
    var loads: nat         // wallet loads so far
    var deletions: nat     // how often the user was deleted

    constructor (endpoint: string, userID: int, backups: seq<string>)
      ensures this.endpoint == endpoint && this.userID == userID && this.backups == backups
      ensures sends == 0 && loads == 0 && deletions == 0
    {
      this.endpoint, this.userID, this.backups := endpoint, userID, backups;
      sends, loads, deletions := 0, 0, 0;
    }

    /** `reply(i)` is the SDK's reply to the i-th request ever sent, `load(i)` whether the i-th wallet
        load works. The query is repeated while the wallet is the trouble, at most three times in all;
        each missing wallet is loaded once; and the user is deleted only if the third reply still
        misses the wallet and loading it fails. */
    method SendQuery(reply: nat -> Reply, load: nat -> bool) returns (r: Reply)
      modifies this`sends, this`loads, this`deletions
      ensures old(sends) < sends <= old(sends) + 3
      ensures r == reply(sends - 1)
      ensures forall i :: old(sends) <= i < sends - 1 ==> reply(i).NotLoaded? || reply(i).AlreadyLoaded?
      ensures sends < old(sends) + 3 ==> !r.NotLoaded? && !r.AlreadyLoaded?
      ensures loads == old(loads) + |set i: nat | old(sends) <= i < sends && reply(i).NotLoaded?|
      ensures loads == old(loads) + Missing(reply, old(sends), sends - old(sends))
      ensures deletions == old(deletions)
                + if sends == old(sends) + 3 && r.NotLoaded? && !load(loads - 1) then 1 else 0
    {
      ghost var s0 := sends;
      var i := 0;
      r := NetError;
      while i < WALLET_LOAD_RETRIES
        invariant 0 <= i <= WALLET_LOAD_RETRIES && sends == s0 + i
        invariant i > 0 ==> r == reply(sends - 1)
        invariant forall k :: s0 <= k < sends ==> WalletTrouble(reply(k))
        invariant loads == old(loads) + Missing(reply, s0, i)
        invariant deletions == old(deletions)
                    + if i == WALLET_LOAD_RETRIES && r.NotLoaded? && !load(loads - 1) then 1 else 0
      {
        r := reply(sends);
        sends := sends + 1;
        if r.NotLoaded? {
          var ok := load(loads);
          loads := loads + 1;
          if !ok && i >= WALLET_LOAD_RETRIES - 1 {
            deletions := deletions + 1;
          }
        } else if !r.AlreadyLoaded? {
          MissingCounts(reply, s0, sends - s0);
          return;
        }
        i := i + 1;
      }
      MissingCounts(reply, s0, 3);
    }

    /** A caller without user id goes to another backup endpoint, any of them; false stands for the
        panic of drawing from an empty list. */
    method RandomizeEndpoint(draw: nat) returns (ok: bool)
      modifies this`endpoint
      ensures userID != 0 || backups == [] ==> ok && endpoint == old(endpoint)
      ensures userID == 0 && backups != [] ==> (ok <==> !Only(backups, old(endpoint)))
      ensures userID == 0 && backups != [] && ok ==> endpoint in backups && endpoint != old(endpoint)
      ensures !ok ==> endpoint == old(endpoint)
    {
      if userID != 0 || backups == [] {
        return true;
      }
      var others: seq<string> := [];
      for i := 0 to |backups|
        invariant forall k :: 0 <= k < |others| ==> others[k] in backups && others[k] != endpoint
        invariant others == [] <==> Only(backups[..i], endpoint)
      {
        assert backups[..i + 1] == backups[..i] + [backups[i]];
        if backups[i] != endpoint {
          others := others + [backups[i]];
        }
      }
      assert backups[..|backups|] == backups;
      if others == [] {
        return false;
      }
      endpoint := others[draw % |others|];
      return true;
    }

    function Count(): Tally
      reads this
    {
      Tally(sends, loads, deletions)
    }

    method Try(reply: nat -> Reply, load: nat -> bool) returns (a: Attempt)
      modifies this`sends, this`loads, this`deletions
      ensures IsAttempt(a, reply) && a.endpoint == endpoint && a.first == old(sends) && a.last + 1 == sends
      ensures loads == old(loads) + Missing(reply, old(sends), sends - old(sends))
      ensures deletions == old(deletions) + if a.deleted then 1 else 0
      ensures a.deleted <==> a.last == a.first + 2 && a.reply.NotLoaded? && loads > 0 && !load(loads - 1)
    {
      var first, before := sends, deletions;
      var r := SendQuery(reply, load);
      a := Attempt(endpoint, first, sends - 1, r, deletions > before);
      assert r.NotLoaded? ==> loads > 0 by {
        assert Missing(reply, first, sends - first) >= if r.NotLoaded? then 1 else 0;
      }
    }

    /** The loop behind a cache miss. It stops at the first success or input error and otherwise gives
        the last failure, in each case as the SDK replied; a user's query never leaves the user's
        endpoint, an anonymous one never goes to the same endpoint twice in a row. It panics exactly if
        all the backups are one endpoint and more attempts fail than the caller can be moved; that
        includes the last attempt allowed. So some replies make it panic exactly if `MayPanic`, which
        can be told before the call. */
    method Getter(retries: nat, reply: nat -> Reply, load: nat -> bool, draw: nat -> nat)
      returns (res: Outcome, trace: seq<Attempt>)
      modifies this
      ensures |trace| <= retries && (retries > 0 ==> trace != [])
      ensures old(sends) + |trace| <= sends <= old(sends) + 3 * |trace|
      ensures res.Nothing? <==> retries == 0
      ensures res.Got? ==> sends > 0 && res.reply == reply(sends - 1)
      ensures res.Got? && |trace| < retries ==> res.reply.Success? || res.reply.InputError?
      ensures forall i :: 0 <= i < |trace| - 1 ==> !trace[i].reply.Success? && !trace[i].reply.InputError?
      ensures Tallied(trace, old(Count()), Count(), reply, load)
      ensures loads == old(loads) + |set i: nat | old(sends) <= i < sends && reply(i).NotLoaded?|
      ensures deletions == old(deletions) + |set k: nat | k < |trace| && trace[k].deleted|
      ensures Went(trace, userID, backups, old(endpoint))
      ensures userID != 0 || backups == [] ==> !res.Panicked? && endpoint == old(endpoint)
      ensures userID == 0 && backups != [] ==>
                (res.Panicked? <==> Only(backups, backups[0]) && Failures(trace) > Moves(old(endpoint), backups))
      ensures res.Panicked? ==> MayPanic(userID, old(endpoint), backups, retries)
      ensures AllRetryable(reply) && MayPanic(userID, old(endpoint), backups, retries) ==> res.Panicked?
    {
      hide Tallied, Missing, Routed, Went;
      ghost var o, e := Count(), endpoint;
      trace, res := [], Nothing;
      NoTally(o, reply, load);
      NoRoute(userID, backups, e);
      for attempt := 0 to retries
        invariant |trace| == attempt
        invariant if attempt == 0 then res == Nothing else res == Got(trace[attempt - 1].reply)
        invariant forall i :: 0 <= i < attempt ==> Retryable(trace[i].reply)
        invariant Tallied(trace, o, Count(), reply, load)
        invariant Routed(trace, userID, backups, e, endpoint)
      {
        ghost var t, f, before := Count(), endpoint, trace;
        var a := Try(reply, load);
        RouteOpen(before, userID, backups, e, f);
        TallyOn(trace, o, t, a, Count(), reply, load);
        RouteEnds(trace, userID, backups, e, f, a);
        assert AllRetryable(reply) ==> Retryable(reply(a.last));
        trace, res := trace + [a], Got(a.reply);
        LastReply(trace, o, Count(), reply, load);
        if !Retryable(a.reply) {
          return;
        }
        var ok := RandomizeEndpoint(draw(attempt));
        if !ok {
          res := Panicked;
          return;
        }
        RouteOn(before, userID, backups, e, f, a, endpoint);
      }
      LastReply(trace, o, Count(), reply, load);
      RouteOpen(trace, userID, backups, e, endpoint);
    }
  }

  lemma RouteOpen(trace: seq<Attempt>, userID: int, backups: seq<string>, e: string, f: string)
    requires Routed(trace, userID, backups, e, f)
    ensures Went(trace, userID, backups, e) && (!Movable(userID, backups) ==> f == e)
    ensures Movable(userID, backups) && Only(backups, backups[0]) ==> |trace| <= Moves(e, backups)
  {
  }

  lemma NoRoute(userID: int, backups: seq<string>, e: string)
    ensures Routed([], userID, backups, e, e)
  {
  }

  lemma NoTally(o: Tally, reply: nat -> Reply, load: nat -> bool)
    ensures Tallied([], o, o, reply, load)
  {
    assert Deleting([]) == {};
  }
}
