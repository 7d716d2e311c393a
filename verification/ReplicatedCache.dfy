/** The cache over a redis master and its replicas: writes go to the master only and reach each
    replica later, in order; reads ask the replicas one after the other and the master last. */
module ReplicatedCache {
  import opened Text

  type Key = string

  /** A stored value, its tags, and the instant from which it is gone. */
  datatype Entry = Entry(value: string, tags: set<string>, expires: int)

  type Store = map<Key, Entry>

  datatype Op = Set(key: Key, entry: Entry) | Delete(key: Key) | Invalidate(tags: set<string>) | Clear

  function Apply(m: Store, op: Op): Store
  {
    match op
    case Set(key, e) => m[key := e]
    case Delete(key) => m - {key}
    case Invalidate(tags) => map k | k in m && m[k].tags * tags == {} :: m[k]
    case Clear => map[]
  }

  /** The contents after a history of writes. */
  function Replay(ops: seq<Op>): Store
  {
    if ops == [] then map[] else Apply(Replay(ops[..|ops| - 1]), ops[|ops| - 1])
  }

  function Lookup(m: Store, key: Key, now: int): Option<Entry>
  {
    if key in m && now < m[key].expires then Some(m[key]) else None
  }

  datatype Result = Found(value: string, ttl: int) | NotFound | Fault

  function Read(m: Store, up: bool, key: Key, now: int): Result
  {
    if !up then Fault
    else match Lookup(m, key, now) case Some(e) => Found(e.value, e.expires - now) case None => NotFound
  }

  /** What a read returns: the first replica that has the key decides, else the master. `ups` says
      which replicas answer, `up` whether the master does. */
  predicate IsAnswer(replicas: seq<Store>, ups: seq<bool>, master: Store, up: bool, key: Key, now: int, r: Result)
    requires |replicas| == |ups|
  {
    if exists i :: 0 <= i < |replicas| && Read(replicas[i], ups[i], key, now).Found? then
      exists i :: 0 <= i < |replicas| && Read(replicas[i], ups[i], key, now).Found?
                  && r == Read(replicas[i], ups[i], key, now)
                  && forall j :: 0 <= j < i ==> !Read(replicas[j], ups[j], key, now).Found?
    else r == Read(master, up, key, now)
  }

  /** Each replica holds what some beginning of the history left behind. */
  predicate Lagging(ops: seq<Op>, upto: seq<nat>, replicas: seq<Store>)
  {
    |upto| == |replicas| && forall i :: 0 <= i < |upto| ==> upto[i] <= |ops| && replicas[i] == Replay(ops[..upto[i]])
  }

  /** A store that answers and has the key, not expired. */
  predicate Live(m: Store, up: bool, key: Key, now: int) { up && key in m && now < m[key].expires }

  // ---- the cache as it is written ----

  class Cache {
    var master: Store
    var replicas: seq<Store>
    ghost var ops: seq<Op>
    ghost var upto: seq<nat>

    ghost predicate Valid()
      reads this
    {
      master == Replay(ops) && Lagging(ops, upto, replicas)
    }

    constructor (n: nat)
      ensures Valid() && ops == [] && |replicas| == n
    {
      master, replicas := map[], seq(n, _ => map[]);
      ops, upto := [], seq(n, _ => 0);
    }

    method Write(op: Op)
      requires Valid()
      modifies this
      ensures Valid() && ops == old(ops) + [op] && upto == old(upto) && replicas == old(replicas)
      ensures match op
              case Set(key, e) => key in master && master[key] == e && master - {key} == old(master) - {key}
              case Delete(key) => key !in master && master == old(master) - {key}
              case Invalidate(tags) =>
                && (forall k :: k in master ==> k in old(master) && master[k] == old(master)[k])
                && (forall k :: k in old(master) ==>
                      (k !in master <==> exists t :: t in old(master)[k].tags && t in tags))
              case Clear => master == map[]
    {
      master := Apply(master, op);
      assert (ops + [op])[..|ops|] == ops;
      assert forall i :: 0 <= i < |upto| ==> (ops + [op])[..upto[i]] == ops[..upto[i]];
      ops := ops + [op];
      if op.Invalidate? {
        forall k | k in old(master) ensures k !in master <==> exists t :: t in old(master)[k].tags && t in op.tags {
          var both := old(master)[k].tags * op.tags;
          assert k !in master <==> both != {};
          assert forall t :: t in old(master)[k].tags && t in op.tags ==> t in both;
          if both != {} {
            var t :| t in both;
          }
        }
      }
    }

    /** The backend's own replication brings one more write to a replica. */
    method Replicate(i: nat, op: Op)
      requires Valid() && i < |replicas| && upto[i] < |ops| && op == ops[upto[i]]
      modifies this
      ensures Valid() && ops == old(ops) && master == old(master)
      ensures upto == old(upto)[i := old(upto)[i] + 1]
    {
      ghost var n := upto[i];
      assert ops[..n + 1][..n] == ops[..n];
      replicas := replicas[i := Apply(replicas[i], op)];
      upto := upto[i := n + 1];
    }

    /** `Get` is the same loop without the remaining time. */
    method GetWithTTL(key: Key, now: int, ups: seq<bool>, up: bool) returns (r: Result)
      requires |ups| == |replicas|
      ensures IsAnswer(replicas, ups, master, up, key, now, r)
      ensures forall i :: && 0 <= i < |replicas| && Live(replicas[i], ups[i], key, now)
                          && (forall j :: 0 <= j < i ==> !Live(replicas[j], ups[j], key, now))
                ==> r == Found(replicas[i][key].value, replicas[i][key].expires - now)
      ensures (forall i :: 0 <= i < |replicas| ==> !Live(replicas[i], ups[i], key, now)) ==>
                r == if !up then Fault
                     else if key in master && now < master[key].expires
                     then Found(master[key].value, master[key].expires - now) else NotFound
    {
      for i := 0 to |replicas|
        invariant forall j :: 0 <= j < i ==> !Read(replicas[j], ups[j], key, now).Found?
      {
        r := Read(replicas[i], ups[i], key, now);
        if r.Found? {
          return;
        }
      }
      r := Read(master, up, key, now);
    }
  }

  // ---- what lag can do ----

  /** A value read is one the history gave that key, and not expired; and a key is reported missing
      only if the master misses it. */
  lemma ReadsAreHistoric(
      ops: seq<Op>, upto: seq<nat>, replicas: seq<Store>, ups: seq<bool>, up: bool, key: Key, now: int, r: Result)
    requires Lagging(ops, upto, replicas) && |ups| == |upto|
    requires IsAnswer(replicas, ups, Replay(ops), up, key, now, r)
    ensures r.Found? ==> exists n :: 0 <= n <= |ops| && r == Read(Replay(ops[..n]), true, key, now)
    ensures !r.Found? ==> r == Read(Replay(ops), up, key, now)
  {
    if r.Found? {
      if i :| 0 <= i < |replicas| && Read(replicas[i], ups[i], key, now).Found?
              && r == Read(replicas[i], ups[i], key, now) {
        assert r == Read(Replay(ops[..upto[i]]), true, key, now);
      } else {
        assert ops[..|ops|] == ops;
        assert r == Read(Replay(ops[..|ops|]), true, key, now);
      }
    }
  }

  /** Every read gives the master's answer, however far each replica lags and whichever answer. */
  ghost predicate AlwaysCurrent(ops: seq<Op>, key: Key, now: int)
  {
    forall upto: seq<nat>, replicas, ups, r ::
      Lagging(ops, upto, replicas) && |ups| == |upto| && IsAnswer(replicas, ups, Replay(ops), true, key, now, r)
      ==> SameAnswer(r, Lookup(Replay(ops), key, now), now)
  }

  predicate SameAnswer(r: Result, e: Option<Entry>, now: int)
  {
    if e.Some? then r == Found(e.value.value, e.value.expires - now) else r == NotFound
  }

  function AnswerOf(e: Entry, now: int): Result { Found(e.value, e.expires - now) }

  /** Every value ever written to the key that would still be live is the master's current one, with
      the master's remaining time. It takes a look at the writes to the key and one at the master. */
  predicate WritesAgree(ops: seq<Op>, key: Key, now: int)
  {
    forall i :: 0 <= i < |ops| && ops[i].Set? && ops[i].key == key && now < ops[i].entry.expires ==>
      SameAnswer(AnswerOf(ops[i].entry, now), Lookup(Replay(ops), key, now), now)
  }

  /** What a replay holds under a key comes from some write to that key. */
  lemma {:induction false} WrittenOnce(ops: seq<Op>, key: Key) returns (i: nat)
    requires key in Replay(ops)
    ensures i < |ops| && ops[i] == Set(key, Replay(ops)[key])
  {
    var last := |ops| - 1;
    if ops[last].Set? && ops[last].key == key {
      i := last;
    } else {
      i := WrittenOnce(ops[..last], key);
    }
  }

  lemma AgreeingReads(ops: seq<Op>, upto: seq<nat>, replicas: seq<Store>, ups: seq<bool>, key: Key, now: int, r: Result)
    requires WritesAgree(ops, key, now) && Lagging(ops, upto, replicas) && |ups| == |upto|
    requires IsAnswer(replicas, ups, Replay(ops), true, key, now, r)
    ensures SameAnswer(r, Lookup(Replay(ops), key, now), now)
  {
    hide Replay;
    if i :| 0 <= i < |replicas| && Read(replicas[i], ups[i], key, now).Found?
            && r == Read(replicas[i], ups[i], key, now) {
      var k := WrittenOnce(ops[..upto[i]], key);
      assert ops[k] == ops[..upto[i]][k];
    }
  }

  /** A replica that stopped right after a write which disagrees is enough. */
  lemma DisagreementShows(ops: seq<Op>, key: Key, now: int, i: nat)
    requires i < |ops| && ops[i].Set? && ops[i].key == key && now < ops[i].entry.expires
    requires !SameAnswer(AnswerOf(ops[i].entry, now), Lookup(Replay(ops), key, now), now)
    ensures !AlwaysCurrent(ops, key, now)
  {
    assert ops[..i + 1][..i] == ops[..i];
    assert Replay(ops[..i + 1]) == Apply(Replay(ops[..i]), ops[i]);
    hide Replay;
    var replicas, ups := [Replay(ops[..i + 1])], [true];
    var r := Read(replicas[0], ups[0], key, now);
    assert r == AnswerOf(ops[i].entry, now);
    assert Lagging(ops, [i + 1], replicas) && IsAnswer(replicas, ups, Replay(ops), true, key, now, r);
  }

  /** Lag is invisible exactly for the keys whose live writes all agree with the master. */
  lemma CurrentIffAgree(ops: seq<Op>, key: Key, now: int)
    ensures AlwaysCurrent(ops, key, now) <==> WritesAgree(ops, key, now)
  {
    hide Replay, IsAnswer, SameAnswer, Lookup;
    if WritesAgree(ops, key, now) {
      forall upto: seq<nat>, replicas, ups, r
        | Lagging(ops, upto, replicas) && |ups| == |upto| && IsAnswer(replicas, ups, Replay(ops), true, key, now, r)
        ensures SameAnswer(r, Lookup(Replay(ops), key, now), now)
      {
        AgreeingReads(ops, upto, replicas, ups, key, now, r);
      }
    } else {
      var i :| 0 <= i < |ops| && ops[i].Set? && ops[i].key == key && now < ops[i].entry.expires
               && !SameAnswer(AnswerOf(ops[i].entry, now), Lookup(Replay(ops), key, now), now);
      DisagreementShows(ops, key, now, i);
    }
  }

  /** Writes to other keys. */
  predicate Spares(op: Op, key: Key) { (op.Set? || op.Delete?) && op.key != key }

  lemma {:induction false} StaysSet(ops: seq<Op>, k: nat, key: Key)
    requires k < |ops| && ops[k].Set? && ops[k].key == key
    requires forall i :: k < i < |ops| ==> Spares(ops[i], key)
    ensures key in Replay(ops) && Replay(ops)[key] == ops[k].entry
  {
    if k < |ops| - 1 {
      StaysSet(ops[..|ops| - 1], k, key);
    }
  }

  /** A key that was written once and not dropped since is read back at once, from any replicas. */
  lemma FirstWriteVisible(ops: seq<Op>, k: nat, key: Key, now: int)
    requires k < |ops| && ops[k].Set? && ops[k].key == key
    requires forall i :: k < i < |ops| ==> Spares(ops[i], key)
    requires forall i :: 0 <= i < k && ops[i].Set? ==> ops[i].key != key
    ensures AlwaysCurrent(ops, key, now)
  {
    hide Replay, AlwaysCurrent;
    StaysSet(ops, k, key);
    CurrentIffAgree(ops, key, now);
  }

  /** A deleted key that had not expired can be read again from a replica that lags. */
  lemma DeletedCanReturn(key: Key, e: Entry, now: int)
    requires now < e.expires
    ensures !AlwaysCurrent([Set(key, e), Delete(key)], key, now)
  {
    var ops := [Set(key, e), Delete(key)];
    assert ops[..1] == [Set(key, e)] && key !in Apply(Replay(ops[..1]), Delete(key));
    DisagreementShows(ops, key, now, 0);
  }
}
