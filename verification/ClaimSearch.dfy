/** The rewriting of `claim_search` requests before they are cached or sent: hidden claims are
    excluded by tags, unreleased ones by a release-time bound, and an order is given. The bound is
    rounded so that requests of one time window stay equal. */
module ClaimSearch {
  import opened Text
  import opened Json
  import opened QueryRequest

  const PRIVATE := "c:private"
  const UNLISTED := "c:unlisted"
  const SCHEDULED_SHOW := "c:scheduled:show"
  const SCHEDULED_HIDE := "c:scheduled:hide"
  const WINDOW := 300

  const ANY_TAGS := "any_tags"
  const NOT_TAGS := "not_tags"
  const RELEASE_TIME := "release_time"
  const ORDER_BY := "order_by"
  const HAS_SOURCE := "has_source"

  // ---- rounding ----

  /** Go's `%`: the remainder has the sign of the dividend. */
  function Rem(n: int, s: int): int
    requires s > 0
  {
    if n >= 0 then n % s else -((-n) % s)
  }

  function RoundUp(n: int, s: int): int
    requires s > 0
  {
    var r := Rem(n, s);
    if r == 0 then n else n + s - r
  }

  ghost predicate IsLeastMultiple(m: int, n: int, s: int)
    requires s > 0
  {
    (exists k :: m == k * s) && n <= m < n + s
  }

  lemma RemParts(n: int, s: int)
    requires s > 0
    ensures exists k :: n == k * s + Rem(n, s)
    ensures if n >= 0 then 0 <= Rem(n, s) < s else -s < Rem(n, s) <= 0
  {
    if n >= 0 {
      assert n == (n / s) * s + n % s;
    } else {
      var m := -n;
      assert m == (m / s) * s + m % s;
      assert n == (-(m / s)) * s - m % s;
    }
  }

  /** Rounding gives the least multiple not below its input exactly when the input is not negative
      or is a multiple itself; otherwise it is one whole step too far. */
  lemma RoundUpLeast(n: int, s: int)
    requires s > 0
    ensures IsLeastMultiple(RoundUp(n, s), n, s) <==> n >= 0 || Rem(n, s) == 0
    ensures n < 0 && Rem(n, s) != 0 ==> IsLeastMultiple(RoundUp(n, s) - s, n, s)
  {
    RemParts(n, s);
    var k :| n == k * s + Rem(n, s);
    if Rem(n, s) == 0 {
      assert RoundUp(n, s) == k * s;
    } else {
      assert RoundUp(n, s) == (k + 1) * s;
      assert RoundUp(n, s) - s == k * s;
    }
  }

  lemma RoundUpOvershoots()
    ensures RoundUp(-1, WINDOW) == WINDOW && IsLeastMultiple(0, -1, WINDOW)
  {
    assert 0 == 0 * WINDOW;
  }

  lemma SameWindow(a: int, b: int, k: int)
    requires 0 <= a && 0 <= b && k * WINDOW < a <= (k + 1) * WINDOW && k * WINDOW < b <= (k + 1) * WINDOW
    ensures RoundUp(a, WINDOW) == RoundUp(b, WINDOW) == (k + 1) * WINDOW
  {
  }

  // ---- decoding ----

  datatype Decoded<T> = Ok(value: T) | Bad

  /** A list element decoded weakly into a string. */
  function AsString(j: Json): Decoded<string>
  {
    match j
    case Str(s) => Ok(s)
    case Num(l) => Ok(l)
    case Bool(b) => Ok(if b then "1" else "0")
    case Null => Ok("")
    case _ => Bad
  }

  function AsStrings(es: seq<Json>): Decoded<seq<string>>
  {
    if es == [] then Ok([])
    else
      match (AsString(es[0]), AsStrings(es[1..]))
      case (Ok(s), Ok(rest)) => Ok([s] + rest)
      case _ => Bad
  }

  /** A field decoded weakly into a list of strings: a scalar becomes a list of one. */
  function AsList(o: Fields, key: string): Decoded<seq<string>>
  {
    if key !in o || o[key].Null? then Ok([])
    else if o[key].Arr? then AsStrings(o[key].elems)
    else if o[key].Obj? then (if o[key].fields == map[] then Ok([]) else Bad)
    else AsStrings([o[key]])
  }

  function AsFlag(o: Fields, key: string): Decoded<bool>
  {
    if key !in o then Ok(false)
    else
      match o[key]
      case Null => Ok(false)
      case Bool(b) => Ok(b)
      case Num(l) => Ok(l != "0" && l != "-0")
      case Str(s) =>
        if s in ["1", "t", "T", "TRUE", "true", "True"] then Ok(true)
        else if s in ["", "0", "f", "F", "FALSE", "false", "False"] then Ok(false)
        else Bad
      case _ => Bad
  }

  function StringList(l: seq<string>): Json { Arr(seq(|l|, i requires 0 <= i < |l| => Str(l[i]))) }

  lemma {:induction false} StringsBack(es: seq<Json>, l: seq<string>)
    requires |es| == |l| && forall i :: 0 <= i < |l| ==> es[i] == Str(l[i])
    ensures AsStrings(es) == Ok(l)
  {
    if l != [] {
      StringsBack(es[1..], l[1..]);
      assert l == [l[0]] + l[1..];
    }
  }

  /** How list elements decode: scalars to their text, anything nested not at all. */
  lemma {:induction false} StringsAt(es: seq<Json>)
    ensures AsStrings(es).Ok? <==> forall i :: 0 <= i < |es| ==> !es[i].Arr? && !es[i].Obj?
    ensures AsStrings(es).Ok? ==> |AsStrings(es).value| == |es|
    ensures AsStrings(es).Ok? ==> forall i :: 0 <= i < |es| ==>
              (match es[i]
               case Str(s) => AsStrings(es).value[i] == s
               case Num(l) => AsStrings(es).value[i] == l
               case Bool(b) => AsStrings(es).value[i] == if b then "1" else "0"
               case _ => AsStrings(es).value[i] == "")
  {
    if es != [] {
      StringsAt(es[1..]);
      assert forall i :: 0 < i < |es| ==> es[i] == es[1..][i - 1];
    }
  }

  /** How a parameter decodes as a list: an array element by element, a scalar as a list of one, and what
      is absent, null or an empty object as the empty list. */
  lemma ListForms(o: Fields, key: string)
    ensures key !in o ==> AsList(o, key) == Ok([])
    ensures key in o ==>
              match o[key]
              case Null => AsList(o, key) == Ok([])
              case Arr(es) => AsList(o, key) == AsStrings(es)
              case Obj(fs) => AsList(o, key) == if fs == map[] then Ok([]) else Bad
              case Str(s) => AsList(o, key) == Ok([s])
              case Num(l) => AsList(o, key) == Ok([l])
              case Bool(b) => AsList(o, key) == Ok([if b then "1" else "0"])
  {
    if key in o && AsString(o[key]).Ok? {
      StringsAt([o[key]]);
      hide AsStrings;
      assert AsStrings([o[key]]).Ok? ==> AsStrings([o[key]]).value == [AsStrings([o[key]]).value[0]];
    }
  }

  // ---- the hook ----

  predicate Contains(list: seq<string>, items: seq<string>)
  {
    exists i :: 0 <= i < |list| && list[i] in items
  }

  /** `sliceContains`: does any element of the list equal any of the items? */
  method SliceContains(list: seq<string>, items: seq<string>) returns (found: bool)
    ensures found <==> Contains(list, items)
  {
    for i := 0 to |list|
      invariant forall k :: 0 <= k < i ==> list[k] !in items
    {
      for j := 0 to |items|
        invariant forall k :: 0 <= k < j ==> list[i] != items[k]
      {
        if list[i] == items[j] {
          return true;
        }
      }
    }
    return false;
  }

  function AddTag(list: seq<string>, tag: string): seq<string>
  {
    if Contains(list, [tag]) then list else list + [tag]
  }

  function Excluded(notTags: seq<string>): seq<string> { AddTag(AddTag(notTags, PRIVATE), UNLISTED) }

  function Bound(now: int): string { "<" + Decimal(RoundUp(now, WINDOW)) }

  datatype HookResult = DecodeError | Rewritten(fields: Fields)

  predicate Decodes(o: Fields)
  {
    AsFlag(o, HAS_SOURCE).Ok? && AsList(o, ANY_TAGS).Ok? && AsList(o, NOT_TAGS).Ok?
    && AsList(o, RELEASE_TIME).Ok? && AsList(o, ORDER_BY).Ok?
  }

  predicate HidesTagged(o: Fields)
    requires Decodes(o)
  {
    AsFlag(o, HAS_SOURCE).value && !Contains(AsList(o, ANY_TAGS).value, [PRIVATE, UNLISTED])
  }

  predicate HidesUnreleased(o: Fields)
    requires Decodes(o)
  {
    AsFlag(o, HAS_SOURCE).value && !Contains(AsList(o, ANY_TAGS).value, [SCHEDULED_SHOW, SCHEDULED_HIDE])
  }

  predicate LacksOrder(o: Fields)
    requires Decodes(o)
  {
    AsList(o, ORDER_BY).value == [] && !("text" in o && o["text"].Str? && o["text"].s != "")
  }

  /** What the hook makes of the parameters. `othersDecode` says whether the fields it does not use
      have the types it expects. */
  function Rewrite(o: Fields, now: int, othersDecode: bool): (res: HookResult)
    ensures res.Rewritten? <==> othersDecode && Decodes(o)
  {
    if !othersDecode || !Decodes(o) then DecodeError
    else
      var p := if HidesTagged(o) then o[NOT_TAGS := StringList(Excluded(AsList(o, NOT_TAGS).value))] else o;
      var times := AsList(o, RELEASE_TIME).value + [Bound(now)];
      var q := if HidesUnreleased(o) then p[RELEASE_TIME := StringList(times)] else p;
      Rewritten(if LacksOrder(o) then q[ORDER_BY := StringList(["trending_score", "release_time"])] else q)
  }

  /** The hook as it is written: the parameter map is changed in place, step by step. */
  method PreflightClaimSearch(params: Option<Fields>, now: int, othersDecode: bool) returns (res: HookResult)
    ensures res == Rewrite(if params.Some? then params.value else map[], now, othersDecode)
  {
    var orig := if params.Some? then params.value else map[];
    if !othersDecode || !Decodes(orig) {
      return DecodeError;
    }
    var any, order := AsList(orig, ANY_TAGS).value, AsList(orig, ORDER_BY).value;
    var text := if "text" in orig && orig["text"].Str? then orig["text"].s else "";
    if AsFlag(orig, HAS_SOURCE).value {
      var not, release := AsList(orig, NOT_TAGS).value, AsList(orig, RELEASE_TIME).value;
      var hidden := SliceContains(any, [PRIVATE, UNLISTED]);
      if !hidden {
        var has := SliceContains(not, [PRIVATE]);
        if !has {
          not := not + [PRIVATE];
        }
        has := SliceContains(not, [UNLISTED]);
        if !has {
          not := not + [UNLISTED];
        }
        orig := orig[NOT_TAGS := StringList(not)];
      }
      var scheduled := SliceContains(any, [SCHEDULED_SHOW, SCHEDULED_HIDE]);
      if !scheduled {
        assert |release| == 0 ==> release + [Bound(now)] == [Bound(now)];
        release := if |release| > 0 then release + [Bound(now)] else [Bound(now)];
        orig := orig[RELEASE_TIME := StringList(release)];
      }
    }
    if |order| == 0 && text == "" {
      orig := orig[ORDER_BY := StringList(["trending_score", "release_time"])];
    }
    res := Rewritten(orig);
  }

  // ---- what the rewriting means ----

  datatype Claim = Claim(tags: set<string>, release: int)

  /** The fields the hook never touches. */
  function Others(o: Fields): Fields { o - {NOT_TAGS, RELEASE_TIME, ORDER_BY} }

  predicate NoneIn(list: seq<string>, tags: set<string>) { forall t :: t in list ==> t !in tags }

  /** What the search server is asked for: `meets` reads a release-time constraint and `rest` stands
      for every condition the hook leaves alone, the positive tags among them. The order is not part
      of the selection. */
  predicate Selects(o: Fields, c: Claim, meets: (string, int) -> bool, rest: (Fields, Claim) -> bool)
    requires Decodes(o)
  {
    && NoneIn(AsList(o, NOT_TAGS).value, c.tags)
    && (forall i :: 0 <= i < |AsList(o, RELEASE_TIME).value| ==> meets(AsList(o, RELEASE_TIME).value[i], c.release))
    && rest(Others(o), c)
  }

  lemma ListBack(o: Fields, key: string, l: seq<string>)
    requires key in o && o[key] == StringList(l)
    ensures AsList(o, key) == Ok(l)
  {
    StringsBack(StringList(l).elems, l);
  }

  /** Only three parameters can change, and each is written only where the request calls for it. */
  lemma OnlyThreeKeys(o: Fields, now: int)
    requires Decodes(o)
    ensures var p := Rewrite(o, now, true).fields;
            && Others(p) == Others(o) && Decodes(p)
            && AsList(p, NOT_TAGS).value
               == (if HidesTagged(o) then Excluded(AsList(o, NOT_TAGS).value) else AsList(o, NOT_TAGS).value)
            && AsList(p, RELEASE_TIME).value
               == AsList(o, RELEASE_TIME).value + (if HidesUnreleased(o) then [Bound(now)] else [])
            && AsList(p, ORDER_BY).value
               == (if LacksOrder(o) then ["trending_score", "release_time"] else AsList(o, ORDER_BY).value)
  {
    hide AsStrings, Excluded, Bound, StringList, Contains;
    var p := Rewrite(o, now, true).fields;
    if HidesTagged(o) { ListBack(p, NOT_TAGS, Excluded(AsList(o, NOT_TAGS).value)); }
    if HidesUnreleased(o) { ListBack(p, RELEASE_TIME, AsList(o, RELEASE_TIME).value + [Bound(now)]); }
    if LacksOrder(o) { ListBack(p, ORDER_BY, ["trending_score", "release_time"]); }
  }

  /** A tag is excluded once: added at the end if it is not there. */
  lemma AddsTag(l: seq<string>, tag: string)
    ensures AddTag(l, tag) == l + if tag in l then [] else [tag]
  {
    assert Contains(l, [tag]) <==> tag in l;
    assert l + [] == l;
  }

  lemma ExcludesBoth(l: seq<string>)
    ensures Excluded(l) == l + (if "c:private" in l then [] else ["c:private"])
                             + (if "c:unlisted" in l then [] else ["c:unlisted"])
  {
    hide AddTag;
    AddsTag(l, "c:private");
    AddsTag(AddTag(l, "c:private"), "c:unlisted");
    assert "c:private"[2] != "c:unlisted"[2];
  }

  /** Whether the request asks for playable claims; one that does not say so does not. */
  predicate AsksPlayable(o: Fields)
  {
    && "has_source" in o
    && match o["has_source"]
       case Bool(b) => b
       case Num(l) => l !in {"0", "-0"}
       case Str(s) => s in {"1", "t", "T", "TRUE", "true", "True"}
       case _ => false
  }

  /** The rewriting by the request's own flag and tags: what is not asked for by name is hidden from a
      search for playable claims, and from no other. */
  lemma RewriteRules(o: Fields, now: int)
    requires Decodes(o)
    ensures var p := Rewrite(o, now, true).fields;
            var any, tags := AsList(o, "any_tags").value, AsList(o, "not_tags").value;
            var times := AsList(o, "release_time").value;
            && Decodes(p)
            && AsList(p, "not_tags").value
               == (if AsksPlayable(o) && "c:private" !in any && "c:unlisted" !in any
                   then tags + (if "c:private" in tags then [] else ["c:private"])
                             + (if "c:unlisted" in tags then [] else ["c:unlisted"])
                   else tags)
            && AsList(p, "release_time").value
               == (if AsksPlayable(o) && "c:scheduled:show" !in any && "c:scheduled:hide" !in any
                   then times + ["<" + Decimal(RoundUp(now, 300))] else times)
            && AsList(p, "order_by").value
               == (if AsList(o, "order_by").value == [] && !("text" in o && o["text"].Str? && o["text"].s != "")
                   then ["trending_score", "release_time"] else AsList(o, "order_by").value)
            && p - {"not_tags", "release_time", "order_by"} == o - {"not_tags", "release_time", "order_by"}
  {
    hide AsList, AsStrings, Excluded, Decimal, RoundUp, Rewrite;
    OnlyThreeKeys(o, now);
    ExcludesBoth(AsList(o, NOT_TAGS).value);
    HideRules(o);
    assert AsList(o, RELEASE_TIME).value + [] == AsList(o, RELEASE_TIME).value;
  }

  /** The request names neither tag as one it looks for. */
  predicate Neither(o: Fields, a: string, b: string)
    requires AsList(o, "any_tags").Ok?
  {
    a !in AsList(o, "any_tags").value && b !in AsList(o, "any_tags").value
  }

  /** When each rule applies. */
  lemma HideRules(o: Fields)
    requires Decodes(o)
    ensures HidesTagged(o) <==> AsksPlayable(o) && Neither(o, "c:private", "c:unlisted")
    ensures HidesUnreleased(o) <==> AsksPlayable(o) && Neither(o, "c:scheduled:show", "c:scheduled:hide")
  {
    hide AsList;
    FlagForms(o);
    TwoTags(AsList(o, ANY_TAGS).value, "c:private", "c:unlisted");
    TwoTags(AsList(o, ANY_TAGS).value, "c:scheduled:show", "c:scheduled:hide");
  }

  /** Which parameters the hook can read: a flag that is a boolean, a number or the text of a boolean,
      and lists without nesting; anything else is an error. */
  lemma DecodeRules(o: Fields)
    ensures Decodes(o) <==>
              && IsFlag(if "has_source" in o then o["has_source"] else Null)
              && forall key :: key in {"any_tags", "not_tags", "release_time", "order_by"} && key in o ==>
                   IsFlat(o[key])
  {
    ListRule(o, "any_tags");
    ListRule(o, "not_tags");
    ListRule(o, "release_time");
    ListRule(o, "order_by");
    hide AsList, IsFlat;
  }

  predicate IsFlag(j: Json)
  {
    match j
    case Arr(_) => false
    case Obj(_) => false
    case Str(s) =>
      s in {"1", "t", "T", "TRUE", "true", "True", "", "0", "f", "F", "FALSE", "false", "False"}
    case _ => true
  }

  predicate IsFlat(j: Json)
  {
    match j
    case Arr(es) => forall i :: 0 <= i < |es| ==> !es[i].Arr? && !es[i].Obj?
    case Obj(fs) => fs == map[]
    case _ => true
  }

  lemma ListRule(o: Fields, key: string)
    ensures AsList(o, key).Ok? <==> (key in o ==> IsFlat(o[key]))
  {
    ListForms(o, key);
    if key in o && o[key].Arr? { StringsAt(o[key].elems); }
  }

  lemma FlagForms(o: Fields)
    requires AsFlag(o, HAS_SOURCE).Ok?
    ensures AsFlag(o, HAS_SOURCE).value <==> AsksPlayable(o)
  {
  }

  lemma TwoTags(l: seq<string>, a: string, b: string)
    ensures Contains(l, [a, b]) <==> a in l || b in l
  {
    if a in l {
      var i :| 0 <= i < |l| && l[i] == a;
      assert l[i] in [a, b];
    }
    if b in l {
      var i :| 0 <= i < |l| && l[i] == b;
      assert l[i] in [a, b];
    }
  }

  /** A search for playable claims at instant 1000 that asks for scheduled ones: they are not cut off. */
  lemma ScheduledSearch()
    ensures var o := map["has_source" := Bool(true), "any_tags" := Arr([Str("c:scheduled:show")])];
            && Decodes(o)
            && var p := Rewrite(o, 1000, true).fields;
               && AsList(p, "release_time") == Ok([]) && AsList(p, "not_tags") == Ok(["c:private", "c:unlisted"])
  {
    var o := map["has_source" := Bool(true), "any_tags" := Arr([Str("c:scheduled:show")])];
    StringsBack([Str("c:scheduled:show")], ["c:scheduled:show"]);
    RewriteRules(o, 1000);
    assert "c:scheduled:show"[2] != "c:private"[2] && "c:scheduled:show"[2] != "c:unlisted"[2];
    assert [] + ["c:private"] + ["c:unlisted"] == ["c:private", "c:unlisted"];
  }

  /** One that asks for none is bounded by the end of the window. */
  lemma PlayableSearch()
    ensures var o := map["has_source" := Bool(true)];
            Decodes(o) && AsList(Rewrite(o, 1000, true).fields, "release_time") == Ok(["<1200"])
  {
    var o := map["has_source" := Bool(true)];
    assert Decodes(o);
    hide AsFlag, AsList;
    RewriteRules(o, 1000);
    assert AsList(o, "any_tags") == Ok([]) && AsList(o, "release_time") == Ok([]) by {
      ListForms(o, "any_tags");
      ListForms(o, "release_time");
    }
    hide Decimal, Rewrite, AsStrings;
    DecimalDigits();
    assert RoundUp(1000, 300) == 1200;
    hide RoundUp;
    assert "<" + "1200" == "<1200" && [] + ["<1200"] == ["<1200"];
  }

  lemma ExcludedTags(l: seq<string>, tags: set<string>)
    ensures NoneIn(Excluded(l), tags) <==> NoneIn(l, tags) && PRIVATE !in tags && UNLISTED !in tags
  {
  }

  /** A rewritten request selects what the client's would, minus exactly the private and unlisted
      claims and minus exactly the claims not yet released at the end of the time window; each is left
      in when the request does not ask for playable claims or names such claims itself. */
  lemma RewriteMeaning(o: Fields, now: int, c: Claim, meets: (string, int) -> bool, rest: (Fields, Claim) -> bool)
    requires Decodes(o)
    requires forall n, t :: meets("<" + Decimal(n), t) <==> t < n
    ensures Decodes(Rewrite(o, now, true).fields)
    ensures Selects(Rewrite(o, now, true).fields, c, meets, rest)
            <==> (&& Selects(o, c, meets, rest)
                  && (AsksPlayable(o) && Neither(o, "c:private", "c:unlisted") ==>
                        "c:private" !in c.tags && "c:unlisted" !in c.tags)
                  && (AsksPlayable(o) && Neither(o, "c:scheduled:show", "c:scheduled:hide") ==>
                        c.release < RoundUp(now, 300)))
  {
    hide AsStrings, Excluded, StringList, Contains, AsList, AsFlag, RoundUp, Decimal, Rewrite, HidesTagged,
      HidesUnreleased, LacksOrder, Others;
    OnlyThreeKeys(o, now);
    HideRules(o);
    var p := Rewrite(o, now, true).fields;
    var times := AsList(o, RELEASE_TIME).value;
    if HidesTagged(o) { ExcludedTags(AsList(o, NOT_TAGS).value, c.tags); }
    if HidesUnreleased(o) {
      assert AsList(p, RELEASE_TIME).value == times + [Bound(now)];
      Bounded(times, Bound(now), c.release, meets);
      assert meets(Bound(now), c.release) <==> c.release < RoundUp(now, WINDOW);
    } else {
      assert times + [] == times;
    }
  }

  lemma Bounded(times: seq<string>, bound: string, t: int, meets: (string, int) -> bool)
    ensures (forall i :: 0 <= i < |times + [bound]| ==> meets((times + [bound])[i], t))
            <==> (forall i :: 0 <= i < |times| ==> meets(times[i], t)) && meets(bound, t)
  {
    assert (times + [bound])[|times|] == bound;
    assert forall i :: 0 <= i < |times| ==> (times + [bound])[i] == times[i];
  }

  /** A claim released by now stays in: the bound cuts off no released claim, and lets through nothing
      that is released a whole window from now or later. */
  lemma ReleasedStay(now: int, release: int)
    requires 0 <= now
    ensures release < now ==> release < RoundUp(now, WINDOW)
    ensures release < RoundUp(now, WINDOW) ==> release < now + WINDOW
  {
  }

  // ---- what it means for the cache ----

  ghost function HookedKey(methodName: string, o: Fields, now: int): string
    requires Decodes(o)
  {
    KeyText(Request(methodName, Some(Obj(Rewrite(o, now, true).fields))))
  }

  /** Equal searches of one time window share one cache entry. */
  lemma WindowSharesKey(o: Fields, a: int, b: int, k: int)
    requires Decodes(o) && 0 <= a && 0 <= b
    requires k * WINDOW < a <= (k + 1) * WINDOW && k * WINDOW < b <= (k + 1) * WINDOW
    ensures Rewrite(o, a, true) == Rewrite(o, b, true)
    ensures HookedKey(CLAIM_SEARCH, o, a) == HookedKey(CLAIM_SEARCH, o, b)
  {
    SameWindow(a, b, k);
  }

  lemma RewriteValid(o: Fields, now: int)
    requires Decodes(o) && Valid(Obj(o))
    ensures Valid(Obj(Rewrite(o, now, true).fields))
  {
  }

  /** The rewriting never lets two users' searches meet in the cache: searches that share a key are
      one user's, whatever parameters and instants they came with. */
  lemma HookedUsersApart(u: int, v: int, a: Request, b: Request, o: Fields, p: Fields, s: int, t: int)
    requires u > 0 && v > 0 && a.methodName == b.methodName == CLAIM_SEARCH
    requires ValidParams(a.params) && ValidParams(b.params)
    requires NewQuery(a, WalletID(u)).Query? && ParamsMap(NewQuery(a, WalletID(u)).request) == Some(o) && Decodes(o)
    requires NewQuery(b, WalletID(v)).Query? && ParamsMap(NewQuery(b, WalletID(v)).request) == Some(p) && Decodes(p)
    requires HookedKey(CLAIM_SEARCH, o, s) == HookedKey(CLAIM_SEARCH, p, t)
    ensures u == v
  {
    hide WalletID, Rewrite, KeyText, Decodes, NewQuery, AsList, IsRelaxed;
    assert AcceptsWallet(CLAIM_SEARCH) && WalletID(u) != "" && WalletID(v) != "" by { WalletIDs(u); WalletIDs(v); }
    WalletForced(a, WalletID(u));
    WalletForced(b, WalletID(v));
    assert Valid(Obj(o)) && Valid(Obj(p)) by { QueryValid(a, WalletID(u)); QueryValid(b, WalletID(v)); }
    SameRewritten(o, p, s, t);
    WalletIDInjective(u, v);
  }

  lemma WalletIDs(u: int)
    requires u > 0
    ensures WalletID(u) != "" && AcceptsWallet(CLAIM_SEARCH)
  {
  }

  lemma SameRewritten(o: Fields, p: Fields, s: int, t: int)
    requires Decodes(o) && Decodes(p) && Valid(Obj(o)) && Valid(Obj(p))
    requires HookedKey(CLAIM_SEARCH, o, s) == HookedKey(CLAIM_SEARCH, p, t)
    ensures Rewrite(o, s, true) == Rewrite(p, t, true)
    ensures Others(o) == Others(p)
    ensures WALLET_ID in o && WALLET_ID in p ==> o[WALLET_ID] == p[WALLET_ID]
  {
    hide Rewrite, KeyText, Decodes, AsList, AcceptsWallet;
    OnlyThreeKeys(o, s);
    OnlyThreeKeys(p, t);
    RewriteValid(o, s);
    RewriteValid(p, t);
    assert IsRelaxed(CLAIM_SEARCH) by { assert CLAIM_SEARCH == RELAXED_METHODS[6]; }
    AllowedMethod(CLAIM_SEARCH);
    KeyTextInjective(Request(CLAIM_SEARCH, Some(Obj(Rewrite(o, s, true).fields))),
                     Request(CLAIM_SEARCH, Some(Obj(Rewrite(p, t, true).fields))));
    assert WALLET_ID in o && WALLET_ID in p ==> Others(o)[WALLET_ID] == Others(p)[WALLET_ID];
  }
}
