/** JSON values and the text `json.Marshal` gives them. The text decides the query cache's keys,
    so the main result is that it is injective: different values never share a text. */
module Json {
  import opened Text

  /** `Num` keeps the literal: two Go numbers are equal exactly when they marshal to one literal. */
  datatype Json =
    | Null
    | Bool(b: bool)
    | Num(literal: string)
    | Str(s: string)
    | Arr(elems: seq<Json>)
    | Obj(fields: map<string, Json>)

  /** A JSON object: no key order and no duplicates. */
  type Fields = map<string, Json>

  function Int(n: int): Json { Num(Decimal(n)) }

  predicate IsNumberChar(c: char) { IsDigit(c) || c in "+-.eE" }

  /** Every number literal inside is a non-empty run of number characters. */
  ghost predicate Valid(j: Json)
  {
    match j
    case Num(l) => l != [] && forall i :: 0 <= i < |l| ==> IsNumberChar(l[i])
    case Arr(es) => forall i :: 0 <= i < |es| ==> Valid(es[i])
    case Obj(fs) => forall k :: k in fs ==> Valid(fs[k])
    case _ => true
  }

  // ---- text ----

  const HEX := "0123456789abcdef"

  function HexDigit(d: nat): char
    requires d < 16
  {
    HEX[d]
  }

  function Hex4(n: nat): string
    requires n < 0x1_0000
  {
    [HexDigit(n / 16 / 16 / 16), HexDigit(n / 16 / 16 % 16), HexDigit(n / 16 % 16), HexDigit(n % 16)]
  }

  /** Characters written as `\uXXXX`: controls without a short form, and those HTML would read. */
  predicate NeedsHex(c: char)
  {
    c < ' ' || c == '<' || c == '>' || c == '&' || c as int == 0x2028 || c as int == 0x2029
  }

  function EscapeChar(c: char): (s: string)
    ensures s != [] && s[0] != '"'
  {
    if c == '"' then ['\\', '"']
    else if c == '\\' then ['\\', '\\']
    else if c == '\n' then ['\\', 'n']
    else if c == '\r' then ['\\', 'r']
    else if c == '\t' then ['\\', 't']
    else if NeedsHex(c) then ['\\', 'u'] + Hex4(c as int)
    else [c]
  }

  function Escape(s: string): string
  {
    if s == [] then [] else EscapeChar(s[0]) + Escape(s[1..])
  }

  function Quote(s: string): string { "\"" + Escape(s) + "\"" }

  ghost function Marshal(j: Json): (t: string)
    decreases j, 2
  {
    match j
    case Null => "null"
    case Bool(b) => if b then "true" else "false"
    case Num(l) => l
    case Str(s) => Quote(s)
    case Arr(es) => "[" + MarshalElems(j, es) + "]"
    case Obj(fs) => "{" + MarshalFields(j, fs, SortedKeys(fs.Keys)) + "}"
  }

  ghost function MarshalElems(j: Json, es: seq<Json>): string
    requires forall i :: 0 <= i < |es| ==> es[i] < j
    decreases j, 1, |es|
  {
    if es == [] then ""
    else if |es| == 1 then Marshal(es[0])
    else Marshal(es[0]) + "," + MarshalElems(j, es[1..])
  }

  ghost function MarshalFields(j: Json, fs: map<string, Json>, keys: seq<string>): string
    requires forall k :: k in keys ==> k in fs && fs[k] < j
    decreases j, 1, |keys|
  {
    if keys == [] then ""
    else if |keys| == 1 then Field(j, fs, keys[0])
    else Field(j, fs, keys[0]) + "," + MarshalFields(j, fs, keys[1..])
  }

  ghost function Field(j: Json, fs: map<string, Json>, k: string): string
    requires k in fs && fs[k] < j
    decreases j, 1, 0
  {
    Quote(k) + ":" + Marshal(fs[k])
  }

  // ---- injectivity ----

  lemma DropPrefix(p: string, x: string, y: string)
    requires p + x == p + y
    ensures x == y
  {
    assert (p + x)[|p|..] == x && (p + y)[|p|..] == y;
  }

  lemma Assoc(p: string, q: string, r: string)
    ensures p + q + r == p + (q + r)
  {
  }

  lemma HexDigitInjective(d: nat, e: nat)
    requires d < 16 && e < 16 && HexDigit(d) == HexDigit(e)
    ensures d == e
  {
  }

  lemma Hex4Injective(m: nat, n: nat)
    requires m < 0x1_0000 && n < 0x1_0000 && Hex4(m) == Hex4(n)
    ensures m == n
  {
    var h, k := Hex4(m), Hex4(n);
    assert h[0] == k[0] && h[1] == k[1] && h[2] == k[2] && h[3] == k[3];
    HexDigitInjective(m / 16 / 16 / 16, n / 16 / 16 / 16);
    HexDigitInjective(m / 16 / 16 % 16, n / 16 / 16 % 16);
    HexDigitInjective(m / 16 % 16, n / 16 % 16);
    HexDigitInjective(m % 16, n % 16);
  }

  lemma EscapeCharInjective(c: char, d: char)
    requires EscapeChar(c) == EscapeChar(d)
    ensures c == d
  {
    var e, f := EscapeChar(c), EscapeChar(d);
    assert e[0] == f[0];
    if e[0] == '\\' {
      assert e[1] == f[1];
      if e[1] == 'u' {
        assert e[2..] == Hex4(c as int) && f[2..] == Hex4(d as int);
        Hex4Injective(c as int, d as int);
      }
    }
  }

  /** No escaped character is a proper prefix of another: the first one can be read off. */
  lemma EscapeCharPrefix(c: char, d: char, x: string, y: string)
    requires EscapeChar(c) + x == EscapeChar(d) + y
    ensures c == d && x == y
  {
    var e, f := EscapeChar(c), EscapeChar(d);
    assert (e + x)[0] == e[0] && (f + y)[0] == f[0];
    if e[0] == '\\' {
      assert (e + x)[1] == e[1] && (f + y)[1] == f[1];
    }
    assert |e| == |f|;
    assert (e + x)[..|e|] == e && (f + y)[..|f|] == f;
    EscapeCharInjective(c, d);
    DropPrefix(e, x, y);
  }

  lemma EscapeUnfold(s: string, x: string)
    requires s != []
    ensures Escape(s) + x == EscapeChar(s[0]) + (Escape(s[1..]) + x)
    ensures (EscapeChar(s[0]) + (Escape(s[1..]) + x))[0] != '"'
  {
  }

  lemma {:induction false} EscapePrefix(s: string, t: string, x: string, y: string)
    requires Escape(s) + ("\"" + x) == Escape(t) + ("\"" + y)
    ensures s == t && x == y
  {
    if s == [] && t == [] {
      DropPrefix([], "\"" + x, "\"" + y);
      DropPrefix("\"", x, y);
    } else if s == [] {
      EscapeUnfold(t, "\"" + y);
    } else if t == [] {
      EscapeUnfold(s, "\"" + x);
    } else {
      EscapeUnfold(s, "\"" + x);
      EscapeUnfold(t, "\"" + y);
      EscapeCharPrefix(s[0], t[0], Escape(s[1..]) + ("\"" + x), Escape(t[1..]) + ("\"" + y));
      EscapePrefix(s[1..], t[1..], x, y);
      assert s == [s[0]] + s[1..] && t == [t[0]] + t[1..];
    }
  }

  lemma QuoteUnfold(s: string, x: string)
    ensures Quote(s) + x == "\"" + (Escape(s) + ("\"" + x))
  {
  }

  lemma QuotePrefix(s: string, t: string, x: string, y: string)
    requires Quote(s) + x == Quote(t) + y
    ensures s == t && x == y
  {
    QuoteUnfold(s, x);
    QuoteUnfold(t, y);
    DropPrefix("\"", Escape(s) + ("\"" + x), Escape(t) + ("\"" + y));
    EscapePrefix(s, t, x, y);
  }

  /** What may follow a value inside a JSON text: nothing, or a separator. */
  predicate Stops(x: string) { x == [] || x[0] == ',' || x[0] == ']' || x[0] == '}' }

  function FirstOf(j: Json): char
    requires j.Num? ==> j.literal != []
  {
    match j
    case Null => 'n'
    case Bool(b) => if b then 't' else 'f'
    case Num(l) => l[0]
    case Str(_) => '"'
    case Arr(_) => '['
    case Obj(_) => '{'
  }

  lemma FirstChar(j: Json, x: string)
    requires Valid(j)
    ensures Marshal(j) != [] && Marshal(j)[0] == FirstOf(j) == (Marshal(j) + x)[0]
    ensures !Stops(Marshal(j))
  {
  }

  /** Two texts that start alike come from values of one kind. */
  lemma SameKind(a: Json, b: Json)
    requires Valid(a) && Valid(b) && FirstOf(a) == FirstOf(b)
    ensures a.Null? == b.Null? && a.Bool? == b.Bool? && a.Num? == b.Num? && a.Str? == b.Str?
    ensures a.Arr? == b.Arr? && a.Obj? == b.Obj? && (a.Bool? ==> a == b)
  {
  }

  lemma NumberEnds(l: string, x: string, t: string)
    requires Valid(Num(l)) && Stops(x) && t == l + x
    ensures |l| <= |t| && forall i :: 0 <= i < |l| ==> IsNumberChar(t[i])
    ensures |l| < |t| ==> !IsNumberChar(t[|l|])
    ensures t[..|l|] == l && t[|l|..] == x
  {
  }

  lemma NumberPrefix(l: string, m: string, x: string, y: string)
    requires Valid(Num(l)) && Valid(Num(m)) && Stops(x) && Stops(y) && l + x == m + y
    ensures l == m && x == y
  {
    NumberEnds(l, x, l + x);
    NumberEnds(m, y, l + x);
  }

  /** A value can be read back from the start of a text it was marshalled into. */
  lemma {:induction false} MarshalPrefix(a: Json, b: Json, x: string, y: string)
    requires Valid(a) && Valid(b) && Stops(x) && Stops(y)
    requires Marshal(a) + x == Marshal(b) + y
    ensures a == b && x == y
    decreases a, 3
  {
    FirstChar(a, x);
    FirstChar(b, y);
    SameKind(a, b);
    match a {
      case Null => DropPrefix(Marshal(a), x, y);
      case Bool(_) => DropPrefix(Marshal(a), x, y);
      case Num(l) => NumberPrefix(l, b.literal, x, y);
      case Str(s) => QuotePrefix(s, b.s, x, y);
      case Arr(_) => ArrayPrefix(a, b, x, y);
      case Obj(_) => ObjectPrefix(a, b, x, y);
    }
  }

  lemma ArrayUnfold(a: Json, x: string)
    requires a.Arr?
    ensures Marshal(a) + x == "[" + (MarshalElems(a, a.elems) + ("]" + x))
  {
  }

  lemma {:induction false} ArrayPrefix(a: Json, b: Json, x: string, y: string)
    requires a.Arr? && b.Arr? && Valid(a) && Valid(b)
    requires Marshal(a) + x == Marshal(b) + y
    ensures a == b && x == y
    decreases a, 2
  {
    ArrayUnfold(a, x);
    ArrayUnfold(b, y);
    DropPrefix("[", MarshalElems(a, a.elems) + ("]" + x), MarshalElems(b, b.elems) + ("]" + y));
    ElemsPrefix(a, a.elems, b, b.elems, x, y);
  }

  lemma ObjectUnfold(a: Json, x: string)
    requires a.Obj?
    ensures Marshal(a) + x == "{" + (MarshalFields(a, a.fields, SortedKeys(a.fields.Keys)) + ("}" + x))
  {
  }

  lemma {:induction false} ObjectPrefix(a: Json, b: Json, x: string, y: string)
    requires a.Obj? && b.Obj? && Valid(a) && Valid(b)
    requires Marshal(a) + x == Marshal(b) + y
    ensures a == b && x == y
    decreases a, 2
  {
    ObjectUnfold(a, x);
    ObjectUnfold(b, y);
    DropPrefix("{", MarshalFields(a, a.fields, SortedKeys(a.fields.Keys)) + ("}" + x),
               MarshalFields(b, b.fields, SortedKeys(b.fields.Keys)) + ("}" + y));
    FieldsPrefix(a, a.fields, SortedKeys(a.fields.Keys), b, b.fields, SortedKeys(b.fields.Keys), x, y);
    SameFields(a.fields, b.fields);
  }

  lemma SameFields(fs: map<string, Json>, gs: map<string, Json>)
    requires SortedKeys(fs.Keys) == SortedKeys(gs.Keys)
    requires forall k :: k in SortedKeys(fs.Keys) ==> fs[k] == gs[k]
    ensures fs == gs
  {
  }

  /** What follows the first of several elements or fields, closed by `close`. */
  function Rest(last: bool, rest: string, close: string, x: string): (r: string)
    requires |close| == 1
    ensures r != []
    ensures last ==> r == close + x && r[0] == close[0] && r[1..] == x
    ensures !last ==> r[0] == ',' && r[1..] == rest + (close + x)
  {
    if last then close + x else "," + (rest + (close + x))
  }

  lemma ElemsUnfold(a: Json, es: seq<Json>, x: string)
    requires es != [] && forall i :: 0 <= i < |es| ==> es[i] < a
    ensures MarshalElems(a, es) + ("]" + x)
         == Marshal(es[0]) + Rest(|es| == 1, MarshalElems(a, es[1..]), "]", x)
  {
  }

  lemma ElemsStart(a: Json, es: seq<Json>, x: string)
    requires es != [] && forall i :: 0 <= i < |es| ==> es[i] < a && Valid(es[i])
    ensures var t := MarshalElems(a, es) + ("]" + x); t != [] && t[0] != ']'
  {
    ElemsUnfold(a, es, x);
    FirstChar(es[0], Rest(|es| == 1, MarshalElems(a, es[1..]), "]", x));
  }

  lemma {:induction false} ElemsPrefix(a: Json, es: seq<Json>, b: Json, fs: seq<Json>, x: string, y: string)
    requires forall i :: 0 <= i < |es| ==> es[i] < a && Valid(es[i])
    requires forall i :: 0 <= i < |fs| ==> fs[i] < b && Valid(fs[i])
    requires MarshalElems(a, es) + ("]" + x) == MarshalElems(b, fs) + ("]" + y)
    ensures es == fs && x == y
    decreases a, 1, |es|
  {
    if es == [] && fs == [] {
      DropPrefix([], "]" + x, "]" + y);
      DropPrefix("]", x, y);
    } else if es == [] {
      ElemsStart(b, fs, y);
    } else if fs == [] {
      ElemsStart(a, es, x);
    } else {
      ElemsUnfold(a, es, x);
      ElemsUnfold(b, fs, y);
      var u := Rest(|es| == 1, MarshalElems(a, es[1..]), "]", x);
      var v := Rest(|fs| == 1, MarshalElems(b, fs[1..]), "]", y);
      MarshalPrefix(es[0], fs[0], u, v);
      assert u[0] == v[0] && u[1..] == v[1..];
      if |es| > 1 {
        ElemsPrefix(a, es[1..], b, fs[1..], x, y);
      }
      assert es == [es[0]] + es[1..] && fs == [fs[0]] + fs[1..];
    }
  }

  ghost function FieldsRest(a: Json, fs: map<string, Json>, ks: seq<string>, x: string): (r: string)
    requires ks != [] && forall k :: k in ks ==> k in fs && fs[k] < a
    ensures r != [] && Stops(r)
  {
    Rest(|ks| == 1, MarshalFields(a, fs, ks[1..]), "}", x)
  }

  lemma FieldsUnfold(a: Json, fs: map<string, Json>, ks: seq<string>, x: string)
    requires ks != [] && forall k :: k in ks ==> k in fs && fs[k] < a
    ensures MarshalFields(a, fs, ks) + ("}" + x)
         == Quote(ks[0]) + (":" + (Marshal(fs[ks[0]]) + FieldsRest(a, fs, ks, x)))
  {
    var q, m, r := Quote(ks[0]), Marshal(fs[ks[0]]), FieldsRest(a, fs, ks, x);
    Assoc(q + ":", m, r);
    Assoc(q, ":", m + r);
    if |ks| > 1 {
      Assoc(q + ":" + m, ",", MarshalFields(a, fs, ks[1..]));
      Assoc(q + ":" + m, "," + MarshalFields(a, fs, ks[1..]), "}" + x);
      Assoc(",", MarshalFields(a, fs, ks[1..]), "}" + x);
    }
  }

  lemma FieldsStart(a: Json, fs: map<string, Json>, ks: seq<string>, x: string, y: string)
    requires ks != [] && forall k :: k in ks ==> k in fs && fs[k] < a
    ensures MarshalFields(a, fs, ks) + ("}" + x) != [] + ("}" + y)
  {
    FieldsUnfold(a, fs, ks, x);
    assert (Quote(ks[0]) + (":" + (Marshal(fs[ks[0]]) + FieldsRest(a, fs, ks, x))))[0] == '"';
    assert ([] + ("}" + y))[0] == '}';
  }

  lemma {:induction false} FieldsPrefix(a: Json, fs: map<string, Json>, ks: seq<string>,
                                        b: Json, gs: map<string, Json>, ls: seq<string>, x: string, y: string)
    requires forall k :: k in ks ==> k in fs && fs[k] < a && Valid(fs[k])
    requires forall l :: l in ls ==> l in gs && gs[l] < b && Valid(gs[l])
    requires MarshalFields(a, fs, ks) + ("}" + x) == MarshalFields(b, gs, ls) + ("}" + y)
    ensures ks == ls && x == y && forall k :: k in ks ==> fs[k] == gs[k]
    decreases a, 1, |ks|, 1
  {
    if ks == [] && ls == [] {
      DropPrefix([], "}" + x, "}" + y);
      DropPrefix("}", x, y);
    } else if ks == [] {
      FieldsStart(b, gs, ls, y, x);
    } else if ls == [] {
      FieldsStart(a, fs, ks, x, y);
    } else {
      FieldsUnfold(a, fs, ks, x);
      FieldsUnfold(b, gs, ls, y);
      FieldPrefix(a, fs[ks[0]], ks[0], gs[ls[0]], ls[0], FieldsRest(a, fs, ks, x), FieldsRest(b, gs, ls, y));
      FieldsTail(a, fs, ks, b, gs, ls, x, y);
    }
  }

  lemma {:induction false} FieldsTail(a: Json, fs: map<string, Json>, ks: seq<string>,
                                      b: Json, gs: map<string, Json>, ls: seq<string>, x: string, y: string)
    requires ks != [] && ls != [] && ks[0] == ls[0] && fs.Keys >= {ks[0]} && gs.Keys >= {ks[0]}
             && fs[ks[0]] == gs[ks[0]]
    requires forall k :: k in ks ==> k in fs && fs[k] < a && Valid(fs[k])
    requires forall l :: l in ls ==> l in gs && gs[l] < b && Valid(gs[l])
    requires FieldsRest(a, fs, ks, x) == FieldsRest(b, gs, ls, y)
    ensures ks == ls && x == y && forall k :: k in ks ==> fs[k] == gs[k]
    decreases a, 1, |ks|, 0
  {
    if |ks| > 1 && |ls| > 1 {
      FieldsPrefix(a, fs, ks[1..], b, gs, ls[1..], x, y);
    }
    assert ks == [ks[0]] + ks[1..] && ls == [ls[0]] + ls[1..];
  }

  lemma {:induction false} FieldPrefix(a: Json, c: Json, k: string, d: Json, l: string, u: string, v: string)
    requires c < a && Valid(c) && Valid(d) && Stops(u) && Stops(v) && u != [] && v != []
    requires Quote(k) + (":" + (Marshal(c) + u)) == Quote(l) + (":" + (Marshal(d) + v))
    ensures k == l && c == d && u == v
    decreases a, 0
  {
    QuotePrefix(k, l, ":" + (Marshal(c) + u), ":" + (Marshal(d) + v));
    DropPrefix(":", Marshal(c) + u, Marshal(d) + v);
    MarshalPrefix(c, d, u, v);
  }

  /** Different values have different texts. */
  lemma MarshalInjective(a: Json, b: Json)
    requires Valid(a) && Valid(b) && Marshal(a) == Marshal(b)
    ensures a == b
  {
    assert Marshal(a) + [] == Marshal(b) + [];
    MarshalPrefix(a, b, [], []);
  }
}
