/** Text shared by every component: optional values, decimal numerals as Go's `%d` prints them,
    and the order in which Go sorts the keys of a map. */
module Text {

  datatype Option<+T> = None | Some(value: T)

  const DIGITS := "0123456789"

  predicate IsDigit(c: char) { '0' <= c <= '9' }

  function Digit(d: nat): (c: char)
    requires d < 10
    ensures IsDigit(c) && DigitValue(c) == d
  {
    DIGITS[d]
  }

  function DigitValue(c: char): nat
    requires IsDigit(c)
  {
    (c as int) - ('0' as int)
  }

  /** Decimal numeral of a natural number, without leading zeros. */
  function Natural(n: nat): (s: string)
    ensures s != [] && forall i :: 0 <= i < |s| ==> IsDigit(s[i])
  {
    if n < 10 then [Digit(n)] else Natural(n / 10) + [Digit(n % 10)]
  }

  /** Decimal numeral of an integer: what `%d` and `json.Marshal` print. */
  function Decimal(n: int): (s: string)
    ensures s != [] && forall i :: 0 <= i < |s| ==> IsDigit(s[i]) || s[i] == '-'
  {
    if n < 0 then "-" + Natural(-n) else Natural(n)
  }

  lemma DecimalDigits()
    ensures Decimal(1200) == "1200" && Decimal(-30) == "-30"
  {
    assert Natural(1) == "1" && Natural(12) == "12" && Natural(120) == "120" && Natural(1200) == "1200";
    assert Natural(3) == "3" && Natural(30) == "30" && "-" + "30" == "-30";
  }

  function NaturalValue(s: string): Option<nat>
  {
    if s == [] then None
    else if !IsDigit(s[|s| - 1]) then None
    else if |s| == 1 then Some(DigitValue(s[0]))
    else
      match NaturalValue(s[..|s| - 1])
      case None => None
      case Some(v) => Some(10 * v + DigitValue(s[|s| - 1]))
  }

  function DecimalValue(s: string): Option<int>
  {
    if s != [] && s[0] == '-' then
      match NaturalValue(s[1..])
      case None => None
      case Some(v) => Some(-(v as int))
    else
      match NaturalValue(s)
      case None => None
      case Some(v) => Some(v as int)
  }

  lemma {:induction false} NaturalRoundTrip(n: nat)
    ensures NaturalValue(Natural(n)) == Some(n)
  {
    if n >= 10 {
      NaturalRoundTrip(n / 10);
      assert Natural(n)[..|Natural(n)| - 1] == Natural(n / 10);
    }
  }

  /** Reading a printed number gives the number back, so printing is injective. */
  lemma DecimalRoundTrip(n: int)
    ensures DecimalValue(Decimal(n)) == Some(n)
  {
    NaturalRoundTrip(if n < 0 then -n else n);
    if n < 0 {
      assert Decimal(n)[1..] == Natural(-n);
    }
  }

  /** Order of strings by code point, the order `sort.Strings` and `json.Marshal` use for keys. */
  predicate AtMost(s: string, t: string)
  {
    s == [] || (t != [] && (s[0] < t[0] || (s[0] == t[0] && AtMost(s[1..], t[1..]))))
  }

  lemma {:induction false} AtMostTotal(s: string, t: string)
    ensures AtMost(s, t) || AtMost(t, s)
  {
    if s != [] && t != [] && s[0] == t[0] {
      AtMostTotal(s[1..], t[1..]);
    }
  }

  lemma {:induction false} AtMostTransitive(s: string, t: string, u: string)
    requires AtMost(s, t) && AtMost(t, u)
    ensures AtMost(s, u)
  {
    if s != [] && s[0] == t[0] && t[0] == u[0] {
      AtMostTransitive(s[1..], t[1..], u[1..]);
    }
  }

  ghost predicate IsLeast(k: string, keys: set<string>)
  {
    k in keys && forall j :: j in keys ==> AtMost(k, j)
  }

  lemma {:induction false} LeastExists(keys: set<string>)
    requires keys != {}
    ensures exists k :: IsLeast(k, keys)
  {
    var k :| k in keys;
    var rest := keys - {k};
    AtMostTotal(k, k);
    if rest == {} {
      assert keys == {k};
      assert IsLeast(k, keys);
    } else {
      LeastExists(rest);
      var l :| IsLeast(l, rest);
      AtMostTotal(k, l);
      if AtMost(k, l) {
        forall j | j in keys ensures AtMost(k, j) {
          if j != k { AtMostTransitive(k, l, j); }
        }
        assert IsLeast(k, keys);
      } else {
        assert IsLeast(l, keys);
      }
    }
  }

  /** The keys of a map in the order they are marshalled. */
  ghost function SortedKeys(keys: set<string>): (r: seq<string>)
    ensures forall k :: k in r <==> k in keys
    ensures forall i, j :: 0 <= i < j < |r| ==> r[i] != r[j] && AtMost(r[i], r[j])
    decreases |keys|
  {
    if keys == {} then []
    else
      LeastExists(keys);
      var k :| IsLeast(k, keys);
      [k] + SortedKeys(keys - {k})
  }
}
