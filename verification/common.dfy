/**
 * Shared vocabulary of the model: an optional value, the JavaScript numeric
 * helpers the app relies on (Math.round, Math.pow with a whole exponent,
 * Math.min/Math.max, the truncating `%`), decimal rendering of integers and
 * the substring tests that String.prototype.includes / endsWith perform.
 */
module Common {

  datatype Option<+T> = None | Some(value: T) {
    function GetOr(default: T): T {
      match this
      case Some(v) => v
      case None => default
    }
  }

  // ---------------------------------------------------------------------------
  // Numbers
  // ---------------------------------------------------------------------------

  function Min(a: int, b: int): (r: int)
    ensures r <= a && r <= b
    ensures r == a || r == b
  {
    if a <= b then a else b
  }

  function Max(a: int, b: int): (r: int)
    ensures r >= a && r >= b
    ensures r == a || r == b
  {
    if a >= b then a else b
  }

  /** Math.round: the nearest integer, halves rounded towards +infinity. */
  function Round(x: real): (r: int)
    ensures x - 0.5 < r as real <= x + 0.5
  {
    (x + 0.5).Floor
  }

  lemma RoundMonotonic(x: real, y: real)
    requires x <= y
    ensures Round(x) <= Round(y)
  {
  }

  /** Math.ceil. */
  function Ceil(x: real): (r: int)
    ensures x <= r as real < x + 1.0
  {
    -((-x).Floor)
  }

  /** Math.pow(b, n) for a whole, non-negative exponent. */
  function Pow(b: real, n: nat): real
  {
    if n == 0 then 1.0 else b * Pow(b, n - 1)
  }

  /** A power of a base in [0, 1] stays in [0, 1]. */
  lemma {:induction false} PowUnitInterval(b: real, n: nat)
    requires 0.0 <= b <= 1.0
    ensures 0.0 <= Pow(b, n) <= 1.0
  {
    if n > 0 {
      PowUnitInterval(b, n - 1);
      assert b * Pow(b, n - 1) <= Pow(b, n - 1) by {
        assert (1.0 - b) * Pow(b, n - 1) >= 0.0;
      }
    }
  }

  /** For a base in [0, 1], raising to a larger exponent never increases the power. */
  lemma {:induction false} PowAntitone(b: real, m: nat, n: nat)
    requires 0.0 <= b <= 1.0
    requires m <= n
    ensures Pow(b, n) <= Pow(b, m)
    decreases n - m
  {
    if m < n {
      PowAntitone(b, m, n - 1);
      PowUnitInterval(b, n - 1);
      assert Pow(b, n) <= Pow(b, n - 1) by {
        assert (1.0 - b) * Pow(b, n - 1) >= 0.0;
      }
    }
  }

  /** The remainder of JavaScript's `%` on integers: truncated, sign of the dividend. */
  function JsRem(a: int, b: int): (r: int)
    requires b != 0
    ensures -(if b < 0 then -b else b) < r < (if b < 0 then -b else b)
    ensures a >= 0 && b > 0 ==> r == a % b
  {
    var m := if b < 0 then -b else b;
    if a >= 0 then a % m else -((-a) % m)
  }

  function Abs(x: int): nat
  {
    if x < 0 then -x else x
  }

  /** Euclid's algorithm exactly as the source writes it, over JavaScript's `%`. */
  function Gcd(a: int, b: int): (g: int)
    ensures a != 0 || b != 0 ==> g != 0
    ensures a >= 0 && b >= 0 ==> g >= 0
    decreases Abs(b)
  {
    if b == 0 then a else Gcd(b, JsRem(a, b))
  }

  /** The result of Gcd divides both arguments. */
  lemma {:induction false} GcdDivides(a: int, b: int)
    requires a >= 0 && b >= 0 && a + b > 0
    ensures Gcd(a, b) > 0 && a % Gcd(a, b) == 0 && b % Gcd(a, b) == 0
    decreases b
  {
    if b != 0 {
      var r := a % b;
      GcdDivides(b, r);
      var g := Gcd(b, r);
      DividesCombination(a, b, g);
    }
  }

  lemma DividesCombination(a: int, b: int, g: int)
    requires a >= 0 && b > 0 && g > 0
    requires b % g == 0 && (a % b) % g == 0
    ensures a % g == 0
  {
    var q := a / b;
    var r := a % b;
    assert a == b * q + r;
    var bq := b / g;
    var rq := r / g;
    assert b == g * bq;
    assert r == g * rq;
    assert a == g * (bq * q + rq) by {
      calc {
        a;
        b * q + r;
        (g * bq) * q + g * rq;
        { MulAssoc(g, bq, q); }
        g * (bq * q) + g * rq;
        g * (bq * q + rq);
      }
    }
    MultipleMod(g, bq * q + rq);
  }

  lemma MulAssoc(x: int, y: int, z: int)
    ensures (x * y) * z == x * (y * z)
  {
  }

  lemma MultipleMod(g: int, k: int)
    requires g > 0
    ensures (g * k) % g == 0
  {
    var q := (g * k) / g;
    var r := (g * k) % g;
    assert g * k == g * q + r && 0 <= r < g;
    assert g * (k - q) == r;
    MulBounds(g, k - q);
  }

  lemma MulBounds(g: int, d: int)
    requires g > 0
    ensures d >= 1 ==> g * d >= g
    ensures d <= -1 ==> g * d <= -g
  {
  }

  /** Every common divisor of the arguments divides the result of Gcd. */
  lemma {:induction false} GcdGreatest(a: int, b: int, d: int)
    requires a >= 0 && b >= 0 && d > 0
    requires a % d == 0 && b % d == 0
    ensures Gcd(a, b) % d == 0
    decreases b
  {
    if b != 0 {
      var r := a % b;
      RemainderKeepsDivisor(a, b, d);
      GcdGreatest(b, r, d);
    }
  }

  lemma RemainderKeepsDivisor(a: int, b: int, d: int)
    requires a >= 0 && b > 0 && d > 0
    requires a % d == 0 && b % d == 0
    ensures (a % b) % d == 0
  {
    var q := a / b;
    var r := a % b;
    var ad := a / d;
    var bd := b / d;
    assert a == d * ad;
    assert b == d * bd;
    assert r == a - b * q;
    assert r == d * (ad - bd * q) by {
      calc {
        r;
        a - b * q;
        d * ad - (d * bd) * q;
        { MulAssoc(d, bd, q); }
        d * ad - d * (bd * q);
        d * (ad - bd * q);
      }
    }
    MultipleMod(d, ad - bd * q);
  }

  // ---------------------------------------------------------------------------
  // Text
  // ---------------------------------------------------------------------------

  predicate IsDigit(c: char)
  {
    '0' <= c <= '9'
  }

  function DigitChar(d: nat): (c: char)
    requires d < 10
    ensures IsDigit(c) && (c as int) - ('0' as int) == d
  {
    ['0', '1', '2', '3', '4', '5', '6', '7', '8', '9'][d]
  }

  /** The decimal text of a natural number, as JavaScript's String(n) writes it. */
  function NatToString(n: nat): (s: string)
    ensures |s| > 0
    ensures forall i :: 0 <= i < |s| ==> IsDigit(s[i])
    decreases n
  {
    if n < 10 then [DigitChar(n)] else NatToString(n / 10) + [DigitChar(n % 10)]
  }

  /** The value of a string of decimal digits; the inverse of NatToString. */
  function ParseNat(s: string): nat
    requires forall i :: 0 <= i < |s| ==> IsDigit(s[i])
  {
    if |s| == 0 then 0
    else ParseNat(s[..|s| - 1]) * 10 + DigitValue(s[|s| - 1])
  }

  function DigitValue(c: char): (d: nat)
    requires IsDigit(c)
    ensures d < 10
  {
    (c as int) - ('0' as int)
  }

  lemma {:induction false} ParseNatToString(n: nat)
    ensures ParseNat(NatToString(n)) == n
    decreases n
  {
    var s := NatToString(n);
    if n >= 10 {
      ParseNatToString(n / 10);
      assert s[..|s| - 1] == NatToString(n / 10);
    }
  }

  /** The decimal text of an integer, with a leading '-' when negative. */
  function IntToString(i: int): (s: string)
    ensures |s| > 0
    ensures (i < 0) <==> s[0] == '-'
  {
    if i < 0 then "-" + NatToString(-i) else NatToString(i)
  }

  function ParseInt(s: string): int
    requires |s| > 0
    requires forall k :: 1 <= k < |s| ==> IsDigit(s[k])
    requires s[0] == '-' || IsDigit(s[0])
  {
    if s[0] == '-' then -(ParseNat(s[1..]) as int) else ParseNat(s)
  }

  /** Reading back the text of an integer yields the integer. */
  lemma IntToStringRoundTrip(i: int)
    ensures var s := IntToString(i);
      && (forall k :: 1 <= k < |s| ==> IsDigit(s[k]))
      && (s[0] == '-' || IsDigit(s[0]))
      && ParseInt(s) == i
  {
    var s := IntToString(i);
    if i < 0 {
      var d := NatToString(-i);
      assert s == "-" + d;
      assert s[1..] == d;
      assert forall k :: 1 <= k < |s| ==> s[k] == d[k - 1];
      ParseNatToString(-i);
    } else {
      ParseNatToString(i);
    }
  }

  /** The run of decimal digits that starts at position i, as long as it goes. */
  function DigitRun(s: string, i: nat): (r: string)
    requires i <= |s|
    ensures forall k :: 0 <= k < |r| ==> IsDigit(r[k])
    decreases |s| - i
  {
    if i < |s| && IsDigit(s[i]) then [s[i]] + DigitRun(s, i + 1) else []
  }

  /** The digit run is the text found at its position. */
  lemma {:induction false} DigitRunSits(s: string, i: nat)
    requires i <= |s|
    ensures var r := DigitRun(s, i); i + |r| <= |s| && r == s[i..i + |r|]
    decreases |s| - i
  {
    if i < |s| && IsDigit(s[i]) {
      DigitRunSits(s, i + 1);
    }
  }

  /** The number written at position i, read as a reader would: every digit up to the first non-digit. */
  function ReadNatAt(s: string, i: nat): nat
    requires i <= |s|
  {
    ParseNat(DigitRun(s, i))
  }

  /** The digit run at i is d when d sits at i and no digit follows it. */
  lemma {:induction false} DigitRunIs(s: string, i: nat, d: string)
    requires i + |d| <= |s| && s[i..i + |d|] == d
    requires forall k :: 0 <= k < |d| ==> IsDigit(d[k])
    requires i + |d| == |s| || !IsDigit(s[i + |d|])
    ensures DigitRun(s, i) == d
    decreases |d|
  {
    if |d| > 0 {
      assert s[i] == d[0];
      assert s[i + 1..i + 1 + |d[1..]|] == d[1..];
      DigitRunIs(s, i + 1, d[1..]);
    }
  }

  /** A number's text placed between a prefix and a tail that does not start with a digit reads back as the number. */
  lemma ReadNatBack(prefix: string, n: nat, tail: string)
    requires |tail| == 0 || !IsDigit(tail[0])
    ensures ReadNatAt(prefix + NatToString(n) + tail, |prefix|) == n
  {
    var s := prefix + NatToString(n) + tail;
    var d := NatToString(n);
    assert s[|prefix|..|prefix| + |d|] == d;
    if |tail| > 0 {
      assert s[|prefix| + |d|] == tail[0];
    }
    DigitRunIs(s, |prefix|, d);
    ParseNatToString(n);
  }

  /** The first of two numbers written around a separator that starts with a non-digit reads back as itself. */
  lemma ReadFirstBack(head: string, a: nat, middle: string, b: nat, tail: string)
    requires |middle| > 0 && !IsDigit(middle[0])
    ensures var text := head + NatToString(a) + middle + NatToString(b) + tail;
      text[..|head|] == head && ReadNatAt(text, |head|) == a
  {
    var rest := middle + NatToString(b) + tail;
    assert head + NatToString(a) + middle + NatToString(b) + tail == head + NatToString(a) + rest;
    ReadNatBack(head, a, rest);
  }

  /** The separator after the first of two numbers sits right after it, and the second number reads back as itself. */
  lemma ReadSecondBack(head: string, a: nat, middle: string, b: nat, tail: string)
    requires |tail| == 0 || !IsDigit(tail[0])
    ensures var text := head + NatToString(a) + middle + NatToString(b) + tail;
      var p := |head| + |NatToString(a)|;
      && p + |middle| <= |text| && text[p..p + |middle|] == middle
      && ReadNatAt(text, p + |middle|) == b
  {
    var before := head + NatToString(a) + middle;
    assert before[|head| + |NatToString(a)|..] == middle;
    ReadNatBack(before, b, tail);
    assert |before| == |head| + |NatToString(a)| + |middle|;
  }

  /**
   * The text starts with head, then a reader finds a, then the separator
   * middle right after a's digits, then b.
   */
  predicate ShowsTwo(text: string, head: string, a: nat, middle: string, b: nat)
  {
    var p := |head| + |NatToString(a)|;
    && |head| <= |text| && text[..|head|] == head
    && ReadNatAt(text, |head|) == a
    && p + |middle| <= |text| && text[p..p + |middle|] == middle
    && ReadNatAt(text, p + |middle|) == b
  }

  /** Two numbers written after a head and around a separator that starts with a non-digit read back as themselves. */
  lemma ReadTwoBack(head: string, a: nat, middle: string, b: nat, tail: string)
    requires |middle| > 0 && !IsDigit(middle[0])
    requires |tail| == 0 || !IsDigit(tail[0])
    ensures ShowsTwo(head + NatToString(a) + middle + NatToString(b) + tail, head, a, middle, b)
  {
    ReadFirstBack(head, a, middle, b, tail);
    ReadSecondBack(head, a, middle, b, tail);
  }

  /** The integer written at position i: an optional '-' and then the digits. */
  function ReadIntAt(s: string, i: nat): int
    requires i <= |s|
  {
    if i < |s| && s[i] == '-' then -(ReadNatAt(s, i + 1) as int) else ReadNatAt(s, i)
  }

  /** A minus sign and a number's digits, placed before a tail that does not start with a digit, read back as the sign and the number. */
  lemma ReadNegativeBack(prefix: string, m: nat, tail: string)
    requires |tail| == 0 || !IsDigit(tail[0])
    ensures var s := prefix + ("-" + NatToString(m)) + tail;
      |prefix| < |s| && s[|prefix|] == '-' && ReadNatAt(s, |prefix| + 1) == m
  {
    var s := prefix + ("-" + NatToString(m)) + tail;
    assert s == (prefix + "-") + NatToString(m) + tail;
    ReadNatBack(prefix + "-", m, tail);
    assert |prefix + "-"| == |prefix| + 1;
  }

  /** A number's digits do not start with a minus sign, and read back as the number. */
  lemma ReadUnsignedBack(prefix: string, n: nat, tail: string)
    requires |tail| == 0 || !IsDigit(tail[0])
    ensures var s := prefix + NatToString(n) + tail;
      |prefix| < |s| && s[|prefix|] != '-' && ReadNatAt(s, |prefix|) == n
  {
    ReadNatBack(prefix, n, tail);
    assert (prefix + NatToString(n) + tail)[|prefix|] == NatToString(n)[0];
  }

  /** An integer's text placed between a prefix and a tail that does not start with a digit reads back as the integer. */
  lemma ReadIntBack(prefix: string, n: int, tail: string)
    requires |tail| == 0 || !IsDigit(tail[0])
    ensures ReadIntAt(prefix + IntToString(n) + tail, |prefix|) == n
  {
    if n < 0 {
      ReadNegativeBack(prefix, -n, tail);
    } else {
      ReadUnsignedBack(prefix, n, tail);
    }
  }

  /** The text starts with head, and a reader finds n right after it. */
  predicate ShowsInt(text: string, head: string, n: int)
  {
    |head| <= |text| && text[..|head|] == head && ReadIntAt(text, |head|) == n
  }

  /** An integer written after a head and before a tail that does not start with a digit reads back as itself. */
  lemma ReadIntAfter(head: string, n: int, tail: string)
    requires |tail| == 0 || !IsDigit(tail[0])
    ensures ShowsInt(head + IntToString(n) + tail, head, n)
  {
    ReadIntBack(head, n, tail);
    assert (head + IntToString(n) + tail)[..|head|] == head;
  }

  /** String.prototype.includes. */
  predicate Contains(s: string, sub: string)
  {
    exists i | 0 <= i <= |s| - |sub| :: OccursAt(s, sub, i)
  }

  predicate OccursAt(s: string, sub: string, i: int)
  {
    0 <= i <= |s| - |sub| && s[i..i + |sub|] == sub
  }

  /** String.prototype.endsWith. */
  predicate EndsWith(s: string, suffix: string)
  {
    |suffix| <= |s| && s[|s| - |suffix|..] == suffix
  }

  /** Array.prototype.includes over a sequence. */
  predicate Includes<T(==)>(s: seq<T>, x: T)
  {
    x in s
  }

  /** Array.prototype.filter with `v => v !== x`: drops every occurrence of `x`. */
  function RemoveAll<T(==)>(s: seq<T>, x: T): (r: seq<T>)
    ensures x !in r
    ensures forall i :: 0 <= i < |r| ==> r[i] in s && r[i] != x
    ensures forall i :: 0 <= i < |s| && s[i] != x ==> s[i] in r
    ensures |r| <= |s|
  {
    if |s| == 0 then []
    else if s[0] == x then RemoveAll(s[1..], x)
    else [s[0]] + RemoveAll(s[1..], x)
  }

  lemma {:induction false} RemoveAllAbsent<T>(s: seq<T>, x: T)
    requires x !in s
    ensures RemoveAll(s, x) == s
  {
    if |s| > 0 {
      RemoveAllAbsent(s[1..], x);
    }
  }

  /** Filtering distributes over concatenation. */
  lemma {:induction false} RemoveAllAppend<T>(s: seq<T>, t: seq<T>, x: T)
    ensures RemoveAll(s + t, x) == RemoveAll(s, x) + RemoveAll(t, x)
  {
    if |s| > 0 {
      RemoveAllAppend(s[1..], t, x);
      assert (s + t)[1..] == s[1..] + t;
    } else {
      assert s + t == t;
    }
  }

  /** Array.prototype.findIndex over a sequence, for a predicate given as a function. */
  function FindIndex<T>(s: seq<T>, p: T -> bool): (r: int)
    ensures -1 <= r < |s|
    ensures r >= 0 ==> p(s[r]) && forall j :: 0 <= j < r ==> !p(s[j])
    ensures r == -1 ==> forall j :: 0 <= j < |s| ==> !p(s[j])
  {
    if |s| == 0 then -1
    else if p(s[0]) then 0
    else
      var k := FindIndex(s[1..], p);
      if k == -1 then -1 else k + 1
  }

  /** The number of elements satisfying `p`: `.filter(p).length`. */
  function CountWhere<T>(s: seq<T>, p: T -> bool): (n: nat)
    ensures n <= |s|
  {
    if |s| == 0 then 0
    else (if p(s[0]) then 1 else 0) + CountWhere(s[1..], p)
  }

  lemma {:induction false} CountWhereAppend<T>(s: seq<T>, t: seq<T>, p: T -> bool)
    ensures CountWhere(s + t, p) == CountWhere(s, p) + CountWhere(t, p)
  {
    if |s| > 0 {
      assert (s + t)[1..] == s[1..] + t;
      CountWhereAppend(s[1..], t, p);
    } else {
      assert s + t == t;
    }
  }

  lemma {:induction false} CountWherePositive<T>(s: seq<T>, p: T -> bool)
    ensures CountWhere(s, p) > 0 <==> exists i :: 0 <= i < |s| && p(s[i])
  {
    if |s| > 0 {
      CountWherePositive(s[1..], p);
      if p(s[0]) {
      } else {
        assert (exists i :: 0 <= i < |s| && p(s[i])) ==> (exists j :: 0 <= j < |s[1..]| && p(s[1..][j])) by {
          if exists i :: 0 <= i < |s| && p(s[i]) {
            var i :| 0 <= i < |s| && p(s[i]);
            assert i > 0 && p(s[1..][i - 1]);
          }
        }
        assert (exists j :: 0 <= j < |s[1..]| && p(s[1..][j])) ==> (exists i :: 0 <= i < |s| && p(s[i])) by {
          if exists j :: 0 <= j < |s[1..]| && p(s[1..][j]) {
            var j :| 0 <= j < |s[1..]| && p(s[1..][j]);
            assert p(s[j + 1]);
          }
        }
      }
    }
  }

  /** Elements either satisfy a predicate or its complement, never both. */
  lemma {:induction false} CountWhereComplement<T>(s: seq<T>, p: T -> bool, q: T -> bool)
    requires forall x :: q(x) <==> !p(x)
    ensures CountWhere(s, p) + CountWhere(s, q) == |s|
  {
    if |s| > 0 {
      CountWhereComplement(s[1..], p, q);
    }
  }
}
