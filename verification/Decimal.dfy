/** Exact decimal text for rational amounts, and the sums it is used for. */
module Decimal {
  import opened Lifecycle
  import opened Words

  /** A rational number with a positive denominator. */
  datatype Rat = Rat(num: int, den: int)

  function Power(b: nat, n: nat): (r: nat)
    ensures b > 0 ==> r > 0
  {
    if n == 0 then 1 else b * Power(b, n - 1)
  }

  lemma Associates(a: int, b: int, c: int)
    ensures (a * b) * c == a * (b * c)
  {
  }

  lemma Regroups(a: int, b: int, x: int, y: int)
    ensures (a * b) * (x * y) == (a * x) * (b * y)
  {
  }

  lemma Distributes(a: int, b: int, c: int)
    ensures (a + b) * c == a * c + b * c
  {
  }

  lemma {:induction false} PowerAdd(b: nat, m: nat, n: nat)
    ensures Power(b, m + n) == Power(b, m) * Power(b, n)
  {
    if m == 0 {
    } else {
      PowerAdd(b, m - 1, n);
      Associates(b, Power(b, m - 1), Power(b, n));
    }
  }

  lemma {:induction false} PowerTen(n: nat)
    ensures Power(10, n) == Power(2, n) * Power(5, n)
  {
    if n == 0 {
    } else {
      PowerTen(n - 1);
      Regroups(2, 5, Power(2, n - 1), Power(5, n - 1));
    }
  }

  // ---- reading decimal text ----------------------------------------------------------

  predicate Digit(c: char) { '0' <= c <= '9' }

  predicate AllDigits(s: string) { forall i | 0 <= i < |s| :: Digit(s[i]) }

  function NumVal(s: string): nat
    requires AllDigits(s)
  {
    if s == "" then 0 else 10 * NumVal(s[..|s| - 1]) + (s[|s| - 1] as int - '0' as int)
  }

  lemma {:induction false} DigitsRead(n: nat)
    ensures AllDigits(Digits(n)) && NumVal(Digits(n)) == n
  {
    if n >= 10 {
      DigitsRead(n / 10);
      var d := Digits(n);
      assert d[..|d| - 1] == Digits(n / 10);
    } else {
      assert Digits(n)[..0] == "";
    }
  }

  lemma {:induction false} ZerosInFront(k: nat, s: string)
    requires AllDigits(s)
    ensures AllDigits(Zeros(k) + s) && NumVal(Zeros(k) + s) == NumVal(s)
  {
    var t := Zeros(k) + s;
    assert AllDigits(t);
    if s != "" {
      assert t[..|t| - 1] == Zeros(k) + s[..|s| - 1];
      ZerosInFront(k, s[..|s| - 1]);
    } else {
      assert t == Zeros(k);
      ZerosRead(k);
    }
  }

  lemma {:induction false} ZerosRead(k: nat)
    ensures AllDigits(Zeros(k)) && NumVal(Zeros(k)) == 0
  {
    if k == 0 {
    } else {
      ZerosRead(k - 1);
      assert Zeros(k)[..k - 1] == Zeros(k - 1);
    }
  }

  lemma {:induction false} NoLeadingZero(n: nat)
    requires n > 0
    ensures Digits(n)[0] != '0' && (|Digits(n)| == 1 <==> n < 10)
  {
    if n >= 10 {
      NoLeadingZero(n / 10);
      assert Digits(n)[0] == Digits(n / 10)[0];
    }
  }

  /** The number of a generated key: at least three digits that read as the number, and no zero in
      front of more. */
  lemma PaddedReads(n: nat)
    ensures AllDigits(Padded(n)) && NumVal(Padded(n)) == n
    ensures |Padded(n)| == 3 || (|Padded(n)| > 3 && Padded(n)[0] != '0')
  {
    DigitsRead(n);
    var d := Digits(n);
    if n > 0 {
      NoLeadingZero(n);
    }
    if |d| == 1 {
      ZerosInFront(2, d);
      assert "00" == Zeros(2);
    } else if |d| == 2 {
      ZerosInFront(1, d);
      assert "0" == Zeros(1);
    }
  }

  function Zeros(k: nat): (s: string)
    ensures |s| == k && forall i | 0 <= i < k :: s[i] == '0'
  {
    seq(k, i => '0')
  }

  lemma {:induction false} ZerosBehind(s: string, k: nat)
    requires AllDigits(s)
    ensures AllDigits(s + Zeros(k)) && NumVal(s + Zeros(k)) == NumVal(s) * Power(10, k)
  {
    var t := s + Zeros(k);
    assert AllDigits(t);
    if k == 0 {
      assert t == s;
    } else {
      ZerosBehind(s, k - 1);
      assert t[..|t| - 1] == s + Zeros(k - 1);
      Regroups(10, 1, NumVal(s), Power(10, k - 1));
      Regroups(NumVal(s), 1, 10, Power(10, k - 1));
    }
  }

  /** The text is the number m / 10^k: an optional sign, digits, and k digits after a point; no
      point without digits behind it, no zero at the end of them, and no sign on zero. */
  ghost predicate Reads(text: string, m: int, k: nat) {
    exists w, f :: ReadsAs(text, w, f, m, k)
  }

  predicate ReadsAs(text: string, w: string, f: string, m: int, k: nat) {
    && w != "" && AllDigits(w) && AllDigits(f) && |f| == k && AllDigits(w + f)
    && (f != "" ==> f[|f| - 1] != '0')
    && var body := if f == "" then w else w + "." + f;
       if m < 0 then text == "-" + body && NumVal(w + f) == -m else text == body && NumVal(w + f) == m
  }

  // ---- factoring the denominator ------------------------------------------------------

  lemma OneFactor(rest: nat, b: nat, p: nat)
    requires b >= 2 && rest > 0 && rest % b == 0
    ensures rest * p == (rest / b) * (b * p) && 0 < rest / b < rest
  {
  }

  method FactorOut(d: nat, b: nat) returns (rest: nat, n: nat)
    requires d > 0 && b >= 2
    ensures d == rest * Power(b, n) && rest > 0 && rest % b != 0
  {
    rest, n := d, 0;
    while rest % b == 0
      invariant rest > 0 && d == rest * Power(b, n)
      decreases rest
    {
      OneFactor(rest, b, Power(b, n));
      rest := rest / b;
      n := n + 1;
    }
  }

  /** Twos and fives and nothing else. */
  ghost predicate TerminatingDen(d: int) {
    exists i, j :: TwosFives(d, i, j)
  }

  predicate TwosFives(d: int, i: nat, j: nat) { d == Power(2, i) * Power(5, j) }

  /** What stays after the twos and fives are taken out of a divisor of a power of ten is one. */
  lemma {:induction false} NothingLeft(r: nat, c: nat, s: nat)
    requires r > 0 && r % 2 != 0 && r % 5 != 0 && r * c == Power(10, s)
    ensures r == 1
  {
    if s > 0 {
      var p := Power(10, s - 1);
      CancelTwo(r, c, 5 * p);
      CancelFive(r, c / 2, p);
      NothingLeft(r, c / 2 / 5, s - 1);
    } else {
      ProductOne(r, c);
    }
  }

  lemma ProductOne(r: nat, c: nat)
    requires r * c == 1
    ensures r == 1
  {
  }

  lemma OddTimes(x: int, y: int)
    ensures (2 * x + 1) * (2 * y + 1) == 2 * (2 * x * y + x + y) + 1
  {
  }

  lemma OddProduct(r: nat, c: nat)
    requires r % 2 == 1 && c % 2 == 1
    ensures (r * c) % 2 == 1
  {
    var x, y := r / 2, c / 2;
    OddTimes(x, y);
    assert r == 2 * x + 1 && c == 2 * y + 1;
  }

  lemma CancelTwo(r: nat, c: nat, m: nat)
    requires r % 2 != 0 && r * c == 2 * m
    ensures c % 2 == 0 && r * (c / 2) == m
  {
    if c % 2 != 0 {
      OddProduct(r, c);
    }
    Associates(r, c / 2, 2);
  }

  lemma FiveTimes(x: int, a: int, y: int, b: int)
    ensures (5 * x + a) * (5 * y + b) == 5 * (5 * x * y + x * b + a * y) + a * b
  {
  }

  lemma ModFive(z: int, v: int)
    ensures (5 * z + v) % 5 == v % 5
  {
  }

  /** The remainder of a product by five. */
  lemma FiveProduct(r: nat, c: nat)
    ensures (r * c) % 5 == ((r % 5) * (c % 5)) % 5
  {
    var x, a, y, b := r / 5, r % 5, c / 5, c % 5;
    FiveTimes(x, a, y, b);
    ModFive(5 * x * y + x * b + a * y, a * b);
    assert r == 5 * x + a && c == 5 * y + b;
  }

  lemma CancelFive(r: nat, c: nat, m: nat)
    requires r % 5 != 0 && r * c == 5 * m
    ensures c % 5 == 0 && r * (c / 5) == m
  {
    FiveProduct(r, c);
    var a, b := r % 5, c % 5;
    assert (a * b) % 5 == 0;
    SmallProducts(a, b);
    Associates(r, c / 5, 5);
  }

  lemma SmallProducts(a: nat, b: nat)
    requires 0 < a < 5 && b < 5 && (a * b) % 5 == 0
    ensures b == 0
  {
  }

  /** The loops end with one exactly when there are only twos and fives. */
  lemma FactorsDecide(d: nat, twos: nat, rest2: nat, fives: nat, rest: nat)
    requires d > 0 && d == rest2 * Power(2, twos) && rest2 % 2 != 0
    requires rest2 == rest * Power(5, fives) && rest > 0 && rest % 5 != 0
    ensures rest == 1 <==> TerminatingDen(d)
    ensures rest == 1 ==> d == Power(2, twos) * Power(5, fives)
  {
    if rest == 1 {
      assert TwosFives(d, twos, fives);
    }
    if i, j :| TwosFives(d, i, j) {
      hide Power;
      var c, s := Cofactor(d, i, j);
      var k := Power(5, fives) * Power(2, twos);
      Associates(rest, Power(5, fives), Power(2, twos));
      Associates(rest, k, c);
      OddFactor(rest, Power(5, fives), rest2);
      CofactorSign(d, c, s);
      Positive(rest, k, d);
      NothingLeft(rest, k * c, s);
    }
  }

  lemma Positive(a: nat, b: int, d: int)
    requires a > 0 && d > 0 && d == a * b
    ensures b > 0
  {
  }

  lemma CofactorSign(d: int, c: nat, s: nat)
    requires d * c == Power(10, s)
    ensures c > 0
  {
  }

  lemma OddFactor(a: nat, b: nat, c: nat)
    requires c == a * b && c % 2 != 0
    ensures a % 2 != 0
  {
    if a % 2 == 0 {
      Associates(2, a / 2, b);
    }
  }

  lemma Cofactor(d: int, i: nat, j: nat) returns (c: nat, s: nat)
    requires TwosFives(d, i, j)
    ensures d * c == Power(10, s)
  {
    hide Power;
    s := i + j;
    var a, b, x, y := Power(2, i), Power(5, j), Power(2, j), Power(5, i);
    NonNegative(x, y);
    c := x * y;
    PowerTen(s);
    PowerAdd(2, i, j);
    PowerAdd(5, i, j);
    Regroups(a, b, x, y);
    assert b * y == y * b;
  }

  lemma NonNegative(a: nat, b: nat)
    ensures a * b >= 0
  {
  }

  // ---- writing decimal text -------------------------------------------------------------

  function TrimRightChar(s: string, c: char): string {
    if s != "" && s[|s| - 1] == c then TrimRightChar(s[..|s| - 1], c) else s
  }

  lemma {:induction false} TrimZeros(s: string, k: nat)
    ensures TrimRightChar(s + Zeros(k), '0') == TrimRightChar(s, '0')
  {
    if k == 0 {
      assert s + Zeros(k) == s;
    } else {
      TrimZeros(s, k - 1);
      assert (s + Zeros(k))[..|s + Zeros(k)| - 1] == s + Zeros(k - 1);
    }
  }

  /** The digits behind the point without the zeros at their end. */
  lemma {:induction false} Significant(f: string) returns (g: string, k: nat)
    requires AllDigits(f)
    ensures f == g + Zeros(k) && AllDigits(g) && (g != "" ==> g[|g| - 1] != '0')
  {
    if f != "" && f[|f| - 1] == '0' {
      var h, m := Significant(f[..|f| - 1]);
      g, k := h, m + 1;
      assert Zeros(k) == Zeros(m) + ['0'];
      assert f == f[..|f| - 1] + ['0'];
    } else {
      g, k := f, 0;
      assert f + Zeros(0) == f;
    }
  }

  /** Point and zeros behind it: what the two trims leave. */
  lemma TrimmedText(w: string, f: string) returns (g: string, k: nat)
    requires w != "" && AllDigits(w) && AllDigits(f)
    ensures f == g + Zeros(k) && AllDigits(g) && (g != "" ==> g[|g| - 1] != '0')
    ensures TrimRightChar(TrimRightChar(w + "." + f, '0'), '.') == if g == "" then w else w + "." + g
  {
    g, k := Significant(f);
    var head := w + "." + g;
    assert w + "." + f == head + Zeros(k);
    TrimZeros(head, k);
    if g == "" {
      assert head == w + ".";
      assert head[..|head| - 1] == w;
    } else {
      assert head[|head| - 1] == g[|g| - 1] && Digit(g[|g| - 1]);
    }
  }

  lemma JoinDigits(w: string, f: string)
    requires AllDigits(w) && AllDigits(f)
    ensures AllDigits(w + f)
  {
  }

  /** The text is w, a point and g, and so the numeral `digits` cut before its last `scale` digits,
      without the k zeros behind. */
  predicate PointAt(digits: string, scale: nat, text: string, w: string, g: string, k: nat)
    requires AllDigits(digits)
  {
    && k <= scale && w != "" && AllDigits(w) && AllDigits(g) && |g| == scale - k && AllDigits(w + g)
    && (g != "" ==> g[|g| - 1] != '0')
    && text == (if g == "" then w else w + "." + g)
    && NumVal(digits) == NumVal(w + g) * Power(10, k)
  }

  /** Placing the point, with zeros in front where the numeral is too short. */
  method PlacePoint(digits: string, scale: nat) returns (text: string)
    requires digits != "" && AllDigits(digits) && scale > 0
    ensures exists w, g, k: nat :: PointAt(digits, scale, text, w, g, k)
  {
    var padded := digits;
    if |padded| <= scale {
      ZerosInFront(scale - |digits| + 1, digits);
      padded := Zeros(scale - |digits| + 1) + digits;
    }
    var whole, frac := padded[..|padded| - scale], padded[|padded| - scale..];
    text := TrimRightChar(TrimRightChar(whole + "." + frac, '0'), '.');
    ghost var g, k := CutValue(padded, whole, frac);
    assert PointAt(digits, scale, text, whole, g, k);
  }

  lemma CutValue(padded: string, w: string, frac: string) returns (g: string, k: nat)
    requires w != "" && AllDigits(padded) && padded == w + frac
    ensures AllDigits(w) && AllDigits(g) && |g| + k == |frac| && AllDigits(w + g) && (g != "" ==> g[|g| - 1] != '0')
    ensures TrimRightChar(TrimRightChar(w + "." + frac, '0'), '.') == if g == "" then w else w + "." + g
    ensures NumVal(padded) == NumVal(w + g) * Power(10, k)
  {
    hide NumVal, TrimRightChar;
    assert forall i | 0 <= i < |w| :: w[i] == padded[i];
    assert forall i | 0 <= i < |frac| :: frac[i] == padded[|w| + i];
    g, k := TrimmedText(w, frac);
    JoinDigits(w, g);
    assert padded == (w + g) + Zeros(k);
    ZerosBehind(w + g, k);
  }

  lemma ScaledUp(num: int, den: int, twos: nat, fives: nat, scale: nat)
    requires TwosFives(den, twos, fives) && scale >= twos && scale >= fives
    ensures (num * Power(2, scale - twos) * Power(5, scale - fives)) * den == num * Power(10, scale)
  {
    hide Power;
    var a, b, x, y := Power(2, scale - twos), Power(5, scale - fives), Power(2, twos), Power(5, fives);
    PowerAdd(2, scale - twos, twos);
    PowerAdd(5, scale - fives, fives);
    PowerTen(scale);
    Regroups(a, b, x, y);
    Associates(num, a, b);
    Associates(num, a * b, x * y);
  }

  /** Dropping k zeros from a mantissa drops k from its scale. */
  lemma ScaledDown(m: int, n: int, num: int, den: int, scale: nat, k: nat)
    requires k <= scale && n == m * Power(10, k) && n * den == num * Power(10, scale)
    ensures m * den == num * Power(10, scale - k)
  {
    hide Power;
    PowerAdd(10, scale - k, k);
    var p := Power(10, k);
    PowerPositive(k);
    Associates(num, Power(10, scale - k), p);
    Regroups(m, p, den, 1);
    Cancels(m * den, num * Power(10, scale - k), p);
  }

  lemma PowerPositive(k: nat)
    ensures Power(10, k) > 0
  {
  }

  lemma Cancels(a: int, b: int, p: int)
    requires p > 0 && a * p == b * p
    ensures a == b
  {
  }

  /** The numerator over 10^scale. */
  function ScaledNumerator(v: Rat, twos: nat, fives: nat, scale: nat): (n: int)
    requires TwosFives(v.den, twos, fives) && scale >= twos && scale >= fives
    ensures n * v.den == v.num * Power(10, scale)
  {
    ScaledUp(v.num, v.den, twos, fives, scale);
    v.num * Power(2, scale - twos) * Power(5, scale - fives)
  }

  /** The text reads as m / 10^k, which is exactly v. */
  ghost predicate Exact(text: string, v: Rat, m: int, k: nat) {
    Reads(text, m, k) && m * v.den == v.num * Power(10, k)
  }

  /** decimalString: exact text for every denominator of twos and fives; None stands for the
      rounding branch that other denominators take. */
  method DecimalString(v: Rat) returns (text: Option<string>)
    requires v.den > 0
    ensures text.Some? <==> TerminatingDen(v.den)
    ensures text.Some? ==> exists m: int, k: nat :: Exact(text.value, v, m, k)
  {
    var rest2, twos := FactorOut(v.den, 2);
    var rest, fives := FactorOut(rest2, 5);
    FactorsDecide(v.den, twos, rest2, fives, rest);
    if rest != 1 {
      return None;
    }
    var scale := if fives > twos then fives else twos;
    var numerator := ScaledNumerator(v, twos, fives, scale);
    var written := WriteScaled(numerator, scale);
    ghost var m: int, k: nat, z: nat :| ScaledAt(numerator, scale, written, m, k, z);
    ScaledDown(m, numerator, v.num, v.den, scale, z);
    assert Exact(written, v, m, k);
    text := Some(written);
  }

  /** The text reads as m / 10^k, and n / 10^scale is the same number with z more zeros. */
  ghost predicate ScaledAt(n: int, scale: nat, text: string, m: int, k: nat, z: nat) {
    Reads(text, m, k) && k + z == scale && n == m * Power(10, z)
  }

  /** The sign, the digits and the point of n / 10^scale. */
  method WriteScaled(n: int, scale: nat) returns (text: string)
    ensures exists m: int, k: nat, z: nat :: ScaledAt(n, scale, text, m, k, z)
  {
    var negative := n < 0;
    var size: nat := if negative then -n else n;
    var digits := Digits(size);
    DigitsRead(size);
    ghost var w, g, z: nat := digits, "", 0;
    text := digits;
    if scale > 0 {
      text := PlacePoint(digits, scale);
      w, g, z :| PointAt(digits, scale, text, w, g, z);
    } else {
      assert w + g == w;
      PowerZero();
    }
    SignedText(text, w, g, size, z, negative, n);
    ghost var m := if negative then -(NumVal(w + g) as int) else NumVal(w + g);
    if negative && text != "0" {
      text := "-" + text;
    }
    assert ReadsAs(text, w, g, m, |g|);
    assert ScaledAt(n, scale, text, m, |g|, z);
  }

  lemma PowerZero()
    ensures Power(10, 0) == 1
  {
  }

  lemma ZeroTimes(x: int, p: int)
    requires x == 0
    ensures x * p == 0
  {
  }

  lemma SignedText(body: string, w: string, g: string, size: int, k: nat, negative: bool, n: int)
    requires w != "" && AllDigits(w + g) && size == NumVal(w + g) * Power(10, k)
    requires body == if g == "" then w else w + "." + g
    requires n == if negative then -size else size
    requires negative <==> n < 0
    ensures n == (if negative then -(NumVal(w + g) as int) else NumVal(w + g)) * Power(10, k)
    ensures negative ==> NumVal(w + g) > 0 && body != "0"
  {
  }

  // ---- sums -----------------------------------------------------------------------------

  function Gcd(a: nat, b: nat): (g: nat)
    requires a > 0 || b > 0
    ensures g > 0
    decreases b
  {
    if b == 0 then a else Gcd(b, a % b)
  }

  lemma Cofactors(t: int, p: int, q: int, g: int)
    ensures (t * p + q) * g == t * (p * g) + q * g
  {
  }

  lemma Combination(t: int, b: int, r: int, x: int, y: int)
    ensures y * (t * b + r) + (x - y * t) * b == x * b + y * r
  {
  }

  lemma DivMod(a: nat, b: nat)
    requires b > 0
    ensures a == (a / b) * b + a % b
  {
  }

  lemma DividesBoth(a: int, b: int, r: int, t: nat, p: nat, q: nat, g: int) returns (s: nat)
    requires a == t * b + r && b == p * g && r == q * g
    ensures a == s * g
  {
    Cofactors(t, p, q, g);
    NonNegative(t, p);
    s := t * p + q;
  }

  lemma CombinesBoth(a: int, b: int, r: int, t: int, x: int, y: int, g: int) returns (z: int)
    requires a == t * b + r && x * b + y * r == g
    ensures y * a + z * b == g
  {
    Combination(t, b, r, x, y);
    z := x - y * t;
  }

  /** The greatest common divisor divides both numbers. */
  lemma {:induction false} GcdDivides(a: nat, b: nat) returns (p: nat, q: nat)
    requires a > 0 || b > 0
    ensures a == p * Gcd(a, b) && b == q * Gcd(a, b)
    decreases b
  {
    if b == 0 {
      p, q := 1, 0;
    } else {
      var r, t := a % b, a / b;
      var p1, q1 := GcdDivides(b, r);
      DivMod(a, b);
      var g := Gcd(b, r);
      assert Gcd(a, b) == g;
      hide Gcd;
      q := p1;
      p := DividesBoth(a, b, r, t, p1, q1, g);
    }
  }

  /** And it is a combination of them. */
  lemma {:induction false} GcdCombines(a: nat, b: nat) returns (x: int, y: int)
    requires a > 0 || b > 0
    ensures x * a + y * b == Gcd(a, b)
    decreases b
  {
    if b == 0 {
      x, y := 1, 0;
    } else {
      var r, t := a % b, a / b;
      var x1, y1 := GcdCombines(b, r);
      DivMod(a, b);
      var g := Gcd(b, r);
      assert Gcd(a, b) == g;
      hide Gcd;
      x := y1;
      y := CombinesBoth(a, b, r, t, x1, y1, g);
    }
  }

  function Abs(n: int): nat { if n < 0 then -n else n }

  /** The same number with numerator and denominator as small as they can be. */
  function Lowest(r: Rat): (s: Rat)
    requires r.den > 0
    ensures s.den > 0
  {
    var g := Gcd(r.den, Abs(r.num));
    assert r.den / g > 0 by {
      var p, q := GcdDivides(r.den, Abs(r.num));
      PositiveQuotient(r.den, p, g);
    }
    Rat(if r.num < 0 then -(Abs(r.num) / g) else Abs(r.num) / g, r.den / g)
  }

  lemma PositiveQuotient(d: nat, p: nat, g: nat)
    requires d > 0 && g > 0 && d == p * g
    ensures d / g == p > 0
  {
    if p == 0 {
      ZeroTimes(p, g);
    }
    QuotientIs(p, g);
  }

  lemma QuotientIs(p: nat, g: nat)
    requires g > 0
    ensures (p * g) / g == p
  {
    var d := p * g;
    Distributes(p, -(d / g), g);
    SmallMultiple(p - d / g, g, d % g);
  }

  lemma SmallMultiple(x: int, g: int, v: int)
    requires x * g == v && -g < v < g
    ensures x == 0
  {
  }

  function Value(r: Rat): real
    requires r.den > 0
  {
    r.num as real / r.den as real
  }

  /** Divisors of a terminating denominator terminate. */
  lemma DivisorTerminates(d: int, e: nat, c: nat)
    requires TerminatingDen(d) && e > 0 && d == e * c
    ensures TerminatingDen(e)
  {
    var i, j :| TwosFives(d, i, j);
    var f, s := Cofactor(d, i, j);
    Associates(e, c, f);
    var rest2, twos := Factors(e, 2);
    var rest, fives := Factors(rest2, 5);
    var k := Power(5, fives) * Power(2, twos);
    Associates(rest, Power(5, fives), Power(2, twos));
    Associates(rest, k, c * f);
    OddFactor(rest, Power(5, fives), rest2);
    NonNegative(c, f);
    NonNegative(k, c * f);
    NothingLeft(rest, k * (c * f), s);
    assert TwosFives(e, twos, fives) by {
      Associates(1, Power(5, fives), Power(2, twos));
    }
  }

  lemma {:induction false} Factors(d: nat, b: nat) returns (rest: nat, n: nat)
    requires d > 0 && b >= 2
    ensures d == rest * Power(b, n) && rest > 0 && rest % b != 0
    decreases d
  {
    if d % b == 0 {
      OneFactor(d, b, 1);
      var r, m := Factors(d / b, b);
      rest, n := r, m + 1;
      assert d == (d / b) * b;
      Associates(r, Power(b, m), b);
    } else {
      rest, n := d, 0;
    }
  }

  /** Reducing keeps the value and leaves a numerator and a denominator with nothing in common. */
  lemma LowestIs(r: Rat) returns (g: nat, x: int, y: int)
    requires r.den > 0
    ensures g > 0 && r.num == Lowest(r).num * g && r.den == Lowest(r).den * g
    ensures x * Lowest(r).den + y * Lowest(r).num == 1
  {
    hide Gcd;
    var n := Abs(r.num);
    g := Gcd(r.den, n);
    var p, q := GcdDivides(r.den, n);
    QuotientIs(p, g);
    QuotientIs(q, g);
    Associates(-1, q, g);
    var u, v := GcdCombines(r.den, n);
    OneLeft(u, p, v, q, g);
    x, y := u, if r.num < 0 then -v else v;
    Associates(v, -1, q);
  }

  lemma OneLeft(u: int, p: int, v: int, q: int, g: int)
    requires g > 0 && u * (p * g) + v * (q * g) == g
    ensures u * p + v * q == 1
  {
  }

  function Plus(a: Rat, b: Rat): (r: Rat)
    requires a.den > 0 && b.den > 0
    ensures r.den > 0
  {
    PositiveProduct(a.den, b.den);
    Lowest(Rat(a.num * b.den + b.num * a.den, a.den * b.den))
  }

  lemma PositiveProduct(a: int, b: int)
    requires a > 0 && b > 0
    ensures a * b > 0
  {
  }

  lemma ScaledValue(n: int, d: int, g: int)
    requires d > 0 && g > 0 && d * g > 0
    ensures (n * g) as real / (d * g) as real == n as real / d as real
  {
  }

  lemma AddedValue(a: int, b: int, c: int, d: int)
    requires b > 0 && d > 0 && b * d > 0
    ensures (a * d + c * b) as real / (b * d) as real == a as real / b as real + c as real / d as real
  {
  }

  /** Adding is exact, and amounts with terminating denominators have a sum with one. */
  lemma AddExact(a: Rat, b: Rat)
    requires a.den > 0 && b.den > 0
    ensures Value(Plus(a, b)) == Value(a) + Value(b)
    ensures TerminatingDen(a.den) && TerminatingDen(b.den) ==> TerminatingDen(Plus(a, b).den)
  {
    PositiveProduct(a.den, b.den);
    var r := Rat(a.num * b.den + b.num * a.den, a.den * b.den);
    AddedValue(a.num, a.den, b.num, b.den);
    var g, x, y := LowestIs(r);
    ScaledValue(Lowest(r).num, Lowest(r).den, g);
    if TerminatingDen(a.den) && TerminatingDen(b.den) {
      ProductTerminates(a.den, b.den);
      DivisorTerminates(r.den, Lowest(r).den, g);
    }
  }

  lemma ProductTerminates(d: int, e: int)
    requires TerminatingDen(d) && TerminatingDen(e)
    ensures TerminatingDen(d * e)
  {
    hide Power;
    var i: nat, j: nat :| TwosFives(d, i, j);
    var k: nat, l: nat :| TwosFives(e, k, l);
    PowerAdd(2, i, k);
    PowerAdd(5, j, l);
    Regroups(Power(2, i), Power(5, j), Power(2, k), Power(5, l));
    assert TwosFives(d * e, i + k, j + l);
  }

  function Sum(amounts: seq<Rat>): real
    requires forall r | r in amounts :: r.den > 0
  {
    if amounts == [] then 0.0 else Sum(amounts[..|amounts| - 1]) + Value(amounts[|amounts| - 1])
  }

  /** The text is a decimal number equal to x. */
  ghost predicate ReadsReal(text: string, x: real) {
    exists m: int, k: nat :: ReadsRealAs(text, x, m, k)
  }

  ghost predicate ReadsRealAs(text: string, x: real, m: int, k: nat) {
    Reads(text, m, k) && m as real / Power(10, k) as real == x
  }

  function Recorded(amounts: map<string, seq<Rat>>, c: string): seq<Rat> {
    if c in amounts then amounts[c] else []
  }

  ghost predicate AllTerminate(amounts: seq<Rat>) { forall r | r in amounts :: TerminatingDen(r.den) }

  ghost predicate CurrencyOk(amounts: seq<Rat>, total: Rat, count: nat) {
    && (forall r | r in amounts :: r.den > 0)
    && total.den > 0 && Value(total) == Sum(amounts) && count == |amounts|
    && (AllTerminate(amounts) ==> TerminatingDen(total.den))
  }

  lemma FirstAmount()
    ensures CurrencyOk([], Rat(0, 1), 0)
  {
    assert TwosFives(1, 0, 0);
  }

  lemma SumGrows(amounts: seq<Rat>, total: Rat, count: nat, amount: Rat)
    requires CurrencyOk(amounts, total, count) && amount.den > 0
    ensures total.den > 0 && CurrencyOk(amounts + [amount], Plus(total, amount), count + 1)
  {
    hide TerminatingDen;
    AddExact(total, amount);
    assert (amounts + [amount])[..|amounts|] == amounts;
    assert amount in amounts + [amount];
    assert AllTerminate(amounts + [amount]) ==> AllTerminate(amounts);
  }

  lemma ReadValue(m: int, k: nat, r: Rat)
    requires r.den > 0 && m * r.den == r.num * Power(10, k)
    ensures m as real / Power(10, k) as real == Value(r)
  {
  }

  /** The cost side of a usage summary. `amounts` is a history variable: what was added per currency. */
  class UsageAccumulator {
    var costs: map<string, Rat>
    var costCounts: map<string, nat>
    var costCoverage: nat
    var totalRuns: nat
    ghost var amounts: map<string, seq<Rat>>

    ghost predicate Valid()
      reads this
    {
      && costs.Keys == amounts.Keys && costCounts.Keys == amounts.Keys
      && costCoverage <= totalRuns
      && forall c | c in amounts :: CurrencyOk(amounts[c], costs[c], costCounts[c])
    }

    constructor ()
      ensures Valid() && amounts == map[]
    {
      costs, costCounts, costCoverage, totalRuns, amounts := map[], map[], 0, 0, map[];
    }

    /** Counts one run; `cost` is its parsed amount and normalised currency, when both are usable. */
    method Add(cost: Option<(Rat, string)>)
      requires Valid() && (cost.Some? ==> cost.value.0.den > 0)
      modifies this
      ensures Valid() && totalRuns == old(totalRuns) + 1
      ensures cost.None? ==> amounts == old(amounts) && costCoverage == old(costCoverage)
      ensures cost.Some? ==>
        && amounts == old(amounts)[cost.value.1 := Recorded(old(amounts), cost.value.1) + [cost.value.0]]
        && costCoverage == old(costCoverage) + 1
    {
      hide CurrencyOk, TerminatingDen, Plus;
      totalRuns := totalRuns + 1;
      if cost.Some? {
        var (amount, currency) := cost.value;
        FirstAmount();
        var total := if currency in costs then costs[currency] else Rat(0, 1);
        var count := if currency in costs then costCounts[currency] else 0;
        SumGrows(Recorded(amounts, currency), total, count, amount);
        costs := costs[currency := Plus(total, amount)];
        costCounts := costCounts[currency := count + 1];
        amounts := amounts[currency := Recorded(amounts, currency) + [amount]];
        costCoverage := costCoverage + 1;
      }
    }

    /** The amount of a currency in the summary: unless it is rounded it is exactly the sum of what
        was added, and it is never rounded when all amounts were decimal numbers. */
    method Amount(currency: string) returns (text: Option<string>, count: nat)
      requires Valid() && currency in costs
      ensures text.Some? ==> ReadsReal(text.value, Sum(amounts[currency]))
      ensures AllTerminate(amounts[currency]) ==> text.Some?
      ensures count == |amounts[currency]|
    {
      var total := costs[currency];
      assert CurrencyOk(amounts[currency], total, costCounts[currency]);
      text := DecimalString(total);
      count := costCounts[currency];
      if text.Some? {
        ghost var m: int, k: nat :| Exact(text.value, total, m, k);
        ReadValue(m, k, total);
        assert ReadsRealAs(text.value, Value(total), m, k);
      }
    }
  }
}
