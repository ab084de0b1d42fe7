/** Spreading a refund over the lines of an order, in whole pesos, with decimal arithmetic as the program does it. */
module Refunds {
  import opened Prelude

  /** Amounts have at most 14 digits. */
  const MAX_AMOUNT := 99_999_999_999_999

  /** Significant digits of the decimal context. */
  const PRECISION := 28

  function Sum(s: seq<nat>): nat {
    if s == [] then 0 else Sum(s[..|s| - 1]) + s[|s| - 1]
  }

  // ----- Decimal division

  function Pow10(e: nat): (p: nat)
    ensures p > 0
  {
    if e == 0 then 1 else 10 * Pow10(e - 1)
  }

  /** Fractional digits that fit beside the quotient's integer digits. */
  function Scale(n: nat, d: nat): (e: nat)
    requires n > 0 && d > 0
    decreases Pow10(PRECISION) * d - n
  {
    if 10 * n < Pow10(PRECISION) * d then 1 + Scale(10 * n, d) else 0
  }

  function RoundHalfEven(n: nat, d: nat): nat
    requires d > 0
  {
    var q, r := n / d, n % d;
    if 2 * r < d || (2 * r == d && q % 2 == 0) then q else q + 1
  }

  /** n / d to 28 significant digits, half even, then cut to an integer. */
  function DecimalQuotient(n: nat, d: nat): nat
    requires d > 0
  {
    if n == 0 then 0
    else
      var e := Scale(n, d);
      RoundHalfEven(n * Pow10(e), d) / Pow10(e)
  }

  lemma {:induction false} MulLess(a: nat, b: nat, c: nat)
    requires a < b && c > 0
    ensures a * c < b * c && a * c + c <= b * c
  {
    assert b * c == a * c + (b - a) * c;
    assert (b - a) * c >= c by { MulAtLeast(b - a, c); }
  }

  lemma {:induction false} MulAtLeast(k: nat, c: nat)
    requires k > 0
    ensures k * c >= c
  {
    if k > 1 {
      MulAtLeast(k - 1, c);
      assert k * c == (k - 1) * c + c;
    }
  }

  lemma {:induction false} MulMono(a: nat, b: nat, c: nat)
    requires a <= b
    ensures a * c <= b * c
  {
    if a < b && c > 0 {
      MulLess(a, b, c);
    }
  }

  lemma {:induction false} DivIs(n: nat, d: nat, q: nat, r: nat)
    requires d > 0 && r < d && n == q * d + r
    ensures n / d == q && n % d == r
  {
    var p := n / d;
    assert n == p * d + n % d;
    if p < q {
      MulLess(p, q, d);
    } else if q < p {
      MulLess(q, p, d);
    }
  }

  /** At least as many fractional digits as fit are kept. */
  lemma {:induction false} ScaleAtLeast(n: nat, d: nat, k: nat)
    requires n > 0 && d > 0 && n * Pow10(k) < Pow10(PRECISION) * d
    ensures Scale(n, d) >= k
    decreases k
  {
    hide Pow10;
    if k > 0 {
      var t := Pow10(k - 1);
      PowNext(k - 1);
      assert n * Pow10(k) == t * (10 * n);
      MulMono(1, t, 10 * n);
      ScaleAtLeast(10 * n, d, k - 1);
    }
  }

  lemma {:induction false} PowNext(e: nat)
    ensures Pow10(e + 1) == 10 * Pow10(e)
  {
  }

  lemma {:induction false} PowMono(a: nat, b: nat)
    requires a <= b
    ensures Pow10(a) <= Pow10(b)
    decreases b
  {
    if a < b {
      PowMono(a, b - 1);
    }
  }

  /** A proper fraction of p parts, rounded, stays below p as long as p exceeds the denominator. */
  lemma {:induction false} FractionStays(r: nat, p: nat, d: nat)
    requires r < d < p
    ensures RoundHalfEven(r * p, d) < p
  {
    var q, s := r * p / d, r * p % d;
    assert r * p == q * d + s;
    MulLess(r, d, p);
    assert d * p >= r * p + p;
    if q + 1 >= p {
      MulMono(p, q + 1, d);
    }
  }

  lemma {:induction false} Distribute(q: nat, d: nat, r: nat, p: nat)
    ensures (q * d + r) * p == (q * p) * d + r * p
  {
    assert (q * d + r) * p == q * d * p + r * p;
    assert q * d * p == (q * p) * d;
  }

  /** Adding an even whole number moves the rounded value by that number. */
  lemma {:induction false} RoundShift(m: nat, x: nat, d: nat)
    requires d > 0 && m % 2 == 0
    ensures RoundHalfEven(m * d + x, d) == m + RoundHalfEven(x, d)
  {
    var a, s := x / d, x % d;
    assert (m + a) * d == m * d + a * d;
    DivIs(m * d + x, d, m + a, s);
  }

  lemma {:induction false} RoundSplits(q: nat, p: nat, r: nat, d: nat)
    requires d > 0 && p % 2 == 0
    ensures RoundHalfEven((q * d + r) * p, d) == q * p + RoundHalfEven(r * p, d)
  {
    hide RoundHalfEven;
    Distribute(q, d, r, p);
    EvenTimes(q, p);
    RoundShift(q * p, r * p, d);
  }

  lemma {:induction false} EvenTimes(q: nat, p: nat)
    requires p % 2 == 0
    ensures (q * p) % 2 == 0
  {
    var h := p / 2;
    assert q * p == 2 * (q * h);
  }

  /**
   * Rounding to 28 digits and cutting gives the exact integer quotient for every
   * 14-digit denominator and every quotient below 10^14.
   */
  lemma {:induction false} DecimalIsFloor(n: nat, d: nat)
    requires 0 < d <= MAX_AMOUNT && n < Pow10(14) * d
    ensures DecimalQuotient(n, d) == n / d
  {
    hide Pow10, Scale, RoundHalfEven;
    if n > 0 {
      KeptDigits(n, d);
      hide DecimalQuotient;
      QuotientSurvives(n, d, Pow10(Scale(n, d)));
      QuotientIs(n, d);
    }
  }

  lemma {:induction false} QuotientIs(n: nat, d: nat)
    requires n > 0 && d > 0
    ensures DecimalQuotient(n, d) == RoundHalfEven(n * Pow10(Scale(n, d)), d) / Pow10(Scale(n, d))
  {
    hide Pow10, Scale, RoundHalfEven;
  }

  lemma {:induction false} KeptDigits(n: nat, d: nat)
    requires 0 < n && 0 < d <= MAX_AMOUNT && n < Pow10(14) * d
    ensures d < Pow10(Scale(n, d)) && Pow10(Scale(n, d)) % 2 == 0
  {
    Pow28();
    hide Pow10, Scale;
    var t := Pow10(14);
    MulLess(n, t * d, t);
    assert t * d * t == t * t * d;
    ScaleAtLeast(n, d, 14);
    PowMono(14, Scale(n, d));
    EvenPow(Scale(n, d));
  }

  /** Rounding with p parts to the unit does not carry into the next integer when p exceeds the denominator. */
  lemma {:induction false} QuotientSurvives(n: nat, d: nat, p: nat)
    requires 0 < d < p && p % 2 == 0
    ensures RoundHalfEven(n * p, d) / p == n / d
  {
    hide RoundHalfEven;
    var q, r := n / d, n % d;
    assert n == q * d + r;
    RoundSplits(q, p, r, d);
    FractionStays(r, p, d);
    DivIs(RoundHalfEven(n * p, d), p, q, RoundHalfEven(r * p, d));
  }

  lemma {:induction false} Pow28()
    ensures Pow10(14) == 100_000_000_000_000 && Pow10(PRECISION) == Pow10(14) * Pow10(14)
  {
    PowSplit(14, 14);
    assert Pow10(14) == 100_000_000_000_000 by {
      assert Pow10(7) == 10_000_000;
      PowSplit(7, 7);
    }
  }

  lemma {:induction false} PowSplit(a: nat, b: nat)
    ensures Pow10(a + b) == Pow10(a) * Pow10(b)
    decreases b
  {
    if b > 0 {
      PowSplit(a, b - 1);
      assert Pow10(a + b) == 10 * (Pow10(a) * Pow10(b - 1));
    }
  }

  lemma {:induction false} EvenPow(e: nat)
    requires e > 0
    ensures Pow10(e) % 2 == 0
  {
    var h := 5 * Pow10(e - 1);
    assert Pow10(e) == 2 * h;
  }

  /** A whole number of more than 28 digits is rounded to 28. */
  function Excess(n: nat): nat {
    if n < Pow10(PRECISION) then 0 else 1 + Excess(n / 10)
  }

  function RoundWhole(n: nat): nat {
    RoundHalfEven(n, Pow10(Excess(n))) * Pow10(Excess(n))
  }

  /** One line's share before it is capped: the decimal product, quotient and cut. */
  function DecimalShare(refunded: nat, gross: nat, total: nat): nat
    requires total > 0
  {
    DecimalQuotient(RoundWhole(refunded * gross), total)
  }

  lemma {:induction false} ProductExact(refunded: nat, gross: nat)
    requires refunded <= MAX_AMOUNT && gross <= MAX_AMOUNT
    ensures RoundWhole(refunded * gross) == refunded * gross
  {
    Pow28();
    MulMono(refunded, MAX_AMOUNT, gross);
    MulMono(gross, MAX_AMOUNT, MAX_AMOUNT);
    var n := refunded * gross;
    assert gross * MAX_AMOUNT == MAX_AMOUNT * gross;
    assert n < Pow10(PRECISION);
    hide Pow10;
    assert Excess(n) == 0;
    assert Pow10(0) == 1 by { PowZero(); }
    assert n / 1 == n && n % 1 == 0;
  }

  lemma {:induction false} PowZero()
    ensures Pow10(0) == 1
  {
  }

  lemma {:induction false} ShareBelow(refunded: nat, gross: nat, total: nat)
    requires 0 < total <= MAX_AMOUNT && refunded <= total && gross <= MAX_AMOUNT
    ensures DecimalShare(refunded, gross, total) == Floor(refunded, gross, total)
  {
    ProductExact(refunded, gross);
    Pow28();
    hide Pow10, DecimalQuotient, RoundWhole;
    MulMono(refunded, total, gross);
    MulMono(gross, MAX_AMOUNT, total);
    assert gross * total == total * gross;
    MulLess(MAX_AMOUNT, Pow10(14), total);
    DecimalIsFloor(refunded * gross, total);
  }

  /** A quotient of at least g is not rounded below g. */
  lemma {:induction false} QuotientAtLeast(n: nat, d: nat, g: nat)
    requires d > 0 && g * d <= n
    ensures DecimalQuotient(n, d) >= g
  {
    hide Pow10, Scale, RoundHalfEven, DecimalQuotient;
    if n == 0 {
      assert g == 0 by { if g > 0 { MulAtLeast(g, d); } }
    } else {
      var p := Pow10(Scale(n, d));
      QuotientIs(n, d);
      MulMono(g * d, n, p);
      assert g * d * p == g * p * d;
      DivAtLeast(n * p, d, g * p);
      RoundAtLeast(n * p, d);
      DivAtLeast(RoundHalfEven(n * p, d), p, g);
    }
  }

  lemma {:induction false} DivAtLeast(n: nat, d: nat, q: nat)
    requires d > 0 && q * d <= n
    ensures n / d >= q
  {
    if n / d < q {
      MulLess(n / d, q, d);
    }
  }

  lemma {:induction false} RoundAtLeast(n: nat, d: nat)
    requires d > 0
    ensures RoundHalfEven(n, d) >= n / d
  {
  }

  lemma {:induction false} ShareAbove(refunded: nat, gross: nat, total: nat)
    requires 0 < total <= refunded <= MAX_AMOUNT && gross <= MAX_AMOUNT
    ensures DecimalShare(refunded, gross, total) >= gross
  {
    ProductExact(refunded, gross);
    MulMono(total, refunded, gross);
    assert gross * total == total * gross;
    hide DecimalQuotient, RoundWhole;
    QuotientAtLeast(refunded * gross, total, gross);
  }

  // ----- The allocation

  /** One line's exact share, in whole pesos. */
  function Floor(refunded: nat, gross: nat, total: nat): nat
    requires total > 0
  {
    refunded * gross / total
  }

  function Floors(refunded: nat, gross: seq<nat>, total: nat): (f: seq<nat>)
    requires total > 0
    ensures |f| == |gross|
    ensures forall i :: 0 <= i < |gross| ==> f[i] == Floor(refunded, gross[i], total)
  {
    seq(|gross|, i requires 0 <= i < |gross| => Floor(refunded, gross[i], total))
  }

  function Zeros(n: nat): (z: seq<nat>)
    ensures |z| == n && forall i :: 0 <= i < n ==> z[i] == 0
  {
    seq(n, i => 0)
  }

  lemma {:induction false} SumPrefix(s: seq<nat>, i: nat)
    requires i < |s|
    ensures Sum(s[..i + 1]) == Sum(s[..i]) + s[i]
    ensures Sum(s[..i + 1]) <= Sum(s)
    decreases |s|
  {
    assert s[..i + 1][..i] == s[..i];
    if i + 1 < |s| {
      SumPrefix(s[..|s| - 1], i);
      assert s[..|s| - 1][..i + 1] == s[..i + 1] && s[..|s| - 1][..i] == s[..i];
    } else {
      assert s[..i + 1] == s;
    }
  }

  lemma {:induction false} SumMember(s: seq<nat>, i: nat)
    requires i < |s|
    ensures s[i] <= Sum(s)
  {
    SumPrefix(s, i);
  }

  lemma {:induction false} NextFair(total: nat, floors: nat, refunded: nat, sum: nat, g: nat, n: nat)
    requires total > 0
    requires total * floors <= refunded * sum <= total * floors + n * (total - 1)
    ensures total * (floors + Floor(refunded, g, total)) <= refunded * (sum + g)
    ensures refunded * (sum + g) <= total * (floors + Floor(refunded, g, total)) + (n + 1) * (total - 1)
  {
    var x := refunded * g;
    var q, r := x / total, x % total;
    assert x == total * q + r;
    assert total * (floors + q) == total * floors + total * q;
    assert refunded * (sum + g) == refunded * sum + x;
    assert (n + 1) * (total - 1) == n * (total - 1) + (total - 1);
  }

  /** The floors of any lines stay below their fair part of the refund, by less than one peso a line. */
  lemma {:induction false} FloorsFair(refunded: nat, gross: seq<nat>, total: nat)
    requires total > 0
    ensures total * Sum(Floors(refunded, gross, total)) <= refunded * Sum(gross)
    ensures refunded * Sum(gross) <= total * Sum(Floors(refunded, gross, total)) + |gross| * (total - 1)
  {
    var f := Floors(refunded, gross, total);
    if gross == [] {
      assert f == [];
    } else {
      var n := |gross| - 1;
      FloorsFair(refunded, gross[..n], total);
      assert f[..n] == Floors(refunded, gross[..n], total);
      hide Floors, Floor;
      NextFair(total, Sum(f[..n]), refunded, Sum(gross[..n]), gross[n], n);
    }
  }

  lemma {:induction false} MulCancel(a: nat, b: nat, c: nat)
    requires c > 0 && c * a <= c * b
    ensures a <= b
  {
    if a > b {
      MulLess(b, a, c);
    }
  }

  lemma {:induction false} FloorBelowGross(refunded: nat, g: nat, total: nat)
    requires 0 < total && refunded <= total
    ensures Floor(refunded, g, total) <= g
  {
    var q := Floor(refunded, g, total);
    assert total * q <= refunded * g;
    MulMono(refunded, total, g);
    MulCancel(q, g, total);
  }

  lemma {:induction false} FairWithin(total: nat, floors: nat, refunded: nat, sum: nat)
    requires 0 < total && sum <= total && total * floors <= refunded * sum
    ensures floors <= refunded
  {
    MulMono(sum, total, refunded);
    MulCancel(floors, refunded, total);
  }

  lemma {:induction false} FloorsMore(refunded: nat, gross: seq<nat>, i: nat, total: nat)
    requires i < |gross| && total > 0
    ensures Floors(refunded, gross[..i + 1], total) == Floors(refunded, gross[..i], total) + [Floor(refunded, gross[i], total)]
    ensures Sum(Floors(refunded, gross[..i + 1], total)) == Sum(Floors(refunded, gross[..i], total)) + Floor(refunded, gross[i], total)
  {
    hide Floor;
    var f := Floors(refunded, gross[..i + 1], total);
    assert f[..i] == Floors(refunded, gross[..i], total);
    assert f == f[..i] + [f[i]];
  }

  /** After the floors of the first i lines, the next line's floor is still there. */
  lemma {:induction false} StillEnough(refunded: nat, gross: seq<nat>, i: nat)
    requires i < |gross| && 0 < Sum(gross)
    ensures Sum(Floors(refunded, gross[..i], Sum(gross))) + Floor(refunded, gross[i], Sum(gross)) <= refunded
  {
    hide Floor, Floors, Sum;
    var total := Sum(gross);
    FloorsFair(refunded, gross[..i + 1], total);
    SumPrefix(gross, i);
    FairWithin(total, Sum(Floors(refunded, gross[..i + 1], total)), refunded, Sum(gross[..i + 1]));
    FloorsMore(refunded, gross, i, total);
  }

  /** What is left for the last line when the others got their exact floors. */
  function LeftForLast(refunded: nat, gross: seq<nat>): nat
    requires gross != [] && refunded < Sum(gross)
  {
    hide Floor, Floors, Sum;
    StillEnough(refunded, gross, |gross| - 1);
    refunded - Sum(Floors(refunded, gross[..|gross| - 1], Sum(gross)))
  }

  /** The allocation in exact integer arithmetic. */
  function Allocation(refunded: int, gross: seq<nat>): (shares: seq<nat>)
    ensures |shares| == |gross|
  {
    if refunded <= 0 || gross == [] || Sum(gross) == 0 then Zeros(|gross|)
    else if refunded >= Sum(gross) then gross
    else
      Floors(refunded, gross[..|gross| - 1], Sum(gross))
      + [Min(LeftForLast(refunded, gross), gross[|gross| - 1])]
  }

  /** The allocation loop, with its decimal shares and its caps, computes exactly that. */
  method Allocate(refunded: int, gross: seq<nat>) returns (shares: seq<nat>)
    requires refunded <= MAX_AMOUNT && Sum(gross) <= MAX_AMOUNT
    ensures shares == Allocation(refunded, gross)
  {
    hide Pow10, DecimalShare, Floors;
    if refunded <= 0 || gross == [] {
      return Zeros(|gross|);
    }
    var total := 0;
    for i := 0 to |gross|
      invariant total == Sum(gross[..i])
    {
      SumPrefix(gross, i);
      total := total + gross[i];
    }
    assert gross[..|gross|] == gross;
    if total == 0 {
      return Zeros(|gross|);
    }
    var remaining := Min(refunded, total);
    var last := |gross| - 1;
    shares := [];
    hide Sum;
    NothingAllotted(refunded, gross);
    for i := 0 to last
      invariant Allotted(refunded, gross, i, shares, remaining)
    {
      NextShare(refunded, gross, i, shares, remaining);
      var allocation := DecimalShare(refunded, gross[i], total);
      allocation := Min(Min(allocation, gross[i]), remaining);
      shares := shares + [allocation];
      remaining := remaining - allocation;
    }
    LastShare(refunded, gross, shares, remaining);
    shares := shares + [Min(remaining, gross[last])];
  }

  /** After the first i lines: exact floors, or everything, and the rest still to give. */
  ghost predicate Allotted(refunded: nat, gross: seq<nat>, i: nat, shares: seq<nat>, remaining: int) {
    && 0 < Sum(gross) && i <= |gross|
    && remaining == Min(refunded, Sum(gross)) - Sum(shares) >= 0
    && (refunded < Sum(gross) ==> shares == Floors(refunded, gross[..i], Sum(gross)))
    && (refunded >= Sum(gross) ==> shares == gross[..i])
  }

  lemma {:induction false} NothingAllotted(refunded: nat, gross: seq<nat>)
    requires Sum(gross) > 0
    ensures Allotted(refunded, gross, 0, [], Min(refunded, Sum(gross)))
  {
    hide Floor;
    assert Sum([]) == 0;
    NoFloors(refunded, Sum(gross));
    assert gross[..0] == [];
  }

  lemma {:induction false} LastShare(refunded: nat, gross: seq<nat>, shares: seq<nat>, remaining: nat)
    requires gross != [] && refunded > 0 && Allotted(refunded, gross, |gross| - 1, shares, remaining)
    ensures shares + [Min(remaining, gross[|gross| - 1])] == Allocation(refunded, gross)
  {
    hide Sum, Floors, Floor;
    var last := |gross| - 1;
    SumPrefix(gross, last);
    assert gross[..last + 1] == gross && gross[..last] + [gross[last]] == gross;
  }

  lemma {:induction false} NoFloors(refunded: nat, total: nat)
    requires total > 0
    ensures Floors(refunded, [], total) == []
  {
  }

  /** The caps never bind before the last line: the next share is the floor, or everything. */
  lemma {:induction false} NextShare(refunded: nat, gross: seq<nat>, i: nat, shares: seq<nat>, remaining: nat)
    requires i < |gross| - 1 && 0 < Sum(gross) <= MAX_AMOUNT && refunded <= MAX_AMOUNT
    requires Allotted(refunded, gross, i, shares, remaining)
    ensures var share := Min(Min(DecimalShare(refunded, gross[i], Sum(gross)), gross[i]), remaining);
            && share >= 0
            && Allotted(refunded, gross, i + 1, shares + [share], remaining - share)
  {
    hide Floor, Floors, DecimalShare, Sum;
    var total := Sum(gross);
    SumMember(gross, i);
    SumPrefix(gross, i);
    var share := Min(Min(DecimalShare(refunded, gross[i], total), gross[i]), remaining);
    if refunded < total {
      StillEnough(refunded, gross, i);
      ShareBelow(refunded, gross[i], total);
      FloorBelowGross(refunded, gross[i], total);
      FloorsMore(refunded, gross, i, total);
      assert share == Floor(refunded, gross[i], total);
    } else {
      ShareAbove(refunded, gross[i], total);
      assert gross[..i + 1] == shares + [gross[i]];
      assert share == gross[i];
    }
    SumAppend(shares, share);
  }

  // ----- What the shares promise

  lemma {:induction false} SumAppend(s: seq<nat>, x: nat)
    ensures Sum(s + [x]) == Sum(s) + x
  {
    assert (s + [x])[..|s|] == s;
  }

  lemma {:induction false} SumZeros(n: nat)
    ensures Sum(Zeros(n)) == 0
  {
    if n > 0 {
      SumZeros(n - 1);
      assert Zeros(n)[..n - 1] == Zeros(n - 1);
    }
  }

  /** The amount there is to spread. */
  function Spread(refunded: int, gross: seq<nat>): nat {
    Min(Max(refunded, 0), Sum(gross))
  }

  lemma {:induction false} EachWithinGross(refunded: int, gross: seq<nat>, i: nat)
    requires i < |gross|
    ensures 0 <= Allocation(refunded, gross)[i] <= gross[i]
  {
    hide Floor;
    if 0 < refunded < Sum(gross) && i < |gross| - 1 {
      FloorBelowGross(refunded, gross[i], Sum(gross));
    }
  }

  /** Every line but the last gets its exact share rounded down; the last gets what is left, up to its price. */
  lemma {:induction false} ShareOfEach(refunded: int, gross: seq<nat>, i: nat)
    requires 0 < refunded < Sum(gross) && i < |gross|
    ensures var shares, total := Allocation(refunded, gross), Sum(gross);
            if i < |gross| - 1 then total * shares[i] <= refunded * gross[i] < total * shares[i] + total
            else shares[i] == Min(refunded - Sum(shares[..i]), gross[i])
  {
    var n := |gross| - 1;
    var total := Sum(gross);
    if i < n {
      var x := refunded * gross[i];
      assert x == total * (x / total) + x % total;
    } else {
      assert Allocation(refunded, gross)[..n] == Floors(refunded, gross[..n], total);
    }
    hide Floor, Sum;
  }

  /** The total of the shares is what is spread, or what the floors and the last line's price can take of it. */
  lemma {:induction false} SharesTotal(refunded: int, gross: seq<nat>)
    ensures Sum(Allocation(refunded, gross)) ==
            if 0 < refunded < Sum(gross)
            then refunded - LeftForLast(refunded, gross) + Min(LeftForLast(refunded, gross), gross[|gross| - 1])
            else Spread(refunded, gross)
  {
    hide Floor;
    SumZeros(|gross|);
    if 0 < refunded < Sum(gross) {
      SumAppend(Floors(refunded, gross[..|gross| - 1], Sum(gross)), Min(LeftForLast(refunded, gross), gross[|gross| - 1]));
    }
  }

  /** The shares add up to the refund exactly when the last line can take what the others' floors leave. */
  lemma {:induction false} FullySpreadWhen(refunded: int, gross: seq<nat>)
    ensures Sum(Allocation(refunded, gross)) <= Spread(refunded, gross)
    ensures Sum(Allocation(refunded, gross)) == Spread(refunded, gross) <==>
            (0 < refunded < Sum(gross) ==> LeftForLast(refunded, gross) <= gross[|gross| - 1])
  {
    SharesTotal(refunded, gross);
    hide LeftForLast, Allocation;
  }

  lemma {:induction false} RestArithmetic(total: nat, floors: nat, refunded: nat, sum: nat, last: nat, n: nat, shortfall: nat)
    requires total > 0 && sum + last == total && refunded < total
    requires refunded * sum <= total * floors + n * (total - 1)
    requires shortfall + floors + last == refunded
    ensures total * shortfall <= n * (total - 1)
  {
    assert total * shortfall + total * floors + total * last == total * refunded;
    assert total * refunded == refunded * sum + refunded * last;
    MulMono(refunded, total, last);
  }

  lemma {:induction false} LessThanLines(total: nat, shortfall: nat, n: nat)
    requires total > 0 && n > 0 && total * shortfall <= n * (total - 1)
    ensures shortfall < n
  {
    if shortfall >= n {
      MulMono(n, shortfall, total);
    }
  }

  /** The shares of n lines fall short of the refund by at most n - 2 pesos, and by nothing for one or two lines. */
  lemma {:induction false} ShortfallBound(refunded: int, gross: seq<nat>)
    ensures Spread(refunded, gross) - Sum(Allocation(refunded, gross)) <= Max(0, |gross| - 2)
  {
    SharesTotal(refunded, gross);
    if 0 < refunded < Sum(gross) {
      var n := |gross| - 1;
      var total := Sum(gross);
      var left := LeftForLast(refunded, gross);
      FloorsFair(refunded, gross[..n], total);
      assert gross[..n + 1] == gross;
      SumPrefix(gross, n);
      if left > gross[n] {
        var floors := Sum(Floors(refunded, gross[..n], total));
        assert left == refunded - floors;
        hide Floor, Floors, LeftForLast, Allocation;
        RestArithmetic(total, floors, refunded, Sum(gross[..n]), gross[n], n, left - gross[n]);
        NotAlone(n, total, left - gross[n]);
        LessThanLines(total, left - gross[n], n);
      }
    }
  }

  lemma {:induction false} NotAlone(n: nat, total: nat, shortfall: nat)
    requires total > 0 && shortfall > 0 && total * shortfall <= n * (total - 1)
    ensures n > 0
  {
    MulAtLeast(shortfall, total);
  }

  /** A refund of everything gives every line its whole price back. */
  lemma {:induction false} FullRefundClearsLines(refunded: int, gross: seq<nat>, i: nat)
    requires refunded >= Sum(gross) && i < |gross|
    ensures Allocation(refunded, gross)[i] == gross[i]
  {
    SumMember(gross, i);
  }

  lemma {:induction false} SmallSums(a: nat, b: nat, c: nat)
    ensures Sum([a, b]) == a + b && Sum([a, b, c]) == a + b + c
  {
    hide Sum;
    SumOne(a);
    SumAppend([a], b);
    SumAppend([a, b], c);
    assert [a] + [b] == [a, b] && [a, b] + [c] == [a, b, c];
  }

  lemma {:induction false} SumOne(a: nat)
    ensures Sum([a]) == a
  {
  }

  lemma {:induction false} SmallFloors()
    ensures Floors(2, [1, 1, 1][..2], 3) == [0, 0]
  {
    assert Floor(2, 1, 3) == 0;
  }

  /** Three lines of one peso and a refund of two: the cut shares lose a peso. */
  lemma {:induction false} SharesCanFallShort()
    ensures Allocation(2, [1, 1, 1]) == [0, 0, 1]
    ensures Sum(Allocation(2, [1, 1, 1])) == 1 < Spread(2, [1, 1, 1]) == 2
  {
    hide Sum, Floors, Floor;
    SmallSums(1, 1, 1);
    SmallSums(0, 0, 1);
    SmallFloors();
  }
}
