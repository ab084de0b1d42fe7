/** Chilean tax ids: a body of digits and a modulo-11 check character. */
module Rut {
  import opened Text

  predicate IsDigit(c: char) {
    '0' <= c <= '9'
  }

  // ----- Check character

  /** The weight of the digit at a distance from the right end: 2, 3, 4, 5, 6, 7 and again. */
  function Weight(distance: nat): (w: nat)
    ensures 2 <= w <= 7
  {
    2 + distance % 6
  }

  /** The weighted sum when the body stands `distance` digits from the right end. */
  function Weighted(body: string, distance: nat): nat
    requires AllDigits(body)
  {
    if body == "" then 0
    else
      var last := |body| - 1;
      Weighted(body[..last], distance + 1) + DigitValue(body[last]) * Weight(distance)
  }

  function CheckCharacter(total: nat): char {
    var remainder := 11 - total % 11;
    if remainder == 11 then '0' else if remainder == 10 then 'K' else Digit(remainder)
  }

  function CheckDigit(body: string): char
    requires AllDigits(body)
  {
    CheckCharacter(Weighted(body, 0))
  }

  /** The loop over the reversed body. */
  method RutCheckDigit(body: string) returns (check: char)
    requires AllDigits(body)
    ensures check == CheckDigit(body)
  {
    hide Weighted;
    var total, factor := 0, 2;
    var i := |body|;
    assert body[..i] == body;
    while i > 0
      invariant 0 <= i <= |body|
      invariant factor == Weight(|body| - i)
      invariant total + Weighted(body[..i], |body| - i) == Weighted(body, 0)
    {
      i := i - 1;
      WeightedLast(body, i);
      total := total + DigitValue(body[i]) * factor;
      factor := if factor == 7 then 2 else factor + 1;
    }
    NothingWeighted(body);
    var remainder := 11 - total % 11;
    if remainder == 11 {
      return '0';
    }
    if remainder == 10 {
      return 'K';
    }
    return Digit(remainder);
  }

  lemma {:induction false} WeightedLast(body: string, i: nat)
    requires AllDigits(body) && i < |body|
    ensures Weighted(body[..i + 1], |body| - i - 1) ==
            Weighted(body[..i], |body| - i) + DigitValue(body[i]) * Weight(|body| - i - 1)
  {
    assert body[..i + 1][..i] == body[..i];
  }

  lemma {:induction false} NothingWeighted(body: string)
    requires AllDigits(body)
    ensures Weighted(body[..0], |body|) == 0
  {
  }

  /** What a check character stands for. */
  function CheckValue(c: char): (v: int)
    requires IsDigit(c) || c == 'K'
  {
    if c == 'K' then 10 else DigitValue(c)
  }

  /** The defining property: with its check character added in, the weighted sum is a multiple of 11; no other character does that. */
  lemma {:induction false} CheckClosesSum(body: string, c: char)
    requires AllDigits(body) && (IsDigit(c) || c == 'K')
    ensures IsDigit(CheckDigit(body)) || CheckDigit(body) == 'K'
    ensures (Weighted(body, 0) + CheckValue(c)) % 11 == 0 <==> c == CheckDigit(body)
  {
    var total := Weighted(body, 0);
    var remainder := 11 - total % 11;
    hide Weighted;
    if remainder < 10 {
      assert DigitValue(Digit(remainder)) == remainder;
    }
    assert total == 11 * (total / 11) + total % 11;
    var value := CheckValue(c);
    assert (total + value) % 11 == (total % 11 + value) % 11;
    DigitOf(c, CheckDigit(body));
  }

  lemma {:induction false} DigitOf(a: char, b: char)
    ensures IsDigit(a) && IsDigit(b) && DigitValue(a) == DigitValue(b) ==> a == b
    ensures IsDigit(a) ==> 0 <= DigitValue(a) <= 9
  {
  }

  /** Different remainders have different characters. */
  lemma {:induction false} CharacterIsRemainder(a: nat, b: nat)
    ensures CheckCharacter(a) == CheckCharacter(b) <==> a % 11 == b % 11
  {
    var r, s := 11 - a % 11, 11 - b % 11;
    if r < 10 {
      assert DigitValue(Digit(r)) == r;
    }
    if s < 10 {
      assert DigitValue(Digit(s)) == s;
    }
  }

  /** The sum splits where the body splits. */
  lemma {:induction false} WeightedSplits(a: string, b: string, distance: nat)
    requires AllDigits(a + b) && AllDigits(a) && AllDigits(b)
    ensures Weighted(a + b, distance) == Weighted(a, distance + |b|) + Weighted(b, distance)
  {
    if b == "" {
      assert a + b == a;
    } else {
      var init := b[..|b| - 1];
      assert (a + b)[..|a + b| - 1] == a + init;
      WeightedSplits(a, init, distance + 1);
    }
  }

  lemma {:induction false} WeightedOne(c: char, distance: nat)
    requires IsDigit(c)
    ensures Weighted([c], distance) == DigitValue(c) * Weight(distance)
  {
    assert [c][..0] == "";
  }

  /** A difference of two digits times a number that 11 does not divide is not a multiple of 11. */
  lemma {:induction false} NotMultiple(d: int, w: int, m: int)
    requires -9 <= d <= 9 && d != 0 && (1 <= w <= 7 || -7 <= w <= -1)
    ensures d * w != 11 * m
  {
    if w < 0 {
      assert d * w == -d * -w;
      SmallNotMultiple(-d, -w, m);
    } else {
      SmallNotMultiple(d, w, m);
    }
  }

  lemma {:induction false} SmallNotMultiple(d: int, w: int, m: int)
    requires -9 <= d <= 9 && d != 0 && 1 <= w <= 7
    ensures d * w != 11 * m
  {
    assert w == 1 || w == 2 || w == 3 || w == 4 || w == 5 || w == 6 || w == 7;
  }

  lemma {:induction false} RemaindersDiffer(base: int, a: int, b: int, d: int, w: int)
    requires a - b == d * w
    requires -9 <= d <= 9 && d != 0 && (1 <= w <= 7 || -7 <= w <= -1)
    ensures (base + a) % 11 != (base + b) % 11
  {
    if (base + a) % 11 == (base + b) % 11 {
      var m := (base + a) / 11 - (base + b) / 11;
      assert a - b == 11 * m;
      NotMultiple(d, w, m);
    }
  }

  lemma {:induction false} OneWeighted(head: string, a: char, tail: string)
    requires AllDigits(head) && AllDigits(tail) && IsDigit(a)
    ensures AllDigits(head + [a] + tail)
    ensures Weighted(head + [a] + tail, 0) ==
            Weighted(head, |tail| + 1) + Weighted(tail, 0) + DigitValue(a) * Weight(|tail|)
  {
    WeightedSplits(head + [a], tail, 0);
    WeightedSplits(head, [a], |tail|);
    WeightedOne(a, |tail|);
  }

  /** Each digit counts with the weight of its place: 2 for the last, then up to 7 and again from 2. */
  lemma {:induction false} PlaceWeight(head: string, c: char, tail: string)
    requires AllDigits(head) && AllDigits(tail) && IsDigit(c)
    ensures AllDigits(head + [c] + tail) && AllDigits(head + ['0'] + tail)
    ensures Weighted(head + [c] + tail, 0) ==
            Weighted(head + ['0'] + tail, 0) + DigitValue(c) * [2, 3, 4, 5, 6, 7][|tail| % 6]
  {
    OneWeighted(head, c, tail);
    OneWeighted(head, '0', tail);
    assert Weight(|tail|) == [2, 3, 4, 5, 6, 7][|tail| % 6];
    assert DigitValue('0') * Weight(|tail|) == 0;
    hide Weighted;
  }

  lemma {:induction false} Factor(x: int, y: int, v: int, w: int)
    ensures x * w - y * w == (x - y) * w
    ensures x * v + y * w - (y * v + x * w) == (x - y) * (v - w)
  {
  }

  lemma {:induction false} WeightStep(n: nat)
    ensures Weight(n + 1) - Weight(n) == 1 || Weight(n + 1) - Weight(n) == -5
  {
  }

  /** Changing one digit of a body of any length changes its check character. */
  lemma {:induction false} OneDigitChanged(head: string, a: char, b: char, tail: string)
    requires AllDigits(head) && AllDigits(tail) && IsDigit(a) && IsDigit(b) && a != b
    ensures AllDigits(head + [a] + tail) && AllDigits(head + [b] + tail)
    ensures CheckDigit(head + [a] + tail) != CheckDigit(head + [b] + tail)
  {
    hide Weighted, CheckCharacter, Weight;
    OneWeighted(head, a, tail);
    OneWeighted(head, b, tail);
    var x: int, y: int, w: int := DigitValue(a), DigitValue(b), Weight(|tail|);
    Factor(x, y, 0, w);
    RemaindersDiffer(Weighted(head, |tail| + 1) + Weighted(tail, 0), x * w, y * w, x - y, w);
    CharacterIsRemainder(Weighted(head + [a] + tail, 0), Weighted(head + [b] + tail, 0));
  }

  lemma {:induction false} PairDiffers(base: nat, a: char, b: char, n: nat)
    requires IsDigit(a) && IsDigit(b) && a != b
    ensures (base + (DigitValue(a) * Weight(n + 1) + DigitValue(b) * Weight(n))) % 11
            != (base + (DigitValue(b) * Weight(n + 1) + DigitValue(a) * Weight(n))) % 11
  {
    WeightStep(n);
    hide Weight;
    PairArithmetic(base, DigitValue(a), DigitValue(b), Weight(n + 1), Weight(n));
  }

  lemma {:induction false} PairArithmetic(base: int, x: int, y: int, v: int, w: int)
    requires 0 <= x <= 9 && 0 <= y <= 9 && x != y && (v - w == 1 || v - w == -5)
    ensures (base + (x * v + y * w)) % 11 != (base + (y * v + x * w)) % 11
  {
    Factor(x, y, v, w);
    RemaindersDiffer(base, x * v + y * w, y * v + x * w, x - y, v - w);
  }

  /** Swapping two different neighbouring digits changes it too. */
  lemma {:induction false} NeighboursSwapped(head: string, a: char, b: char, tail: string)
    requires AllDigits(head) && AllDigits(tail) && IsDigit(a) && IsDigit(b) && a != b
    ensures AllDigits(head + [a, b] + tail) && AllDigits(head + [b, a] + tail)
    ensures CheckDigit(head + [a, b] + tail) != CheckDigit(head + [b, a] + tail)
  {
    hide Weighted, CheckCharacter, Weight;
    PairWeighted(head, a, b, tail);
    PairWeighted(head, b, a, tail);
    PairDiffers(Weighted(head, |tail| + 2) + Weighted(tail, 0), a, b, |tail|);
    CharacterIsRemainder(Weighted(head + [a, b] + tail, 0), Weighted(head + [b, a] + tail, 0));
  }

  lemma {:induction false} PairWeighted(head: string, a: char, b: char, tail: string)
    requires AllDigits(head) && AllDigits(tail) && IsDigit(a) && IsDigit(b)
    ensures AllDigits(head + [a, b] + tail)
    ensures Weighted(head + [a, b] + tail, 0) ==
            Weighted(head, |tail| + 2) + Weighted(tail, 0)
            + (DigitValue(a) * Weight(|tail| + 1) + DigitValue(b) * Weight(|tail|))
  {
    var n := |tail|;
    WeightedSplits(head + [a, b], tail, 0);
    WeightedSplits(head, [a, b], n);
    assert [a] + [b] == [a, b];
    WeightedSplits([a], [b], n);
    WeightedOne(a, n + 1);
    WeightedOne(b, n);
  }

  // ----- Normal form

  /** What normalisation makes of one character. */
  function Kept(c: char): string {
    if IsDigit(c) then [c] else if c == 'k' || c == 'K' then "K" else ""
  }

  function Normalize(s: string): (r: string)
    ensures forall i :: 0 <= i < |r| ==> IsDigit(r[i]) || r[i] == 'K'
  {
    if s == "" then "" else Normalize(s[..|s| - 1]) + Kept(s[|s| - 1])
  }

  lemma {:induction false} NormalizeJoins(a: string, b: string)
    ensures Normalize(a + b) == Normalize(a) + Normalize(b)
  {
    if b == "" {
      assert a + b == a;
    } else {
      assert (a + b)[..|a + b| - 1] == a + b[..|b| - 1];
      NormalizeJoins(a, b[..|b| - 1]);
    }
  }

  /** Wherever it stands, a digit stays, a small or capital k becomes K, and anything else goes. */
  lemma {:induction false} CharacterKept(a: string, c: char, b: string)
    ensures Normalize(a + [c] + b) ==
            Normalize(a) + (if '0' <= c <= '9' then [c] else if c == 'k' || c == 'K' then "K" else "") + Normalize(b)
    ensures Normalize("") == ""
  {
    NormalizeJoins(a + [c], b);
    NormalizeJoins(a, [c]);
    assert Normalize([c]) == Kept(c) by { assert [c][..0] == ""; }
    hide Normalize;
  }

  /** A normal form stays as it is. */
  lemma {:induction false} NormalizeTwice(s: string)
    ensures Normalize(Normalize(s)) == Normalize(s)
  {
    if s != "" {
      NormalizeTwice(s[..|s| - 1]);
      NormalizeJoins(Normalize(s[..|s| - 1]), Kept(s[|s| - 1]));
      KeptIsNormal(s[|s| - 1]);
    }
  }

  lemma {:induction false} KeptIsNormal(c: char)
    ensures Normalize(Kept(c)) == Kept(c)
  {
    if Kept(c) != "" {
      assert Kept(c)[..0] == "";
    }
  }

  lemma {:induction false} NormalizePart(s: string, i: nat)
    requires i <= |s| && Normalize(s) == s
    ensures Normalize(s[..i]) == s[..i] && Normalize(s[i..]) == s[i..]
  {
    assert s[..i] + s[i..] == s;
    NormalizeJoins(s[..i], s[i..]);
    NormalizeShrinks(s[..i]);
    NormalizeShrinks(s[i..]);
    var a, b := Normalize(s[..i]), Normalize(s[i..]);
    assert |a| == i;
    assert a == (a + b)[..i] && b == (a + b)[i..];
  }

  lemma {:induction false} NormalizeShrinks(s: string)
    ensures |Normalize(s)| <= |s|
  {
    if s != "" {
      NormalizeShrinks(s[..|s| - 1]);
    }
  }

  // ----- Formatting

  /** Groups of three from the right, separated by points. */
  function Dotted(body: string): string {
    if |body| <= 3 then body else Dotted(body[..|body| - 3]) + "." + body[|body| - 3..]
  }

  function Format(value: string): string {
    var cleaned := Normalize(value);
    if |cleaned| < 2 then Strip(value)
    else Dotted(cleaned[..|cleaned| - 1]) + "-" + [cleaned[|cleaned| - 1]]
  }

  function Join(groups: seq<string>): string {
    if groups == [] then "" else if |groups| == 1 then groups[0] else groups[0] + "." + Join(groups[1..])
  }

  lemma {:induction false} JoinFirst(g: string, groups: seq<string>)
    requires groups != []
    ensures Join([g] + groups) == g + "." + Join(groups)
  {
    assert ([g] + groups)[1..] == groups;
  }

  /** The loop that cuts three characters at a time from the end; `groups` is kept in reading order. */
  method FormatRut(value: string) returns (formatted: string)
    ensures formatted == Format(value)
  {
    hide Normalize, Dotted, Join, Strip;
    var cleaned := Normalize(value);
    if |cleaned| < 2 {
      return Strip(value);
    }
    var body, check := cleaned[..|cleaned| - 1], cleaned[|cleaned| - 1];
    var groups: seq<string> := [];
    var rest := body;
    while rest != ""
      invariant rest == "" ==> groups != []
      invariant Dotted(body) == if groups == [] then Dotted(rest)
                                else if rest == "" then Join(groups) else Dotted(rest) + "." + Join(groups)
      decreases |rest|
    {
      var cut := if |rest| <= 3 then 0 else |rest| - 3;
      GroupAdded(rest, cut, groups);
      groups := [rest[cut..]] + groups;
      rest := rest[..cut];
    }
    return Join(groups) + "-" + [check];
  }

  lemma {:induction false} GroupAdded(rest: string, cut: nat, groups: seq<string>)
    requires rest != "" && cut == if |rest| <= 3 then 0 else |rest| - 3
    ensures var more := [rest[cut..]] + groups;
            (if groups == [] then Dotted(rest) else Dotted(rest) + "." + Join(groups)) ==
            if cut == 0 then Join(more) else Dotted(rest[..cut]) + "." + Join(more)
  {
    if groups != [] {
      JoinFirst(rest[cut..], groups);
    }
    if cut == 0 {
      assert rest[0..] == rest;
    } else if groups != [] {
      assert Dotted(rest) + "." + Join(groups) == Dotted(rest[..cut]) + "." + (rest[cut..] + "." + Join(groups));
    }
  }

  lemma {:induction false} DottedIs(body: string)
    ensures Dotted(body) == if |body| <= 3 then body else Dotted(body[..|body| - 3]) + "." + body[|body| - 3..]
  {
  }

  /** Counted from the right, every fourth character is a point, and the value does not start with one. */
  lemma {:induction false} PointPlaces(body: string, d: nat)
    requires AllDigits(body) && d < |Dotted(body)|
    ensures Dotted(body)[|Dotted(body)| - 1 - d] == '.' <==> d % 4 == 3
    ensures IsDigit(Dotted(body)[0])
  {
    hide *;
    DottedIs(body);
    DigitsAre(body);
    if |body| > 3 {
      var cut := |body| - 3;
      var head := Dotted(body[..cut]);
      DottedIs(body[..cut]);
      DigitsPart(body, cut);
      PointPlaces(body[..cut], if d > 3 then d - 4 else 0);
      assert d < 3 ==> Dotted(body)[|Dotted(body)| - 1 - d] == body[|body| - 1 - d];
    }
  }

  lemma {:induction false} DigitsAre(body: string)
    requires AllDigits(body)
    ensures forall i :: 0 <= i < |body| ==> IsDigit(body[i]) && body[i] != '.'
  {
  }

  lemma {:induction false} DigitsPart(body: string, cut: nat)
    requires AllDigits(body) && cut <= |body|
    ensures AllDigits(body[..cut])
  {
  }

  lemma {:induction false} DottedNormal(body: string)
    requires Normalize(body) == body
    ensures Normalize(Dotted(body)) == body
  {
    hide Normalize, Dotted;
    DottedIs(body);
    if |body| > 3 {
      var cut := |body| - 3;
      NormalizePart(body, cut);
      DottedNormal(body[..cut]);
      Punctuated(Dotted(body[..cut]), ".", body[cut..]);
      assert body[..cut] + body[cut..] == body;
    }
  }

  lemma {:induction false} Punctuated(a: string, mark: string, b: string)
    requires mark == "." || mark == "-"
    ensures Normalize(a + mark + b) == Normalize(a) + Normalize(b)
  {
    assert Normalize(mark) == "" by { assert mark[..0] == ""; }
    hide Normalize;
    NormalizeJoins(a + mark, b);
    NormalizeJoins(a, mark);
    assert Normalize(a) + "" == Normalize(a);
  }

  lemma {:induction false} StripKeeps(s: string)
    ensures Normalize(StripRight(s)) == Normalize(s)
    decreases |s|
  {
    if s != "" && IsSpace(s[|s| - 1]) {
      StripKeeps(s[..|s| - 1]);
    }
  }

  lemma {:induction false} StripLeftKeeps(s: string)
    ensures Normalize(StripLeft(s)) == Normalize(s)
    decreases |s|
  {
    if s != "" && IsSpace(s[0]) {
      StripLeftKeeps(s[1..]);
      assert [s[0]] + s[1..] == s;
      NormalizeJoins([s[0]], s[1..]);
      assert [s[0]][..0] == "";
    }
  }

  /** Formatting changes punctuation only: the normal form survives it, whatever was typed. */
  lemma {:induction false} FormatKeepsNormalForm(value: string)
    ensures Normalize(Format(value)) == Normalize(value)
  {
    hide Normalize, Dotted, StripLeft, StripRight;
    var cleaned := Normalize(value);
    if |cleaned| < 2 {
      StripLeftKeeps(value);
      StripKeeps(StripLeft(value));
    } else {
      var last := |cleaned| - 1;
      NormalizeTwice(value);
      NormalizePart(cleaned, last);
      DottedNormal(cleaned[..last]);
      assert cleaned[last..] == [cleaned[last]];
      Punctuated(Dotted(cleaned[..last]), "-", cleaned[last..]);
      assert cleaned[..last] + cleaned[last..] == cleaned;
    }
  }

  /** Formatting a formatted value changes nothing. */
  lemma {:induction false} FormatTwice(value: string)
    ensures Format(Format(value)) == Format(value)
  {
    FormatKeepsNormalForm(value);
    StripTwice(value);
    hide Normalize, Dotted;
  }

  // ----- Validity

  function IsValid(value: string): bool {
    var cleaned := Normalize(value);
    && |cleaned| >= 8
    && var body := cleaned[..|cleaned| - 1];
       && 7 <= |body| <= 8 && AllDigits(body) && cleaned[|cleaned| - 1] == CheckDigit(body)
  }

  lemma {:induction false} FormatKeepsValidity(value: string)
    ensures IsValid(Format(value)) <==> IsValid(value)
  {
    FormatKeepsNormalForm(value);
    hide Normalize, Format;
  }

  /** Digits and a check character are a valid tax id exactly when there are seven or eight digits and the character is theirs. */
  lemma {:induction false} BodyAndCheck(body: string, check: char)
    requires AllDigits(body) && (IsDigit(check) || check == 'K')
    ensures Normalize(body + [check]) == body + [check]
    ensures IsValid(body + [check]) <==> 7 <= |body| <= 8 && check == CheckDigit(body)
  {
    DigitsNormal(body);
    NormalizeJoins(body, [check]);
    assert [check][..0] == "";
    assert (body + [check])[..|body|] == body;
  }

  lemma {:induction false} DigitsNormal(body: string)
    requires AllDigits(body)
    ensures Normalize(body) == body
  {
    if body != "" {
      DigitsNormal(body[..|body| - 1]);
    }
  }

  /** A valid tax id with one body digit mistyped, or two neighbours swapped, is not valid. */
  lemma {:induction false} SlipsAreCaught(head: string, a: char, b: char, tail: string, check: char)
    requires AllDigits(head) && AllDigits(tail) && IsDigit(a) && IsDigit(b) && a != b
    requires IsDigit(check) || check == 'K'
    ensures IsValid(head + [a] + tail + [check]) ==> !IsValid(head + [b] + tail + [check])
    ensures IsValid(head + [a, b] + tail + [check]) ==> !IsValid(head + [b, a] + tail + [check])
  {
    OneDigitChanged(head, a, b, tail);
    NeighboursSwapped(head, a, b, tail);
    BodyAndCheck(head + [a] + tail, check);
    BodyAndCheck(head + [b] + tail, check);
    BodyAndCheck(head + [a, b] + tail, check);
    BodyAndCheck(head + [b, a] + tail, check);
    hide IsValid, CheckDigit, Normalize;
  }
}
