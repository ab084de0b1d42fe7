/** Decimal numerals and separators, as cursors and row keys use them. */
module Text {
  import opened Prelude

  /** The characters that Python's strip() removes. */
  predicate IsSpace(c: char) {
    || c == ' ' || '\t' <= c <= '\r' || '\U{1c}' <= c <= '\U{1f}' || c == '\U{85}' || c == '\U{a0}'
    || c == '\U{1680}' || '\U{2000}' <= c <= '\U{200a}' || c == '\U{2028}' || c == '\U{2029}'
    || c == '\U{202f}' || c == '\U{205f}' || c == '\U{3000}'
  }

  function StripLeft(s: string): string {
    if s != "" && IsSpace(s[0]) then StripLeft(s[1..]) else s
  }

  function StripRight(s: string): string {
    if s != "" && IsSpace(s[|s| - 1]) then StripRight(s[..|s| - 1]) else s
  }

  function Strip(s: string): string {
    StripRight(StripLeft(s))
  }

  lemma {:induction false} StripRightEnds(s: string)
    ensures StripRight(s) != "" ==> !IsSpace(StripRight(s)[|StripRight(s)| - 1]) && StripRight(s) <= s
  {
    if s != "" && IsSpace(s[|s| - 1]) {
      StripRightEnds(s[..|s| - 1]);
    }
  }

  lemma {:induction false} StripLeftStarts(s: string)
    ensures StripLeft(s) != "" ==> !IsSpace(StripLeft(s)[0])
  {
    if s != "" && IsSpace(s[0]) {
      StripLeftStarts(s[1..]);
    }
  }

  /** Stripping twice is stripping once. */
  lemma {:induction false} StripTwice(s: string)
    ensures Strip(Strip(s)) == Strip(s)
  {
    StripLeftStarts(s);
    StripRightEnds(StripLeft(s));
  }

  function Digit(n: nat): (c: char)
    requires n < 10
    ensures '0' <= c <= '9' && DigitValue(c) == n
  {
    "0123456789"[n]
  }

  function DigitValue(c: char): nat
    requires '0' <= c <= '9'
  {
    c as int - '0' as int
  }

  function Decimal(n: nat): (s: string)
    ensures s != "" && '0' <= s[|s| - 1] <= '9'
  {
    if n < 10 then [Digit(n)] else Decimal(n / 10) + [Digit(n % 10)]
  }

  predicate AllDigits(s: string) {
    forall i :: 0 <= i < |s| ==> '0' <= s[i] <= '9'
  }

  function ParseDecimal(s: string): nat
    requires AllDigits(s)
  {
    if s == "" then 0 else 10 * ParseDecimal(s[..|s| - 1]) + DigitValue(s[|s| - 1])
  }

  /** Reading a printed number gives the number. */
  lemma {:induction false} DecimalParses(n: nat)
    ensures AllDigits(Decimal(n)) && ParseDecimal(Decimal(n)) == n
  {
    if n < 10 {
      assert Decimal(n)[..0] == "";
    } else {
      DecimalParses(n / 10);
      assert Decimal(n)[..|Decimal(n)| - 1] == Decimal(n / 10);
    }
  }

  lemma {:induction false} DecimalInjective(a: nat, b: nat)
    requires Decimal(a) == Decimal(b)
    ensures a == b
  {
    DecimalParses(a);
    DecimalParses(b);
  }

  /** Position of the last "::", as rpartition finds it. */
  function LastSeparator(s: string): (k: Option<nat>)
    ensures k.Some? ==> k.value + 2 <= |s| && s[k.value..k.value + 2] == "::"
  {
    if |s| < 2 then None
    else if s[|s| - 2..] == "::" then Some(|s| - 2)
    else LastSeparator(s[..|s| - 1])
  }

  /** After a tail without a colon, the last separator is the one in front of it. */
  lemma {:induction false} SeparatorFound(head: string, tail: string)
    requires ':' !in tail
    ensures LastSeparator(head + "::" + tail) == Some(|head|)
  {
    var s := head + "::" + tail;
    if tail == "" {
      assert s[|s| - 2..] == "::";
    } else {
      var init := tail[..|tail| - 1];
      assert s[|s| - 1] == tail[|tail| - 1];
      assert s[|s| - 2..][1] == s[|s| - 1];
      assert s[..|s| - 1] == head + "::" + init;
      SeparatorFound(head, init);
    }
  }
}
