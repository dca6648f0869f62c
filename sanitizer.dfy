/**
 * The amount field of the add form (`NumberTextField`): every edit keeps
 * only the characters of "0123456789.", and when more than one '.' is left
 * the text becomes the part before the first '.', one '.', and everything
 * after it with its dots removed. `Double(text)` on the result is the exact
 * decimal value of the digits.
 */
module Sanitizer {
  import opened Wrappers
  import opened Text

  /** `"0123456789.".contains(c)`. */
  predicate IsAllowed(c: char) {
    IsDigit(c) || c == '.'
  }

  predicate AllAllowed(s: string) {
    forall i :: 0 <= i < |s| ==> IsAllowed(s[i])
  }

  /** `newValue.filter { "0123456789.".contains($0) }`. */
  function KeepAllowed(s: string): (f: string)
    ensures AllAllowed(f) && |f| <= |s|
  {
    if s == [] then []
    else if IsAllowed(s[0]) then [s[0]] + KeepAllowed(s[1..])
    else KeepAllowed(s[1..])
  }

  function CountDots(s: string): nat {
    if s == [] then 0 else (if s[0] == '.' then 1 else 0) + CountDots(s[1..])
  }

  function RemoveDots(s: string): (r: string)
    ensures CountDots(r) == 0 && |r| == |s| - CountDots(s)
  {
    if s == [] then []
    else
      var rest := RemoveDots(s[1..]);
      if s[0] == '.' then rest
      else
        assert ([s[0]] + rest)[1..] == rest;
        [s[0]] + rest
  }

  /** The text before the first '.', all of `s` when it has none. */
  function BeforeFirstDot(s: string): (r: string)
    ensures CountDots(r) == 0
  {
    if s == [] || s[0] == '.' then [] else [s[0]] + BeforeFirstDot(s[1..])
  }

  /** The text after the first '.', empty when `s` has none. */
  function AfterFirstDot(s: string): string {
    if s == [] then [] else if s[0] == '.' then s[1..] else AfterFirstDot(s[1..])
  }

  /** `s.components(separatedBy: ".")`: the pieces between the dots, one more than there are dots. */
  function Split(s: string): (parts: seq<string>)
    ensures |parts| == CountDots(s) + 1
  {
    if s == [] then [""]
    else if s[0] == '.' then [""] + Split(s[1..])
    else
      var rest := Split(s[1..]);
      [[s[0]] + rest[0]] + rest[1..]
  }

  /** `parts.joined()`. */
  function Join(parts: seq<string>): string {
    if parts == [] then "" else parts[0] + Join(parts[1..])
  }

  /** The text the field holds after one edit to `s`. */
  function Sanitize(s: string): string {
    var filtered := KeepAllowed(s);
    var components := Split(filtered);
    if |components| > 2 then components[0] + "." + Join(components[1..]) else filtered
  }

  // ---------------------------------------------------------------------
  // Split and join

  lemma {:induction false} CountDotsAppend(a: string, b: string)
    ensures CountDots(a + b) == CountDots(a) + CountDots(b)
  {
    if a == [] {
      assert a + b == b;
    } else {
      assert (a + b)[1..] == a[1..] + b;
      CountDotsAppend(a[1..], b);
    }
  }

  lemma {:induction false} RemoveDotsAppend(a: string, b: string)
    ensures RemoveDots(a + b) == RemoveDots(a) + RemoveDots(b)
  {
    if a == [] {
      assert a + b == b;
    } else {
      assert (a + b)[1..] == a[1..] + b;
      RemoveDotsAppend(a[1..], b);
    }
  }

  lemma {:induction false} RemoveDotsNoDots(s: string)
    requires CountDots(s) == 0
    ensures RemoveDots(s) == s
  {
    if s != [] {
      RemoveDotsNoDots(s[1..]);
    }
  }

  lemma {:induction false} SplitFirst(s: string)
    ensures Split(s)[0] == BeforeFirstDot(s)
  {
    if s != [] && s[0] != '.' {
      SplitFirst(s[1..]);
    }
  }

  lemma {:induction false} JoinSplit(s: string)
    ensures Join(Split(s)) == RemoveDots(s)
  {
    if s != [] {
      JoinSplit(s[1..]);
      var rest := Split(s[1..]);
      if s[0] == '.' {
        assert Split(s)[1..] == rest;
      } else {
        assert Join(rest) == rest[0] + Join(rest[1..]);
        assert Split(s)[1..] == rest[1..];
      }
    }
  }

  lemma {:induction false} JoinSplitTail(s: string)
    ensures Join(Split(s)[1..]) == RemoveDots(AfterFirstDot(s))
  {
    if s != [] {
      if s[0] == '.' {
        assert Split(s)[1..] == Split(s[1..]);
        JoinSplit(s[1..]);
      } else {
        assert Split(s)[1..] == Split(s[1..])[1..];
        JoinSplitTail(s[1..]);
      }
    }
  }

  /** A text with a '.' is its part before the first '.', that '.', and the rest. */
  lemma {:induction false} SplitAtFirstDot(s: string)
    requires CountDots(s) > 0
    ensures s == BeforeFirstDot(s) + "." + AfterFirstDot(s)
    ensures CountDots(AfterFirstDot(s)) == CountDots(s) - 1
  {
    if s[0] != '.' {
      SplitAtFirstDot(s[1..]);
    }
  }

  // ---------------------------------------------------------------------
  // What the sanitiser promises

  /**
   * The filtered text with at most one '.' is kept as it is; otherwise the
   * result is the part before the first '.', one '.', and the rest with every
   * '.' removed.
   */
  lemma SanitizeShape(s: string)
    ensures var f := KeepAllowed(s);
      Sanitize(s) == if CountDots(f) <= 1 then f else BeforeFirstDot(f) + "." + RemoveDots(AfterFirstDot(f))
  {
    var f := KeepAllowed(s);
    SplitFirst(f);
    JoinSplitTail(f);
  }

  lemma {:induction false} KeepAllowedIdentity(s: string)
    requires AllAllowed(s)
    ensures KeepAllowed(s) == s
  {
    if s != [] {
      KeepAllowedIdentity(s[1..]);
    }
  }

  lemma {:induction false} AllAllowedParts(s: string)
    requires AllAllowed(s)
    ensures AllAllowed(BeforeFirstDot(s)) && AllAllowed(AfterFirstDot(s)) && AllAllowed(RemoveDots(s))
  {
    if s != [] {
      AllAllowedParts(s[1..]);
    }
  }

  /**
   * The sanitised text holds only characters of "0123456789.", at most one
   * '.', and the same digits in the same order as the input.
   */
  lemma SanitizeSpec(s: string)
    ensures AllAllowed(Sanitize(s))
    ensures CountDots(Sanitize(s)) <= 1
    ensures RemoveDots(Sanitize(s)) == RemoveDots(KeepAllowed(s))
  {
    var f := KeepAllowed(s);
    SanitizeShape(s);
    if CountDots(f) > 1 {
      var before, after := BeforeFirstDot(f), AfterFirstDot(f);
      var t := before + "." + RemoveDots(after);
      AllAllowedParts(f);
      AllAllowedParts(after);
      assert AllAllowed(t);
      CountDotsAppend(before + ".", RemoveDots(after));
      CountDotsAppend(before, ".");
      SplitAtFirstDot(f);
      RemoveDotsAppend(before + ".", RemoveDots(after));
      RemoveDotsAppend(before, ".");
      RemoveDotsAppend(before + ".", after);
      RemoveDotsNoDots(RemoveDots(after));
    }
  }

  /** Sanitising a sanitised text changes nothing, so the field settles after one pass. */
  lemma SanitizeIdempotent(s: string)
    ensures Sanitize(Sanitize(s)) == Sanitize(s)
  {
    var t := Sanitize(s);
    SanitizeSpec(s);
    KeepAllowedIdentity(t);
    SanitizeShape(t);
  }

  // ---------------------------------------------------------------------
  // Double(text) on decimal text

  function Pow10(n: nat): (p: nat)
    ensures p >= 1
  {
    if n == 0 then 1 else 10 * Pow10(n - 1)
  }

  lemma {:induction false} DotFreeDigits(s: string)
    requires AllAllowed(s) && CountDots(s) == 0
    ensures AllDigits(s)
  {
    if s != [] {
      DotFreeDigits(s[1..]);
    }
  }

  /** Digits with at most one '.' and at least one digit: what `Double(_:)` accepts among such texts. */
  predicate IsDecimal(s: string) {
    AllAllowed(s) && CountDots(s) <= 1 && RemoveDots(s) != []
  }

  /**
   * `Double(text)` for a text of digits and dots: the whole part before the
   * '.' plus the fraction after it ("5." is 5, ".5" is one half); `nil` for
   * anything that is not such a decimal ("", "." or two dots). Never negative.
   */
  function ParseAmount(s: string): (r: Option<real>)
    ensures r.Some? <==> IsDecimal(s)
    ensures r.Some? ==> r.value >= 0.0
  {
    if IsDecimal(s) then
      var whole, fraction := BeforeFirstDot(s), AfterFirstDot(s);
      DecimalParts(s);
      Some(DigitsValue(whole) as real + DigitsValue(fraction) as real / Pow10(|fraction|) as real)
    else
      None
  }

  lemma DecimalParts(s: string)
    requires AllAllowed(s) && CountDots(s) <= 1
    ensures AllDigits(BeforeFirstDot(s)) && AllDigits(AfterFirstDot(s))
  {
    AllAllowedParts(s);
    DotFreeDigits(BeforeFirstDot(s));
    if CountDots(s) == 1 {
      SplitAtFirstDot(s);
    } else {
      AfterDotsCount(s);
    }
    DotFreeDigits(AfterFirstDot(s));
  }

  lemma {:induction false} AfterDotsCount(s: string)
    requires CountDots(s) == 0
    ensures AfterFirstDot(s) == []
  {
    if s != [] {
      AfterDotsCount(s[1..]);
    }
  }

  /** The sanitised text fails to parse exactly when it has no digit (it is "" or "."). */
  lemma SanitizedParses(s: string)
    ensures ParseAmount(Sanitize(s)).None? <==> RemoveDots(KeepAllowed(s)) == []
  {
    SanitizeSpec(s);
  }

  /** A rendered whole number reads back as itself. */
  lemma ParseWholeNumber(n: nat)
    ensures ParseAmount(NatToString(n)) == Some(n as real)
  {
    var s := NatToString(n);
    NoDotsInDigits(s);
    RemoveDotsNoDots(s);
    AfterDotsCount(s);
    BeforeNoDots(s);
    NatToStringRoundTrip(n);
    assert IsDecimal(s);
    var whole, fraction := BeforeFirstDot(s), AfterFirstDot(s);
    assert whole == s && fraction == [];
    assert ParseAmount(s) == Some(DigitsValue(whole) as real + DigitsValue(fraction) as real / Pow10(|fraction|) as real);
  }

  lemma {:induction false} NoDotsInDigits(s: string)
    requires AllDigits(s)
    ensures CountDots(s) == 0 && AllAllowed(s)
  {
    if s != [] {
      NoDotsInDigits(s[1..]);
    }
  }

  lemma {:induction false} BeforeNoDots(s: string)
    requires CountDots(s) == 0
    ensures BeforeFirstDot(s) == s
  {
    if s != [] {
      BeforeNoDots(s[1..]);
    }
  }
}
