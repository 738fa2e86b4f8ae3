/** Option and Result, and the decimal text of a number: the form in which client
    IDs, stream cursors and date fields enter identifiers. */
module Texts {
  datatype Option<+T> = None | Some(value: T)

  datatype Result<+T> = Ok(value: T) | Err(reason: string)

  predicate IsDigit(c: char) { '0' <= c <= '9' }

  /** The characters that stripping removes. */
  predicate IsSpace(c: char) {
    '\t' <= c <= '\r' || '\U{1C}' <= c <= ' ' || c == '\U{85}' || c == '\U{A0}' || c == '\U{1680}'
    || '\U{2000}' <= c <= '\U{200A}' || c == '\U{2028}' || c == '\U{2029}' || c == '\U{202F}' || c == '\U{205F}'
    || c == '\U{3000}'
  }

  /** Nothing is left of the text when it is stripped. */
  predicate IsBlank(s: string) { forall i :: 0 <= i < |s| ==> IsSpace(s[i]) }

  function Digit(d: nat): char
    requires d < 10
  {
    ('0' as int + d) as char
  }

  function DecimalText(n: nat): string {
    if n < 10 then [Digit(n)] else DecimalText(n / 10) + [Digit(n % 10)]
  }

  /** Reads decimal digits; any other text, the empty one included, is no number. */
  function ParseDecimal(s: string): Option<nat> {
    if s == [] || !IsDigit(s[|s| - 1]) then None
    else
      var last := s[|s| - 1] as int - '0' as int;
      if |s| == 1 then Some(last)
      else
        match ParseDecimal(s[..|s| - 1])
        case None => None
        case Some(rest) => Some(10 * rest + last)
  }

  lemma {:induction false} ParseUndoesDecimalText(n: nat)
    ensures ParseDecimal(DecimalText(n)) == Some(n)
  {
    if n >= 10 {
      ParseUndoesDecimalText(n / 10);
      assert DecimalText(n)[..|DecimalText(n)| - 1] == DecimalText(n / 10);
    }
  }

  lemma {:induction false} DecimalTextIsDigits(n: nat)
    ensures |DecimalText(n)| > 0
    ensures forall i :: 0 <= i < |DecimalText(n)| ==> IsDigit(DecimalText(n)[i])
  {
    if n >= 10 { DecimalTextIsDigits(n / 10); }
  }

  /** Two texts split at their last separator agree in both halves. */
  lemma LastSeparatorSplits(a: string, x: string, b: string, y: string, sep: char)
    requires sep !in x && sep !in y
    requires a + [sep] + x == b + [sep] + y
    ensures a == b && x == y
  {
    var s, t := a + [sep] + x, b + [sep] + y;
    assert |s| == |a| + 1 + |x| && |t| == |b| + 1 + |y|;
    assert s[|a|] == sep && t[|b|] == sep;
    assert |a| == |b|;
    assert a == s[..|a|] && b == t[..|b|];
    assert x == s[|a| + 1..] && y == t[|b| + 1..];
  }
}
