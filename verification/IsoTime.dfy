/** UTC times as ISO 8601 texts, the way the SIP event store keeps and compares them (execution/sip_store.py). */
module IsoTime {
  import opened Texts

  datatype Stamp = Stamp(year: nat, month: nat, day: nat, hour: nat, minute: nat, second: nat, micro: nat)
  {
    function Field(k: nat): nat {
      if k == 0 then year else if k == 1 then month else if k == 2 then day else if k == 3 then hour
      else if k == 4 then minute else second
    }
  }

  /** Year to second, in order; the microsecond comes after. */
  const FIELDS := 6

  function Width(k: nat): nat { if k == 0 then 4 else 2 }

  function Separator(k: nat): string {
    if k == 0 then "" else if k <= 2 then "-" else if k == 3 then "T" else ":"
  }

  function Power(width: nat): nat { if width == 0 then 1 else 10 * Power(width - 1) }

  /** Fields within the digits their text gives them. */
  predicate Valid(t: Stamp) { (forall k: nat :: k < FIELDS ==> t.Field(k) < Power(Width(k))) && t.micro < 1000000 }

  /** Chronological order from field k on: the first differing field decides. */
  predicate BeforeFrom(a: Stamp, b: Stamp, k: nat)
    decreases FIELDS - k
  {
    if k >= FIELDS then a.micro < b.micro
    else a.Field(k) < b.Field(k) || (a.Field(k) == b.Field(k) && BeforeFrom(a, b, k + 1))
  }

  predicate Before(a: Stamp, b: Stamp) { BeforeFrom(a, b, 0) }

  function Padded(n: nat, width: nat): (s: string)
    ensures |s| == width
  {
    if width == 0 then [] else Padded(n / 10, width - 1) + [Digit(n % 10)]
  }

  /** Microseconds are left out when they are zero. */
  function Zone(micro: nat): string { if micro == 0 then "+00:00" else "." + (Padded(micro, 6) + "+00:00") }

  function IsoFrom(t: Stamp, k: nat): string
    decreases FIELDS - k
  {
    if k >= FIELDS then Zone(t.micro) else Separator(k) + (Padded(t.Field(k), Width(k)) + IsoFrom(t, k + 1))
  }

  function Iso(t: Stamp): string { IsoFrom(t, 0) }

  /** Character order of two texts, a proper prefix first. */
  predicate TextLess(s: string, t: string)
    decreases |s|
  {
    t != [] && (s == [] || s[0] < t[0] || (s[0] == t[0] && TextLess(s[1..], t[1..])))
  }

  // ---- what the text shows ----

  lemma {:induction false} PaddedReads(n: nat, width: nat)
    requires width > 0 && n < Power(width)
    ensures ParseDecimal(Padded(n, width)) == Some(n)
  {
    var s := Padded(n, width);
    assert s[..width - 1] == Padded(n / 10, width - 1);
    if width > 1 {
      PaddedReads(n / 10, width - 1);
    } else {
      assert Power(1) == 10 * Power(0);
    }
  }

  /** From field k > 0 on: its separator, its two digits, the rest. */
  lemma FieldReads(t: Stamp, k: nat)
    requires Valid(t) && 0 < k < FIELDS
    ensures var s := IsoFrom(t, k);
            |s| == 3 + |IsoFrom(t, k + 1)| && s[0] == (if k <= 2 then '-' else if k == 3 then 'T' else ':')
            && ParseDecimal(s[1..3]) == Some(t.Field(k)) && s[3..] == IsoFrom(t, k + 1)
  {
    var s, digits := IsoFrom(t, k), Padded(t.Field(k), 2);
    PaddedReads(t.Field(k), 2);
    assert s[1..3] == digits && s[3..] == IsoFrom(t, k + 1);
  }

  lemma ZoneReads(micro: nat)
    requires micro < 1000000
    ensures var s := Zone(micro);
            if micro == 0 then s == "+00:00"
            else |s| == 13 && s[0] == '.' && ParseDecimal(s[1..7]) == Some(micro) && s[7..] == "+00:00"
  {
    var digits := Padded(micro, 6);
    assert Power(6) == 1000000;
    PaddedReads(micro, 6);
    if micro > 0 {
      var s := Zone(micro);
      assert s[1..7] == digits && s[7..] == "+00:00";
    }
  }

  /** Where field k stands in the text, its separator included. */
  function Place(k: nat): nat { if k == 0 then 0 else 3 * k + 1 }

  lemma SliceOfSuffix(s: string, i: nat, j: nat, k: nat)
    requires i <= |s| && j <= k <= |s| - i
    ensures s[i..][j..k] == s[i + j..i + k] && s[i..][j..] == s[i + j..]
  {
  }

  lemma {:induction false} FieldPlaced(t: Stamp, k: nat)
    requires Valid(t) && k <= FIELDS
    ensures |Iso(t)| == Place(k) + |IsoFrom(t, k)| && Iso(t)[Place(k)..] == IsoFrom(t, k)
    decreases k
  {
    if k == 1 {
      assert Iso(t) == Padded(t.year, 4) + IsoFrom(t, 1);
    } else if k > 1 {
      FieldPlaced(t, k - 1);
      NextPlaced(t, Iso(t), k - 1);
    }
  }

  lemma NextPlaced(t: Stamp, s: string, k: nat)
    requires Valid(t) && 0 < k < FIELDS
    requires |s| == Place(k) + |IsoFrom(t, k)| && s[Place(k)..] == IsoFrom(t, k)
    ensures |s| == Place(k + 1) + |IsoFrom(t, k + 1)| && s[Place(k + 1)..] == IsoFrom(t, k + 1)
  {
    FieldReads(t, k);
    SliceOfSuffix(s, Place(k), 3, 3);
  }

  lemma FieldShows(t: Stamp, s: string, k: nat)
    requires Valid(t) && 0 < k < FIELDS
    requires |s| == Place(k) + |IsoFrom(t, k)| && s[Place(k)..] == IsoFrom(t, k)
    ensures |s| >= Place(k) + 3 && s[Place(k)] == (if k <= 2 then '-' else if k == 3 then 'T' else ':')
    ensures ParseDecimal(s[Place(k) + 1..Place(k) + 3]) == Some(t.Field(k))
  {
    FieldReads(t, k);
    SliceOfSuffix(s, Place(k), 1, 3);
    assert s[Place(k)] == s[Place(k)..][0];
  }

  lemma IsoEnds(t: Stamp)
    requires Valid(t)
    ensures |Iso(t)| == (if t.micro == 0 then 25 else 32) && Iso(t)[19..] == Zone(t.micro)
  {
    FieldPlaced(t, FIELDS);
    ZoneReads(t.micro);
    assert IsoFrom(t, FIELDS) == Zone(t.micro);
  }

  /** The text of a time begins with its year; each of month, day, hour, minute and second follows in two digits after its
      separator; the microseconds come last, after a point unless they are zero, with the UTC offset. */
  lemma IsoReads(t: Stamp, k: nat)
    requires Valid(t) && 0 < k < FIELDS
    ensures var s := Iso(t);
            |s| == (if t.micro == 0 then 25 else 32) && ParseDecimal(s[..4]) == Some(t.year)
            && s[Place(k)] == (if k <= 2 then '-' else if k == 3 then 'T' else ':')
            && ParseDecimal(s[Place(k) + 1..Place(k) + 3]) == Some(t.Field(k))
            && s[19..] == Zone(t.micro)
  {
    IsoEnds(t);
    FieldPlaced(t, k);
    FieldShows(t, Iso(t), k);
    YearReads(t);
  }

  lemma YearReads(t: Stamp)
    requires Valid(t)
    ensures |Iso(t)| >= 4 && ParseDecimal(Iso(t)[..4]) == Some(t.year)
  {
    assert t.Field(0) < Power(Width(0)) && Power(4) == 10000;
    PaddedReads(t.year, 4);
    assert Iso(t)[..4] == Padded(t.year, 4);
  }

  /** The microseconds show only after the nineteenth character. */
  lemma SameUntilZone(t: Stamp)
    requires Valid(t)
    ensures |Iso(t)| >= 19 && Iso(t.(micro := 0)) == Iso(t)[..19] + "+00:00"
  {
    var p := SplitFrom(t, 0);
    assert Iso(t)[..19] == p;
  }

  /** A text from field k on is the fields' part, which the microseconds do not touch, and the zone. */
  lemma {:induction false} SplitFrom(t: Stamp, k: nat) returns (p: string)
    requires k <= FIELDS
    ensures IsoFrom(t, k) == p + Zone(t.micro) && IsoFrom(t.(micro := 0), k) == p + Zone(0)
    ensures |p| == if k == 0 then 19 else 3 * (FIELDS - k)
    decreases FIELDS - k
  {
    if k == FIELDS {
      p := "";
    } else {
      var rest := SplitFrom(t, k + 1);
      p := FieldAdds(t, k, rest);
    }
  }

  lemma FieldAdds(t: Stamp, k: nat, rest: string) returns (p: string)
    requires k < FIELDS
    requires IsoFrom(t, k + 1) == rest + Zone(t.micro) && IsoFrom(t.(micro := 0), k + 1) == rest + Zone(0)
    ensures IsoFrom(t, k) == p + Zone(t.micro) && IsoFrom(t.(micro := 0), k) == p + Zone(0)
    ensures |p| == (if k == 0 then 4 else 3) + |rest|
  {
    var head := Separator(k) + Padded(t.Field(k), Width(k));
    p := head + rest;
    assert t.(micro := 0).Field(k) == t.Field(k);
    Joins(Separator(k), Padded(t.Field(k), Width(k)), rest, Zone(t.micro));
    Joins(Separator(k), Padded(t.Field(k), Width(k)), rest, Zone(0));
  }

  lemma Joins(a: string, b: string, c: string, d: string)
    ensures a + (b + (c + d)) == ((a + b) + c) + d
  {
  }

  // ---- text order ----

  lemma {:induction false} Irreflexive(s: string)
    ensures !TextLess(s, s)
  {
    if s != [] { Irreflexive(s[1..]); }
  }

  /** A strict total order. */
  lemma {:induction false} TextOrder(s: string, t: string, u: string)
    ensures !(TextLess(s, t) && TextLess(t, s))
    ensures TextLess(s, u) ==> TextLess(s, t) || TextLess(t, u)
    ensures !TextLess(s, t) && !TextLess(t, s) ==> s == t
  {
    if s != [] && t != [] {
      TextOrder(s[1..], t[1..], if u == [] then [] else u[1..]);
      assert s == [s[0]] + s[1..] && t == [t[0]] + t[1..];
    }
  }

  lemma {:induction false} SamePrefix(p: string, x: string, y: string)
    ensures TextLess(p + x, p + y) <==> TextLess(x, y)
  {
    if p == [] {
      assert p + x == x && p + y == y;
    } else {
      assert (p + x)[1..] == p[1..] + x && (p + y)[1..] == p[1..] + y;
      SamePrefix(p[1..], x, y);
    }
  }

  lemma {:induction false} PrefixDecides(p: string, q: string, x: string, y: string)
    requires |p| == |q| && TextLess(p, q)
    ensures TextLess(p + x, q + y) && !TextLess(q + y, p + x)
  {
    assert (p + x)[0] == p[0] && (q + y)[0] == q[0];
    if p[0] == q[0] {
      assert (p + x)[1..] == p[1..] + x && (q + y)[1..] == q[1..] + y;
      PrefixDecides(p[1..], q[1..], x, y);
    }
  }

  /** Fixed-width decimals compare as their numbers. */
  lemma {:induction false} PaddedOrder(n: nat, m: nat, width: nat)
    requires n < m < Power(width)
    ensures TextLess(Padded(n, width), Padded(m, width))
  {
    if width > 0 {
      var p, q, x, y := Padded(n / 10, width - 1), Padded(m / 10, width - 1), [Digit(n % 10)], [Digit(m % 10)];
      if n / 10 < m / 10 {
        PaddedOrder(n / 10, m / 10, width - 1);
        PrefixDecides(p, q, x, y);
      } else {
        assert n / 10 == m / 10 && n % 10 < m % 10;
        assert x[0] < y[0];
        SamePrefix(p, x, y);
      }
    }
  }

  /** A field and what follows it: the field decides, and an equal field leaves it to the rest. */
  lemma FieldOrder(n: nat, m: nat, width: nat, x: string, y: string)
    requires n < Power(width) && m < Power(width)
    ensures TextLess(Padded(n, width) + x, Padded(m, width) + y) <==> n < m || (n == m && TextLess(x, y))
  {
    if n < m {
      PaddedOrder(n, m, width);
      PrefixDecides(Padded(n, width), Padded(m, width), x, y);
    } else if m < n {
      PaddedOrder(m, n, width);
      PrefixDecides(Padded(m, width), Padded(n, width), y, x);
    } else {
      SamePrefix(Padded(n, width), x, y);
    }
  }

  /** A missing microsecond part sorts before every one that is there: a plus sign comes before a point. */
  lemma ZoneOrder(a: nat, b: nat)
    requires a < 1000000 && b < 1000000
    ensures TextLess(Zone(a), Zone(b)) <==> a < b
  {
    assert Power(6) == 1000000;
    Irreflexive("+00:00");
    if a > 0 && b > 0 {
      SamePrefix(".", Padded(a, 6) + "+00:00", Padded(b, 6) + "+00:00");
      FieldOrder(a, b, 6, "+00:00", "+00:00");
    } else {
      assert Zone(0)[0] == '+' && (a > 0 ==> Zone(a)[0] == '.') && (b > 0 ==> Zone(b)[0] == '.');
    }
  }

  lemma {:induction false} TextOrderFrom(a: Stamp, b: Stamp, k: nat)
    requires Valid(a) && Valid(b)
    ensures TextLess(IsoFrom(a, k), IsoFrom(b, k)) <==> BeforeFrom(a, b, k)
    decreases FIELDS - k
  {
    if k >= FIELDS {
      ZoneOrder(a.micro, b.micro);
    } else {
      TextOrderFrom(a, b, k + 1);
      var x, y := IsoFrom(a, k + 1), IsoFrom(b, k + 1);
      FieldOrder(a.Field(k), b.Field(k), Width(k), x, y);
      SamePrefix(Separator(k), Padded(a.Field(k), Width(k)) + x, Padded(b.Field(k), Width(k)) + y);
    }
  }

  /** The order of the stored texts is the order of the times, with or without microseconds. */
  lemma TextOrderIsTimeOrder(a: Stamp, b: Stamp)
    requires Valid(a) && Valid(b)
    ensures TextLess(Iso(a), Iso(b)) <==> Before(a, b)
  {
    TextOrderFrom(a, b, 0);
  }

  // ---- time order ----

  predicate SameFrom(a: Stamp, b: Stamp, k: nat)
    decreases FIELDS - k
  {
    if k >= FIELDS then a.micro == b.micro else a.Field(k) == b.Field(k) && SameFrom(a, b, k + 1)
  }

  lemma {:induction false} OrderFrom(a: Stamp, b: Stamp, c: Stamp, k: nat)
    ensures !(BeforeFrom(a, b, k) && BeforeFrom(b, a, k))
    ensures !BeforeFrom(a, b, k) && BeforeFrom(a, c, k) ==> BeforeFrom(b, c, k)
    ensures !BeforeFrom(a, b, k) && !BeforeFrom(b, a, k) ==> SameFrom(a, b, k)
    decreases FIELDS - k
  {
    if k < FIELDS { OrderFrom(a, b, c, k + 1); }
  }

  lemma BeforeIsTotalOrder(a: Stamp, b: Stamp, c: Stamp)
    ensures !(Before(a, b) && Before(b, a))
    ensures !Before(a, b) && Before(a, c) ==> Before(b, c)
    ensures !Before(a, b) && !Before(b, a) ==> a == b
  {
    OrderFrom(a, b, c, 0);
  }

  /** Different times have different texts. */
  lemma TextIsInjective(a: Stamp, b: Stamp)
    requires Valid(a) && Valid(b)
    ensures Iso(a) == Iso(b) <==> a == b
  {
    TextOrderIsTimeOrder(a, b);
    TextOrderIsTimeOrder(b, a);
    Irreflexive(Iso(a));
    BeforeIsTotalOrder(a, b, b);
  }
}
