/** String helpers behind the framework's textual keys: decimal rendering and
    parsing of counters, joining and splitting on a separator, and
    lexicographic order. */
module Text {

  datatype Option<+T> = None | Some(value: T)

  // --- Decimal numerals ---

  function Digit(d: nat): char
    requires d < 10
  {
    ('0' as int + d) as char
  }

  /** `n.to_string()` for an unsigned integer. */
  function Decimal(n: nat): (s: string)
    ensures s != []
  {
    if n < 10 then [Digit(n)] else Decimal(n / 10) + [Digit(n % 10)]
  }

  predicate IsDigit(c: char) {
    '0' <= c <= '9'
  }

  predicate AllDigits(s: string) {
    forall i :: 0 <= i < |s| ==> IsDigit(s[i])
  }

  function DigitsValue(s: string): nat
    requires AllDigits(s)
  {
    if s == [] then 0
    else 10 * DigitsValue(s[..|s| - 1]) + (s[|s| - 1] as int - '0' as int)
  }

  lemma {:induction false} DecimalRoundTrip(n: nat)
    ensures AllDigits(Decimal(n)) && DigitsValue(Decimal(n)) == n
  {
    if n >= 10 {
      DecimalRoundTrip(n / 10);
      assert Decimal(n)[..|Decimal(n)| - 1] == Decimal(n / 10);
    } else {
      assert Decimal(n)[..0] == [];
    }
  }

  lemma DecimalInjective(m: nat, n: nat)
    requires Decimal(m) == Decimal(n)
    ensures m == n
  {
    DecimalRoundTrip(m);
    DecimalRoundTrip(n);
  }

  /** `str::parse::<u32>()`: an optional '+', at least one digit, no overflow. */
  function ParseU32(s: string): Option<nat> {
    var digits := if |s| > 0 && s[0] == '+' then s[1..] else s;
    if digits == [] || !AllDigits(digits) then None
    else if DigitsValue(digits) >= 0x1_0000_0000 then None
    else Some(DigitsValue(digits))
  }

  lemma ParseRendered(n: nat)
    requires n < 0x1_0000_0000
    ensures ParseU32(Decimal(n)) == Some(n)
  {
    DecimalRoundTrip(n);
    assert IsDigit(Decimal(n)[0]);
  }

  /** `format!("{}:{}", text, n)`: endpoints and vnode labels. */
  function Labelled(text: string, n: nat): string {
    text + ":" + Decimal(n)
  }

  /** A label tells its text and its number, whatever the text contains: the last colon
      divides them. */
  lemma LabelInjective(a: string, m: nat, b: string, n: nat)
    requires Labelled(a, m) == Labelled(b, n)
    ensures a == b && m == n
  {
    if |a| < |b| {
      ColonOnlyBefore(a, m, b, n);
    } else if |b| < |a| {
      ColonOnlyBefore(b, n, a, m);
    } else {
      var s := Labelled(a, m);
      assert a == s[..|a|] && b == s[..|b|] && Decimal(m) == s[|a| + 1..] && Decimal(n) == s[|b| + 1..];
      DecimalInjective(m, n);
    }
  }

  lemma ColonOnlyBefore(a: string, m: nat, b: string, n: nat)
    requires |a| < |b|
    ensures Labelled(a, m) != Labelled(b, n)
  {
    DecimalRoundTrip(m);
    var k := |b| - |a| - 1;
    if k < |Decimal(m)| {
      assert Labelled(a, m)[|b|] == Decimal(m)[k] && IsDigit(Decimal(m)[k]);
      assert Labelled(b, n)[|b|] == ':';
    }
  }

  // --- Splitting on a separator ---

  /** `s.split(c)`: always at least one piece. */
  function Split(s: string, c: char): (pieces: seq<string>)
    ensures pieces != []
  {
    if s == [] then [""] else Prepend(s[0], Split(s[1..], c), c)
  }

  function Prepend(x: char, pieces: seq<string>, c: char): (r: seq<string>)
    requires pieces != []
    ensures r != []
  {
    if x == c then [""] + pieces else [[x] + pieces[0]] + pieces[1..]
  }

  lemma PrependConcat(x: char, a: seq<string>, b: seq<string>, c: char)
    requires a != []
    ensures Prepend(x, a + b, c) == Prepend(x, a, c) + b
  {
    assert (a + b)[1..] == a[1..] + b;
  }

  lemma {:induction false} PiecesLackSeparator(s: string, c: char)
    ensures forall k :: 0 <= k < |Split(s, c)| ==> c !in Split(s, c)[k]
  {
    if s != [] {
      PiecesLackSeparator(s[1..], c);
    }
  }

  lemma {:induction false} SplitWithoutSeparator(s: string, c: char)
    requires c !in s
    ensures Split(s, c) == [s]
  {
    if s != [] {
      SplitWithoutSeparator(s[1..], c);
      assert [s[0]] + s[1..] == s;
    }
  }

  /** Splitting distributes over a joining separator. */
  lemma {:induction false} SplitConcat(a: string, b: string, c: char)
    ensures Split(a + [c] + b, c) == Split(a, c) + Split(b, c)
  {
    var s := a + [c] + b;
    if a == [] {
      assert s[1..] == b;
    } else {
      assert s[1..] == a[1..] + [c] + b && s[0] == a[0];
      SplitConcat(a[1..], b, c);
      PrependConcat(a[0], Split(a[1..], c), Split(b, c), c);
    }
  }

  // --- Composite keys "type/key" ---

  /** `format!("{}/{}", type_name, key)`. */
  function Composite(typeName: string, key: string): string {
    typeName + "/" + key
  }

  function TypeLength(composite: string): nat {
    if composite == [] || composite[0] == '/' then 0 else 1 + TypeLength(composite[1..])
  }

  lemma {:induction false} TypeLengthOfComposite(t: string, k: string)
    requires '/' !in t
    ensures TypeLength(Composite(t, k)) == |t|
  {
    if t != [] {
      TypeLengthOfComposite(t[1..], k);
      assert Composite(t, k)[1..] == Composite(t[1..], k);
    }
  }

  /** Type names without '/' make the composite key unambiguous. */
  lemma CompositeInjective(t1: string, k1: string, t2: string, k2: string)
    requires '/' !in t1 && '/' !in t2
    requires Composite(t1, k1) == Composite(t2, k2)
    ensures t1 == t2 && k1 == k2
  {
    TypeLengthOfComposite(t1, k1);
    TypeLengthOfComposite(t2, k2);
    assert t1 == Composite(t1, k1)[..|t1|] && t2 == Composite(t2, k2)[..|t2|];
    assert k1 == Composite(t1, k1)[|t1| + 1..] && k2 == Composite(t2, k2)[|t2| + 1..];
  }

  // --- Lexicographic order (`str::cmp`) ---

  predicate Below(a: string, b: string) {
    b != [] && (a == [] || a[0] < b[0] || (a[0] == b[0] && Below(a[1..], b[1..])))
  }

  lemma {:induction false} BelowTotal(a: string, b: string)
    ensures Below(a, b) || a == b || Below(b, a)
  {
    if a != [] && b != [] && a[0] == b[0] {
      BelowTotal(a[1..], b[1..]);
      assert a == [a[0]] + a[1..] && b == [b[0]] + b[1..];
    }
  }

  lemma {:induction false} BelowTransitive(a: string, b: string, c: string)
    requires Below(a, b) && Below(b, c)
    ensures Below(a, c)
  {
    if a != [] && a[0] == b[0] && b[0] == c[0] {
      BelowTransitive(a[1..], b[1..], c[1..]);
    }
  }

  lemma {:induction false} BelowIrreflexive(a: string)
    ensures !Below(a, a)
  {
    if a != [] {
      BelowIrreflexive(a[1..]);
    }
  }
}
