/** String helpers the program takes from Rust's standard library: `str::trim`,
    the ordering `Vec<String>::sort` uses, collecting a map's keys in sorted
    order, and the decimal rendering and parsing of unsigned integers. */
module Text {
  import opened Wrappers

  // ---------------------------------------------------------------------------
  // Trimming (`str::trim`)

  /** Rust's `char::is_whitespace`: the Unicode White_Space property. */
  predicate IsWhitespace(c: char)
  {
    ('\t' <= c <= '\r') || c == ' ' || c == '\U{85}' || c == '\U{A0}' || c == '\U{1680}'
    || ('\U{2000}' <= c <= '\U{200A}') || c == '\U{2028}' || c == '\U{2029}'
    || c == '\U{202F}' || c == '\U{205F}' || c == '\U{3000}'
  }

  predicate AllWhitespace(s: string)
  {
    forall i :: 0 <= i < |s| ==> IsWhitespace(s[i])
  }

  /** Number of white-space characters `s` starts with. */
  function LeadingSpace(s: string): (n: nat)
    ensures n <= |s|
    ensures forall i :: 0 <= i < n ==> IsWhitespace(s[i])
    ensures n < |s| ==> !IsWhitespace(s[n])
  {
    if |s| > 0 && IsWhitespace(s[0]) then 1 + LeadingSpace(s[1..]) else 0
  }

  /** Number of white-space characters `s` ends with. */
  function TrailingSpace(s: string): (n: nat)
    ensures n <= |s|
    ensures forall i :: |s| - n <= i < |s| ==> IsWhitespace(s[i])
    ensures n < |s| ==> !IsWhitespace(s[|s| - 1 - n])
  {
    if |s| > 0 && IsWhitespace(s[|s| - 1]) then 1 + TrailingSpace(s[..|s| - 1]) else 0
  }

  /** `str::trim`: `s` without its leading and trailing white space. */
  function Trim(s: string): (r: string)
    ensures |r| <= |s|
    ensures |r| > 0 ==> !IsWhitespace(r[0]) && !IsWhitespace(r[|r| - 1])
    ensures exists i, j :: 0 <= i <= j <= |s| && r == s[i..j]
                           && AllWhitespace(s[..i]) && AllWhitespace(s[j..])
  {
    var a := LeadingSpace(s);
    var t := s[a..];
    var b := |t| - TrailingSpace(t);
    assert t[..b] == s[a..a + b];
    assert AllWhitespace(s[a + b..]) by {
      assert s[a + b..] == t[b..];
    }
    t[..b]
  }

  lemma LeadingSpaceIs(s: string, k: nat)
    requires k <= |s|
    requires forall i :: 0 <= i < k ==> IsWhitespace(s[i])
    requires k < |s| ==> !IsWhitespace(s[k])
    ensures LeadingSpace(s) == k
  {
  }

  lemma TrailingSpaceIs(s: string, k: nat)
    requires k <= |s|
    requires forall i :: |s| - k <= i < |s| ==> IsWhitespace(s[i])
    requires k < |s| ==> !IsWhitespace(s[|s| - 1 - k])
    ensures TrailingSpace(s) == k
  {
  }

  /** Trimming is determined by its contract: whatever `s` is split into, a
      white-space prefix, a middle without white space at either end, and a
      white-space suffix, `Trim` returns that middle. */
  lemma TrimUnique(p: string, m: string, q: string)
    requires AllWhitespace(p) && AllWhitespace(q)
    requires |m| > 0 ==> !IsWhitespace(m[0]) && !IsWhitespace(m[|m| - 1])
    ensures Trim(p + m + q) == m
  {
    var s := p + m + q;
    if |m| == 0 {
      assert s == p + q;
      forall i | 0 <= i < |s| ensures IsWhitespace(s[i]) {
        if i < |p| { assert s[i] == p[i]; } else { assert s[i] == q[i - |p|]; }
      }
      LeadingSpaceIs(s, |s|);
    } else {
      forall i | 0 <= i < |p| ensures IsWhitespace(s[i]) { assert s[i] == p[i]; }
      assert s[|p|] == m[0];
      LeadingSpaceIs(s, |p|);
      var t := s[|p|..];
      assert t == m + q;
      forall i | |t| - |q| <= i < |t| ensures IsWhitespace(t[i]) {
        assert t[i] == q[i - (|t| - |q|)];
      }
      assert t[|t| - 1 - |q|] == m[|m| - 1];
      TrailingSpaceIs(t, |q|);
      assert t[..|t| - |q|] == m;
    }
  }

  lemma TrimIdempotent(s: string)
    ensures Trim(Trim(s)) == Trim(s)
  {
    var r := Trim(s);
    assert r == [] + r + [];
    TrimUnique([], r, []);
  }

  // ---------------------------------------------------------------------------
  // The ordering of `String` (byte-wise on UTF-8, which is code-point order)

  predicate LexLess(a: string, b: string)
  {
    if |a| == 0 then |b| > 0
    else if |b| == 0 then false
    else if a[0] != b[0] then a[0] < b[0]
    else LexLess(a[1..], b[1..])
  }

  lemma {:induction false} LexIrreflexive(a: string)
    ensures !LexLess(a, a)
  {
    if |a| > 0 { LexIrreflexive(a[1..]); }
  }

  lemma {:induction false} LexTransitive(a: string, b: string, c: string)
    requires LexLess(a, b) && LexLess(b, c)
    ensures LexLess(a, c)
  {
    if |a| > 0 && |b| > 0 && |c| > 0 && a[0] == b[0] == c[0] {
      LexTransitive(a[1..], b[1..], c[1..]);
    }
  }

  lemma {:induction false} LexTotal(a: string, b: string)
    requires a != b
    ensures LexLess(a, b) || LexLess(b, a)
  {
    if |a| > 0 && |b| > 0 && a[0] == b[0] {
      assert a == [a[0]] + a[1..] && b == [b[0]] + b[1..];
      LexTotal(a[1..], b[1..]);
    }
  }

  lemma LexAsymmetric(a: string, b: string)
    requires LexLess(a, b)
    ensures !LexLess(b, a)
  {
    if LexLess(b, a) {
      LexTransitive(a, b, a);
      LexIrreflexive(a);
    }
  }

  // ---------------------------------------------------------------------------
  // Sorted key lists (`keys().collect()` followed by `sort()`)

  /** Strictly ascending: sorted and free of duplicates. */
  predicate StrictlySorted(s: seq<string>)
  {
    forall i, j :: 0 <= i < j < |s| ==> LexLess(s[i], s[j])
  }

  /** Inserts `k` at its place in the strictly sorted `s`. */
  function Insert(s: seq<string>, k: string): (r: seq<string>)
    requires StrictlySorted(s) && k !in s
    ensures StrictlySorted(r)
    ensures |r| == |s| + 1
    ensures forall x :: x in r <==> x in s || x == k
  {
    if s == [] then [k]
    else if LexLess(k, s[0]) then
      assert forall j :: 0 < j < |s| ==> LexLess(k, s[j]) by {
        forall j | 0 < j < |s| ensures LexLess(k, s[j]) { LexTransitive(k, s[0], s[j]); }
      }
      [k] + s
    else
      var t := Insert(s[1..], k);
      LexTotal(k, s[0]);
      assert forall x :: x in t ==> LexLess(s[0], x);
      [s[0]] + t
  }

  /** The elements of `ks`, ascending. */
  ghost function SortedSet(ks: set<string>): (r: seq<string>)
    ensures StrictlySorted(r)
    ensures forall x :: x in r <==> x in ks
    decreases ks
  {
    if ks == {} then []
    else
      var k :| k in ks;
      Insert(SortedSet(ks - {k}), k)
  }

  lemma HeadIsMember(s: seq<string>)
    requires s != []
    ensures s[0] in s
  {
  }

  /** A set has exactly one ascending listing. */
  lemma {:induction false} SortedUnique(a: seq<string>, b: seq<string>)
    requires StrictlySorted(a) && StrictlySorted(b)
    requires forall x :: x in a <==> x in b
    ensures a == b
  {
    if a == [] {
      if b != [] {
        HeadIsMember(b);
        assert false;
      }
    } else {
      assert a[0] in b;
      assert b != [];
      if a[0] != b[0] {
        assert b[0] in a;
        var i :| 0 <= i < |a| && a[i] == b[0];
        var j :| 0 <= j < |b| && b[j] == a[0];
        assert i > 0 && j > 0;
        LexAsymmetric(a[0], a[i]);
        assert false;
      } else {
        forall x ensures x in a[1..] <==> x in b[1..] {
          if x in a[1..] {
            var i :| 1 <= i < |a| && a[i] == x;
            LexIrreflexive(a[0]);
            assert x != a[0];
            assert x in b;
          }
          if x in b[1..] {
            var j :| 1 <= j < |b| && b[j] == x;
            LexIrreflexive(b[0]);
            assert x != b[0];
            assert x in a;
          }
        }
        SortedUnique(a[1..], b[1..]);
      }
    }
  }

  /** The keys of `m` in ascending order. The keys are visited in whatever
      order the map hands them out, as a `HashMap` does, and each is inserted
      at its place; the result is the same whatever that order was. */
  method SortedKeys<V>(m: map<string, V>) returns (keys: seq<string>)
    ensures keys == SortedSet(m.Keys)
    ensures |keys| == |m|
  {
    var rest := m.Keys;
    keys := [];
    while rest != {}
      invariant rest <= m.Keys
      invariant StrictlySorted(keys)
      invariant forall x :: x in keys <==> x in m.Keys && x !in rest
      invariant |keys| + |rest| == |m.Keys|
      decreases rest
    {
      var k :| k in rest;
      keys := Insert(keys, k);
      rest := rest - {k};
    }
    SortedUnique(keys, SortedSet(m.Keys));
  }

  // ---------------------------------------------------------------------------
  // Unsigned decimal numbers (`to_string` and `str::parse::<u32>`/`<usize>`)

  predicate IsDigit(c: char)
  {
    '0' <= c <= '9'
  }

  predicate AllDigits(s: string)
  {
    forall i :: 0 <= i < |s| ==> IsDigit(s[i])
  }

  function DigitChar(d: nat): (c: char)
    requires d < 10
    ensures IsDigit(c) && c as int - '0' as int == d
  {
    ('0' as int + d) as char
  }

  /** The value of a string of decimal digits, most significant first. */
  function DigitsValue(s: string): nat
    requires AllDigits(s)
  {
    if s == [] then 0
    else 10 * DigitsValue(s[..|s| - 1]) + (s[|s| - 1] as int - '0' as int)
  }

  /** `n.to_string()`: the shortest decimal rendering of `n`. */
  function DecimalString(n: nat): (r: string)
    ensures |r| > 0 && AllDigits(r)
    ensures |r| > 1 ==> r[0] != '0'
  {
    if n < 10 then [DigitChar(n)]
    else DecimalString(n / 10) + [DigitChar(n % 10)]
  }

  lemma {:induction false} DecimalValue(n: nat)
    ensures DigitsValue(DecimalString(n)) == n
  {
    if n >= 10 {
      var s := DecimalString(n);
      assert s[..|s| - 1] == DecimalString(n / 10);
      DecimalValue(n / 10);
    }
  }

  /** The digits `parse::<uN>` reads: one leading `+` is dropped when
      something follows it. */
  function UnsignedDigits(s: string): string
  {
    if |s| > 1 && s[0] == '+' then s[1..] else s
  }

  /** `s.parse::<uN>()` for an unsigned type whose values are below `bound`:
      an optional `+`, then at least one ASCII digit and nothing else, with a
      value that fits. */
  function ParseUnsigned(s: string, bound: nat): (r: Option<nat>)
    ensures r.Some? ==> r.value < bound
    ensures r.Some? ==> |s| > 0 && (IsDigit(s[0]) || s[0] == '+')
    ensures r.Some? ==> AllDigits(UnsignedDigits(s)) && r.value == DigitsValue(UnsignedDigits(s))
    ensures |UnsignedDigits(s)| > 0 && AllDigits(UnsignedDigits(s)) && DigitsValue(UnsignedDigits(s)) < bound
            ==> r.Some?
  {
    var d := UnsignedDigits(s);
    if |d| > 0 && AllDigits(d) && DigitsValue(d) < bound then Some(DigitsValue(d)) else None
  }

  /** Parsing reads back what `to_string` wrote. */
  lemma ParseDecimal(n: nat, bound: nat)
    requires n < bound
    ensures ParseUnsigned(DecimalString(n), bound) == Some(n)
  {
    DecimalValue(n);
  }

  /** A rendered number that does not fit is refused, not truncated. */
  lemma ParseOverflow(n: nat, bound: nat)
    requires bound <= n
    ensures ParseUnsigned(DecimalString(n), bound) == None
  {
    DecimalValue(n);
  }

  const U32_BOUND: nat := 0x1_0000_0000
  /** `usize` on a 64-bit target. */
  const USIZE_BOUND: nat := 0x1_0000_0000_0000_0000

  type U32 = n: nat | n < U32_BOUND

  /** `s.parse::<u32>()`. */
  function ParseU32(s: string): (r: Option<U32>)
    ensures r.Some? <==> |UnsignedDigits(s)| > 0 && AllDigits(UnsignedDigits(s))
                         && DigitsValue(UnsignedDigits(s)) < U32_BOUND
    ensures r.Some? ==> r.value == DigitsValue(UnsignedDigits(s))
  {
    match ParseUnsigned(s, U32_BOUND)
    case Some(n) => Some(n)
    case None => None
  }

  lemma ParseAcceptsPlusSign()
    ensures ParseU32("+7") == Some(7)
  {
    assert UnsignedDigits("+7") == "7";
  }

  lemma ParseRefusals()
    ensures ParseU32("") == None && ParseU32("+") == None && ParseU32("-1") == None
    ensures ParseU32("12a") == None
  {
    assert !IsDigit("12a"[2]);
    assert !IsDigit("-1"[0]);
    assert !IsDigit("+"[0]);
  }

  lemma ParseRefusesOverflow()
    ensures ParseU32("4294967296") == None
  {
    assert DecimalString(4) == "4";
    assert DecimalString(42) == DecimalString(4) + "2";
    assert DecimalString(429) == DecimalString(42) + "9";
    assert DecimalString(4294) == DecimalString(429) + "4";
    assert DecimalString(42949) == DecimalString(4294) + "9";
    assert DecimalString(429496) == DecimalString(42949) + "6";
    assert DecimalString(4294967) == DecimalString(429496) + "7";
    assert DecimalString(42949672) == DecimalString(4294967) + "2";
    assert DecimalString(429496729) == DecimalString(42949672) + "9";
    assert DecimalString(4294967296) == DecimalString(429496729) + "6";
    assert DecimalString(4294967296) == "4294967296";
    ParseOverflow(4294967296, U32_BOUND);
  }
}
