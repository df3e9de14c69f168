/** String rules shared by the alias tables, the year keys and the slide titles:
    noise stripping, decimal rendering of years, ordering of keys and splitting on "_". */
module Text {

  // ---------------------------------------------------------------------------
  // Noise characters: the regular expression `[*↑↓()（、）/▲\s]`
  // ---------------------------------------------------------------------------

  /** `\s` of the ICU regular-expression engine: tab, line feed, form feed,
      carriage return and every character of the Unicode separator category Z. */
  predicate IsWhitespace(c: char) {
    c == '\t' || c == '\n' || c == '\U{000C}' || c == '\r'
    || c == ' ' || c == '\U{00A0}' || c == '\U{1680}'
    || ('\U{2000}' <= c <= '\U{200A}')
    || c == '\U{2028}' || c == '\U{2029}' || c == '\U{202F}' || c == '\U{205F}'
    || c == '\U{3000}'
  }

  /** One character the alias normaliser strips. */
  predicate IsNoise(c: char) {
    c in "*↑↓()（、）/▲" || IsWhitespace(c)
  }

  /** `name.range(of: pattern, options: .regularExpression) != nil` */
  predicate HasNoise(s: string) {
    exists i :: 0 <= i < |s| && IsNoise(s[i])
  }

  /** `replacingOccurrences(of: pattern, with: "", options: .regularExpression)`:
      the name with every noise character removed, the others kept in order. */
  function Clean(s: string): (r: string)
    ensures |r| <= |s|
    ensures !HasNoise(r)
    ensures forall c :: c in r ==> c in s
  {
    if s == [] then []
    else if IsNoise(s[0]) then Clean(s[1..])
    else [s[0]] + Clean(s[1..])
  }

  /** Cleaning distributes over concatenation: it acts character by character. */
  lemma {:induction false} CleanConcat(a: string, b: string)
    ensures Clean(a + b) == Clean(a) + Clean(b)
    decreases |a|
  {
    if a == [] {
      assert a + b == b;
    } else {
      assert (a + b)[1..] == a[1..] + b;
      CleanConcat(a[1..], b);
    }
  }

  /** A name is left unchanged by cleaning exactly when it holds no noise. */
  lemma {:induction false} CleanFixpoint(s: string)
    ensures Clean(s) == s <==> !HasNoise(s)
    decreases |s|
  {
    if s != [] {
      CleanFixpoint(s[1..]);
      if IsNoise(s[0]) {
        assert |Clean(s)| <= |s[1..]| < |s|;
      } else if !HasNoise(s) {
        assert !HasNoise(s[1..]) by {
          forall i | 0 <= i < |s[1..]| ensures !IsNoise(s[1..][i]) {
            assert s[1..][i] == s[i + 1];
          }
        }
        assert s == [s[0]] + s[1..];
      } else {
        var i :| 0 <= i < |s| && IsNoise(s[i]);
        assert i > 0;
        assert s[1..][i - 1] == s[i];
      }
    }
  }

  /** Cleaning is idempotent. */
  lemma CleanIdempotent(s: string)
    ensures Clean(Clean(s)) == Clean(s)
  {
    CleanFixpoint(Clean(s));
  }

  // ---------------------------------------------------------------------------
  // Removing one character (the "_"-only normaliser)
  // ---------------------------------------------------------------------------

  /** `replacingOccurrences(of: String(c), with: "")` */
  function RemoveChar(s: string, c: char): (r: string)
    ensures c !in r
    ensures |r| <= |s|
    ensures forall d :: d in s && d != c ==> d in r
  {
    if s == [] then []
    else if s[0] == c then RemoveChar(s[1..], c)
    else [s[0]] + RemoveChar(s[1..], c)
  }

  // ---------------------------------------------------------------------------
  // Prefixes, suffixes and lexicographic order
  // ---------------------------------------------------------------------------

  predicate StartsWith(s: string, p: string) {
    |p| <= |s| && s[..|p|] == p
  }

  predicate EndsWith(s: string, p: string) {
    |p| <= |s| && s[|s| - |p|..] == p
  }

  /** Swift's `<` on strings made of code points compared one by one: a proper prefix
      comes first, otherwise the first differing character decides. */
  predicate StrLt(a: string, b: string)
    decreases |a|
  {
    if a == [] then b != []
    else b != [] && (a[0] < b[0] || (a[0] == b[0] && StrLt(a[1..], b[1..])))
  }

  lemma {:induction false} StrLtIrreflexive(a: string)
    ensures !StrLt(a, a)
    decreases |a|
  {
    if a != [] {
      StrLtIrreflexive(a[1..]);
    }
  }

  lemma {:induction false} StrLtTransitive(a: string, b: string, c: string)
    requires StrLt(a, b) && StrLt(b, c)
    ensures StrLt(a, c)
    decreases |a|
  {
    if a != [] && a[0] == b[0] && b[0] == c[0] {
      StrLtTransitive(a[1..], b[1..], c[1..]);
    }
  }

  lemma {:induction false} StrLtTotal(a: string, b: string)
    requires a != b
    ensures StrLt(a, b) || StrLt(b, a)
    decreases |a|
  {
    if a != [] && b != [] && a[0] == b[0] {
      assert a == [a[0]] + a[1..] && b == [b[0]] + b[1..];
      StrLtTotal(a[1..], b[1..]);
    }
  }

  // ---------------------------------------------------------------------------
  // Decimal rendering of integers: `"\(n)"`
  // ---------------------------------------------------------------------------

  predicate IsDigit(c: char) {
    '0' <= c <= '9'
  }

  function DigitChar(d: nat): (c: char)
    requires d < 10
    ensures IsDigit(c)
  {
    (48 + d) as char
  }

  function DigitValue(c: char): (d: nat)
    requires IsDigit(c)
    ensures d < 10
  {
    c as int - 48
  }

  /** The decimal digits of `n`, without leading zeros. */
  function NatToString(n: nat): (r: string)
    ensures |r| >= 1
    ensures forall i :: 0 <= i < |r| ==> IsDigit(r[i])
    decreases n
  {
    if n < 10 then [DigitChar(n)] else NatToString(n / 10) + [DigitChar(n % 10)]
  }

  /** The value of a non-empty string of decimal digits. */
  function ParseNat(s: string): nat
    requires |s| >= 1
    requires forall i :: 0 <= i < |s| ==> IsDigit(s[i])
    decreases |s|
  {
    if |s| == 1 then DigitValue(s[0])
    else ParseNat(s[..|s| - 1]) * 10 + DigitValue(s[|s| - 1])
  }

  lemma {:induction false} NatToStringRoundTrip(n: nat)
    ensures ParseNat(NatToString(n)) == n
    decreases n
  {
    if n >= 10 {
      var r := NatToString(n);
      assert r[..|r| - 1] == NatToString(n / 10);
      NatToStringRoundTrip(n / 10);
    }
  }

  /** An optional minus sign, then one or more decimal digits. */
  predicate IsIntText(s: string) {
    |s| >= 1
    && (s[0] == '-' ==> |s| >= 2 && forall i :: 1 <= i < |s| ==> IsDigit(s[i]))
    && (s[0] != '-' ==> forall i :: 0 <= i < |s| ==> IsDigit(s[i]))
  }

  /** `"\(n)"` for a Swift `Int`. */
  function IntToString(n: int): (r: string)
    ensures |r| >= 1 && IsIntText(r)
    ensures r[0] == '-' <==> n < 0
  {
    if n < 0 then
      var digits := NatToString(-n);
      assert ("-" + digits)[1..] == digits;
      "-" + digits
    else NatToString(n)
  }

  /** Reads back a rendered integer. */
  function ParseInt(s: string): int
    requires IsIntText(s)
  {
    if s[0] == '-' then -(ParseNat(s[1..]) as int) else ParseNat(s)
  }

  lemma IntToStringRoundTrip(n: int)
    ensures ParseInt(IntToString(n)) == n
  {
    var r := IntToString(n);
    if n < 0 {
      assert r[1..] == NatToString(-n);
      NatToStringRoundTrip(-n);
    } else {
      assert IsDigit(r[0]);
      NatToStringRoundTrip(n);
    }
  }

  /** Distinct integers render to distinct strings. */
  lemma IntToStringInjective(a: int, b: int)
    requires IntToString(a) == IntToString(b)
    ensures a == b
  {
    IntToStringRoundTrip(a);
    IntToStringRoundTrip(b);
  }

  // ---------------------------------------------------------------------------
  // `split(separator:)`, which omits empty pieces
  // ---------------------------------------------------------------------------

  /** The pieces of `s` between separators, given the piece `cur` already begun. */
  function SplitFrom(s: string, sep: char, cur: string): (r: seq<string>)
    requires sep !in cur
    ensures forall i :: 0 <= i < |r| ==> r[i] != [] && sep !in r[i]
    decreases |s|
  {
    if s == [] then (if cur == [] then [] else [cur])
    else if s[0] == sep then (if cur == [] then [] else [cur]) + SplitFrom(s[1..], sep, [])
    else SplitFrom(s[1..], sep, cur + [s[0]])
  }

  /** Swift `s.split(separator: sep)`: the non-empty maximal pieces without `sep`. */
  function Split(s: string, sep: char): (r: seq<string>)
    ensures forall i :: 0 <= i < |r| ==> r[i] != [] && sep !in r[i]
  {
    SplitFrom(s, sep, [])
  }

  lemma {:induction false} SplitFromAtSeparator(a: string, sep: char, cur: string, b: string)
    requires sep !in cur
    ensures SplitFrom(a + [sep] + b, sep, cur) == SplitFrom(a, sep, cur) + SplitFrom(b, sep, [])
    decreases |a|
  {
    if a == [] {
      assert a + [sep] + b == [sep] + b;
      assert ([sep] + b)[1..] == b;
    } else {
      assert (a + [sep] + b)[1..] == a[1..] + [sep] + b;
      if a[0] == sep {
        SplitFromAtSeparator(a[1..], sep, [], b);
      } else {
        SplitFromAtSeparator(a[1..], sep, cur + [a[0]], b);
      }
    }
  }

  /** Splitting at a separator splits the two sides independently. */
  lemma SplitAtSeparator(a: string, sep: char, b: string)
    ensures Split(a + [sep] + b, sep) == Split(a, sep) + Split(b, sep)
  {
    SplitFromAtSeparator(a, sep, [], b);
  }

  lemma {:induction false} SplitFromNoSeparator(s: string, sep: char, cur: string)
    requires sep !in cur && sep !in s
    ensures SplitFrom(s, sep, cur) == (if cur + s == [] then [] else [cur + s])
    decreases |s|
  {
    if s == [] {
      assert cur + s == cur;
    } else {
      assert s[0] in s && sep !in s[1..];
      assert sep !in cur + [s[0]];
      assert cur + s == (cur + [s[0]]) + s[1..];
      SplitFromNoSeparator(s[1..], sep, cur + [s[0]]);
    }
  }

  /** A non-empty string without the separator is a single piece. */
  lemma SplitNoSeparator(s: string, sep: char)
    requires sep !in s
    ensures Split(s, sep) == (if s == [] then [] else [s])
  {
    SplitFromNoSeparator(s, sep, []);
    assert [] + s == s;
  }

  /** The pieces joined back with no separator. */
  function Concat(ss: seq<string>): string {
    if ss == [] then [] else ss[0] + Concat(ss[1..])
  }

  lemma {:induction false} ConcatAppend(a: seq<string>, b: seq<string>)
    ensures Concat(a + b) == Concat(a) + Concat(b)
    decreases |a|
  {
    if a == [] {
      assert a + b == b;
    } else {
      assert (a + b)[1..] == a[1..] + b;
      ConcatAppend(a[1..], b);
    }
  }

  function Reverse<T>(s: seq<T>): (r: seq<T>)
    ensures |r| == |s|
    ensures forall i :: 0 <= i < |s| ==> r[i] == s[|s| - 1 - i]
  {
    if s == [] then [] else Reverse(s[1..]) + [s[0]]
  }

  lemma ReverseAppend<T>(a: seq<T>, b: seq<T>)
    ensures Reverse(a + b) == Reverse(b) + Reverse(a)
  {
    assert Reverse(a + b) == Reverse(b) + Reverse(a);
  }
  // ---------------------------------------------------------------------------
  // `sorted().reversed()`: descending order
  // ---------------------------------------------------------------------------

  /** Strictly descending: each string comes after every later one. */
  predicate Descending(s: seq<string>) {
    forall i, j :: 0 <= i < j < |s| ==> StrLt(s[j], s[i])
  }

  /** `x` placed into a descending list before the first element smaller than it. */
  function InsertDesc(x: string, s: seq<string>): (r: seq<string>)
    ensures multiset(r) == multiset(s) + multiset{x}
    ensures |r| == |s| + 1
  {
    if s == [] then [x]
    else if StrLt(s[0], x) then [x] + s
    else
      assert s == [s[0]] + s[1..];
      [s[0]] + InsertDesc(x, s[1..])
  }

  lemma {:induction false} InsertDescSorted(x: string, s: seq<string>)
    requires Descending(s) && x !in s
    ensures Descending(InsertDesc(x, s))
    decreases |s|
  {
    if s == [] {
    } else if StrLt(s[0], x) {
      forall j | 0 <= j < |s| ensures StrLt(s[j], x) {
        if j > 0 {
          StrLtTransitive(s[j], s[0], x);
        }
      }
      ConsDescending(x, s);
    } else {
      assert x != s[0];
      StrLtTotal(x, s[0]);
      TailDescending(s);
      assert x !in s[1..];
      InsertDescSorted(x, s[1..]);
      var t := InsertDesc(x, s[1..]);
      forall j | 0 <= j < |t| ensures StrLt(t[j], s[0]) {
        assert t[j] in multiset(t);
        if t[j] != x {
          assert t[j] in multiset(s[1..]);
          var k :| 0 <= k < |s[1..]| && s[1..][k] == t[j];
          assert s[k + 1] == t[j];
        }
      }
      ConsDescending(s[0], t);
    }
  }

  lemma TailDescending(s: seq<string>)
    requires s != [] && Descending(s)
    ensures Descending(s[1..])
  {
    forall i, j | 0 <= i < j < |s[1..]| ensures StrLt(s[1..][j], s[1..][i]) {
      assert s[1..][j] == s[j + 1] && s[1..][i] == s[i + 1];
    }
  }

  /** A string above every element of a descending list can go in front of it. */
  lemma ConsDescending(h: string, t: seq<string>)
    requires Descending(t) && forall j :: 0 <= j < |t| ==> StrLt(t[j], h)
    ensures Descending([h] + t)
  {
    var r := [h] + t;
    forall i, j | 0 <= i < j < |r| ensures StrLt(r[j], r[i]) {
      if i > 0 {
        assert r[j] == t[j - 1] && r[i] == t[i - 1];
      } else {
        assert r[j] == t[j - 1];
      }
    }
  }

  /** Insertion sort into descending order. */
  function SortDesc(s: seq<string>): (r: seq<string>)
    ensures multiset(r) == multiset(s)
    ensures |r| == |s|
  {
    if s == [] then []
    else
      assert s == [s[0]] + s[1..];
      InsertDesc(s[0], SortDesc(s[1..]))
  }

  /** A list of distinct strings sorts into a strictly descending list of the same strings. */
  lemma {:induction false} SortDescSorted(s: seq<string>)
    requires forall i, j :: 0 <= i < j < |s| ==> s[i] != s[j]
    ensures Descending(SortDesc(s))
    ensures forall x :: x in SortDesc(s) <==> x in s
    decreases |s|
  {
    if s != [] {
      assert s == [s[0]] + s[1..];
      SortDescSorted(s[1..]);
      var t := SortDesc(s[1..]);
      assert s[0] !in s[1..];
      assert s[0] !in t;
      InsertDescSorted(s[0], t);
    }
    forall x ensures x in SortDesc(s) <==> x in s {
      assert x in SortDesc(s) <==> x in multiset(SortDesc(s));
      assert x in s <==> x in multiset(s);
    }
  }
  /** Two strictly descending lists of the same strings are the same list: the order of
      the input does not matter to `sorted().reversed()`. */
  lemma {:induction false} DescendingUnique(a: seq<string>, b: seq<string>)
    requires Descending(a) && Descending(b)
    requires forall x :: x in a <==> x in b
    ensures a == b
    decreases |a|
  {
    if a != [] {
      assert a[0] in a;
    }
    if b != [] {
      assert b[0] in b;
    }
    if a != [] && b != [] {
      assert a[0] in b && b[0] in a;
      if a[0] != b[0] {
        var j :| 0 <= j < |b| && b[j] == a[0];
        var i :| 0 <= i < |a| && a[i] == b[0];
        assert StrLt(a[0], b[0]) && StrLt(b[0], a[0]);
        StrLtTransitive(a[0], b[0], a[0]);
        StrLtIrreflexive(a[0]);
      }
      forall x ensures x in a[1..] <==> x in b[1..] {
        if x in a[1..] {
          var i :| 0 <= i < |a[1..]| && a[1..][i] == x;
          assert StrLt(x, a[0]);
          if x == a[0] { StrLtIrreflexive(x); }
          assert x in b;
          assert x != b[0];
          assert b == [b[0]] + b[1..];
        }
        if x in b[1..] {
          var i :| 0 <= i < |b[1..]| && b[1..][i] == x;
          assert StrLt(x, b[0]);
          if x == b[0] { StrLtIrreflexive(x); }
          assert x in a;
          assert a == [a[0]] + a[1..];
        }
      }
      assert Descending(a[1..]) by {
        forall i, j | 0 <= i < j < |a[1..]| ensures StrLt(a[1..][j], a[1..][i]) {
          assert a[1..][j] == a[j + 1] && a[1..][i] == a[i + 1];
        }
      }
      assert Descending(b[1..]) by {
        forall i, j | 0 <= i < j < |b[1..]| ensures StrLt(b[1..][j], b[1..][i]) {
          assert b[1..][j] == b[j + 1] && b[1..][i] == b[i + 1];
        }
      }
      DescendingUnique(a[1..], b[1..]);
      assert a == [a[0]] + a[1..] && b == [b[0]] + b[1..];
    }
  }
}
