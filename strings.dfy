/**
 * The Python string operations the message engine relies on, written out over
 * `seq<char>`: `str.split()` (whitespace tokens), `str.split(sep)`, `sep.join`,
 * `str.replace`, `str.startswith`, the `<` order on `str` used by `sorted`,
 * `str(n)` for a natural number and `int(s)`.
 */
module Strings {

  import opened Optional

  /** The characters for which Python's `str.isspace()` holds. */
  predicate IsSpace(c: char) {
    var n := c as int;
    || n == 0x20 || 0x09 <= n <= 0x0D || 0x1C <= n <= 0x1F
    || n == 0x85 || n == 0xA0 || n == 0x1680 || 0x2000 <= n <= 0x200A
    || n == 0x2028 || n == 0x2029 || n == 0x202F || n == 0x205F || n == 0x3000
  }

  predicate NoSpace(w: string) {
    forall i :: 0 <= i < |w| ==> !IsSpace(w[i])
  }

  lemma NoSpaceHasNoBlank(w: string)
    requires NoSpace(w)
    ensures ' ' !in w
  {
    assert IsSpace(' ');
  }

  predicate StartsWith(s: string, prefix: string) {
    |prefix| <= |s| && s[..|prefix|] == prefix
  }

  function Elems<T>(xs: seq<T>): set<T> {
    set x | x in xs
  }

  lemma ElemsCons<T>(h: T, t: seq<T>)
    ensures Elems([h] + t) == {h} + Elems(t)
  {
    assert forall y :: y in [h] + t <==> y == h || y in t;
  }

  lemma ElemsEmpty<T>(xs: seq<T>)
    ensures Elems(xs) == {} ==> xs == []
  {
    if xs != [] {
      assert xs[0] in Elems(xs);
    }
  }

  // ---------------------------------------------------------------------------
  // str.split() with no argument: maximal runs of non-whitespace characters

  /** Length of the leading run of non-whitespace characters of `s`. */
  function WordEnd(s: string): (n: nat)
    ensures n <= |s|
    ensures forall i :: 0 <= i < n ==> !IsSpace(s[i])
    ensures n < |s| ==> IsSpace(s[n])
  {
    if |s| == 0 || IsSpace(s[0]) then 0 else 1 + WordEnd(s[1..])
  }

  /** Python's `s.split()`: the whitespace-separated tokens of `s`, in order. */
  function Words(s: string): (ws: seq<string>)
    ensures forall w :: w in ws ==> |w| > 0 && NoSpace(w)
    decreases |s|
  {
    if |s| == 0 then []
    else if IsSpace(s[0]) then Words(s[1..])
    else
      var n := WordEnd(s);
      [s[..n]] + Words(s[n..])
  }

  lemma {:induction false} WordEndBeforeSpace(a: string, b: string)
    ensures WordEnd(a + " " + b) == WordEnd(a)
    decreases |a|
  {
    var s := a + " " + b;
    if |a| == 0 {
      assert IsSpace(s[0]);
    } else if IsSpace(a[0]) {
      assert s[0] == a[0];
    } else {
      assert s[0] == a[0];
      assert s[1..] == a[1..] + " " + b;
      WordEndBeforeSpace(a[1..], b);
    }
  }

  /** Tokenising two texts separated by a space tokenises each of them. */
  lemma {:induction false} WordsAppendSpace(a: string, b: string)
    ensures Words(a + " " + b) == Words(a) + Words(b)
    decreases |a|
  {
    var s := a + " " + b;
    if |a| == 0 {
      assert IsSpace(s[0]) && s[1..] == b;
    } else if IsSpace(a[0]) {
      assert s[0] == a[0];
      assert s[1..] == a[1..] + " " + b;
      WordsAppendSpace(a[1..], b);
    } else {
      assert s[0] == a[0];
      var n := WordEnd(a);
      WordEndBeforeSpace(a, b);
      assert s[..n] == a[..n];
      assert s[n..] == a[n..] + " " + b;
      WordsAppendSpace(a[n..], b);
    }
  }

  lemma WordsOfWord(w: string)
    requires |w| > 0 && NoSpace(w)
    ensures Words(w) == [w]
  {
    assert WordEnd(w) == |w|;
    assert w[..|w|] == w && w[|w|..] == [];
  }

  /** Joining non-empty whitespace-free tokens with single spaces and
      tokenising again gives back the tokens. */
  lemma {:induction false} WordsOfJoin(ws: seq<string>)
    requires forall w :: w in ws ==> |w| > 0 && NoSpace(w)
    ensures Words(Join(ws, " ")) == ws
  {
    if |ws| == 1 {
      WordsOfWord(ws[0]);
    } else if |ws| > 1 {
      WordsAppendSpace(ws[0], Join(ws[1..], " "));
      WordsOfWord(ws[0]);
      WordsOfJoin(ws[1..]);
    }
  }

  // ---------------------------------------------------------------------------
  // The order of Python's `str` comparison: lexicographic by code point

  predicate Less(a: string, b: string)
    decreases |a|
  {
    if |a| == 0 then |b| > 0
    else |b| > 0 && (a[0] < b[0] || (a[0] == b[0] && Less(a[1..], b[1..])))
  }

  lemma {:induction false} LessIrreflexive(a: string)
    ensures !Less(a, a)
    decreases |a|
  {
    if |a| > 0 {
      LessIrreflexive(a[1..]);
    }
  }

  lemma {:induction false} LessTransitive(a: string, b: string, c: string)
    requires Less(a, b) && Less(b, c)
    ensures Less(a, c)
    decreases |a|
  {
    if |a| > 0 && a[0] == b[0] && b[0] == c[0] {
      LessTransitive(a[1..], b[1..], c[1..]);
    }
  }

  lemma {:induction false} LessTotal(a: string, b: string)
    ensures a == b || Less(a, b) || Less(b, a)
    decreases |a|
  {
    if |a| > 0 && |b| > 0 && a[0] == b[0] {
      LessTotal(a[1..], b[1..]);
      if a[1..] == b[1..] {
        assert a == [a[0]] + a[1..] && b == [b[0]] + b[1..];
      }
    }
  }

  predicate StrictlySorted(xs: seq<string>) {
    forall i, j :: 0 <= i < j < |xs| ==> Less(xs[i], xs[j])
  }

  lemma PrependBelowAll(h: string, r: seq<string>)
    requires StrictlySorted(r)
    requires forall y :: y in r ==> Less(h, y)
    ensures StrictlySorted([h] + r)
  {
    var s := [h] + r;
    forall i, j | 0 <= i < j < |s| ensures Less(s[i], s[j]) {
      if i == 0 {
        assert s[j] == r[j - 1];
      } else {
        assert s[i] == r[i - 1] && s[j] == r[j - 1];
      }
    }
  }

  /** Inserting into a strictly sorted sequence, dropping a duplicate. */
  function Insert(x: string, xs: seq<string>): (r: seq<string>)
    requires StrictlySorted(xs)
    ensures StrictlySorted(r)
    ensures Elems(r) == Elems(xs) + {x}
    decreases |xs|
  {
    if xs == [] then [x]
    else if x == xs[0] then xs
    else if Less(x, xs[0]) then
      assert forall y :: y in xs ==> Less(x, y) by {
        forall y | y in xs ensures Less(x, y) {
          var k :| 0 <= k < |xs| && xs[k] == y;
          if k > 0 { LessTransitive(x, xs[0], y); }
        }
      }
      PrependBelowAll(x, xs);
      [x] + xs
    else
      LessTotal(x, xs[0]);
      var rest := Insert(x, xs[1..]);
      assert Elems(xs) == {xs[0]} + Elems(xs[1..]) by {
        assert xs == [xs[0]] + xs[1..];
      }
      assert forall y :: y in rest ==> Less(xs[0], y) by {
        forall y | y in rest ensures Less(xs[0], y) {
          if y != x {
            assert y in Elems(rest);
            assert y in Elems(xs[1..]);
            var k :| 0 <= k < |xs[1..]| && xs[1..][k] == y;
            assert xs[k + 1] == y;
          }
        }
      }
      PrependBelowAll(xs[0], rest);
      ElemsCons(xs[0], rest);
      [xs[0]] + rest
  }

  /** Python's `sorted(set(xs))`. */
  function SortedSet(xs: seq<string>): (r: seq<string>)
    ensures StrictlySorted(r)
    ensures Elems(r) == Elems(xs)
  {
    if xs == [] then []
    else
      assert Elems(xs) == {xs[0]} + Elems(xs[1..]) by {
        assert xs == [xs[0]] + xs[1..];
      }
      Insert(xs[0], SortedSet(xs[1..]))
  }

  lemma HeadIsLeast(a: seq<string>, y: string)
    requires StrictlySorted(a) && y in a && y != a[0]
    ensures Less(a[0], y)
  {
    var k :| 0 <= k < |a| && a[k] == y;
  }

  /** A strictly sorted sequence is determined by its set of elements. */
  lemma {:induction false} SortedUnique(a: seq<string>, b: seq<string>)
    requires StrictlySorted(a) && StrictlySorted(b)
    requires Elems(a) == Elems(b)
    ensures a == b
    decreases |a|
  {
    if a == [] {
      ElemsEmpty(b);
    } else {
      assert a[0] in Elems(a);
      assert b != [];
      assert b[0] in Elems(b);
      if a[0] != b[0] {
        HeadIsLeast(a, b[0]);
        HeadIsLeast(b, a[0]);
        LessTransitive(a[0], b[0], a[0]);
        LessIrreflexive(a[0]);
      }
      assert Elems(a[1..]) == Elems(a) - {a[0]} by {
        assert a == [a[0]] + a[1..];
        forall k | 0 <= k < |a[1..]| ensures a[1..][k] != a[0] {
          assert Less(a[0], a[k + 1]);
          assert a[1..][k] == a[k + 1];
          LessIrreflexive(a[0]);
        }
      }
      assert Elems(b[1..]) == Elems(b) - {b[0]} by {
        assert b == [b[0]] + b[1..];
        forall k | 0 <= k < |b[1..]| ensures b[1..][k] != b[0] {
          assert Less(b[0], b[k + 1]);
          assert b[1..][k] == b[k + 1];
          LessIrreflexive(b[0]);
        }
      }
      SortedUnique(a[1..], b[1..]);
      assert a == [a[0]] + a[1..] && b == [b[0]] + b[1..];
    }
  }

  // ---------------------------------------------------------------------------
  // sep.join(xs) and s.split(c)

  function Join(xs: seq<string>, sep: string): string {
    if |xs| == 0 then ""
    else if |xs| == 1 then xs[0]
    else xs[0] + sep + Join(xs[1..], sep)
  }

  /** Index of the first `c` in `s`, or `|s|` when there is none. */
  function IndexOf(s: string, c: char): (i: nat)
    ensures i <= |s|
    ensures i < |s| ==> s[i] == c
    ensures forall k :: 0 <= k < i ==> s[k] != c
  {
    if |s| == 0 then 0
    else if s[0] == c then 0
    else 1 + IndexOf(s[1..], c)
  }

  /** Python's `s.split(c)` for a one-character separator: never empty. */
  function SplitOn(s: string, c: char): (parts: seq<string>)
    ensures |parts| >= 1
    ensures forall p :: p in parts ==> c !in p
    decreases |s|
  {
    var i := IndexOf(s, c);
    if i == |s| then
      [s]
    else
      assert c !in s[..i] by {
        forall k | 0 <= k < i ensures s[..i][k] != c { }
      }
      [s[..i]] + SplitOn(s[i + 1..], c)
  }

  lemma IndexOfAbsent(s: string, c: char)
    ensures c !in s ==> IndexOf(s, c) == |s|
  {
    var i := IndexOf(s, c);
    if i < |s| {
      assert s[i] in s;
    }
  }

  lemma IndexOfAfter(a: string, c: char, b: string)
    requires c !in a
    ensures IndexOf(a + [c] + b, c) == |a|
  {
    var s := a + [c] + b;
    var i := IndexOf(s, c);
    assert s[|a|] == c;
    IndexOfAbsent(a, c);
    assert s[..|a|] == a;
    assert IndexOf(s[..|a|], c) == |a|;
  }

  /** A split at the first separator. */
  lemma SplitOnAt(a: string, c: char, b: string)
    requires c !in a
    ensures SplitOn(a + [c] + b, c) == [a] + SplitOn(b, c)
  {
    var s := a + [c] + b;
    IndexOfAfter(a, c, b);
    assert s[..|a|] == a;
    assert s[|a| + 1..] == b;
  }

  /** Splitting a join of separator-free parts gives back the parts. */
  lemma {:induction false} SplitJoin(xs: seq<string>, c: char)
    requires |xs| >= 1
    requires forall x :: x in xs ==> c !in x
    ensures SplitOn(Join(xs, [c]), c) == xs
  {
    if |xs| == 1 {
      IndexOfAbsent(xs[0], c);
    } else {
      var tail := xs[1..];
      assert forall x :: x in tail ==> c !in x;
      var rest := Join(tail, [c]);
      assert Join(xs, [c]) == xs[0] + [c] + rest;
      SplitOnAt(xs[0], c, rest);
      SplitJoin(tail, c);
      assert xs == [xs[0]] + tail;
    }
  }

  /** Joining the parts of a split gives back the string. */
  lemma {:induction false} JoinSplit(s: string, c: char)
    ensures Join(SplitOn(s, c), [c]) == s
    decreases |s|
  {
    var i := IndexOf(s, c);
    if i < |s| {
      var rest := SplitOn(s[i + 1..], c);
      JoinSplit(s[i + 1..], c);
      var parts := SplitOn(s, c);
      assert parts == [s[..i]] + rest;
      assert parts[1..] == rest;
      assert Join(parts, [c]) == s[..i] + [c] + s[i + 1..];
      assert s == s[..i] + [c] + s[i + 1..];
    }
  }

  // ---------------------------------------------------------------------------
  // str.replace(pat, with): every non-overlapping occurrence, left to right

  predicate Occurs(pat: string, s: string)
    decreases |s|
  {
    |pat| <= |s| && (s[..|pat|] == pat || (|s| > 0 && Occurs(pat, s[1..])))
  }

  function Replace(s: string, pat: string, with: string): string
    requires |pat| > 0
    decreases |s|
  {
    if |s| < |pat| then s
    else if s[..|pat|] == pat then with + Replace(s[|pat|..], pat, with)
    else [s[0]] + Replace(s[1..], pat, with)
  }

  lemma {:induction false} ReplaceAbsent(s: string, pat: string, with: string)
    requires |pat| > 0 && !Occurs(pat, s)
    ensures Replace(s, pat, with) == s
    decreases |s|
  {
    if |s| >= |pat| {
      ReplaceAbsent(s[1..], pat, with);
      assert s == [s[0]] + s[1..];
    }
  }

  lemma ReplaceLeading(pat: string, s: string, with: string)
    requires |pat| > 0
    ensures Replace(pat + s, pat, with) == with + Replace(s, pat, with)
  {
    assert (pat + s)[..|pat|] == pat;
    assert (pat + s)[|pat|..] == s;
  }

  lemma {:induction false} ReplaceCharNotIn(s: string, c: char, with: string)
    requires c !in s
    ensures Replace(s, [c], with) == s
    decreases |s|
  {
    if |s| > 0 {
      assert s[..1] == [s[0]];
      ReplaceCharNotIn(s[1..], c, with);
      assert s == [s[0]] + s[1..];
    }
  }

  /** Replacing a single character distributes over concatenation. */
  lemma {:induction false} ReplaceCharConcat(a: string, b: string, c: char, with: string)
    ensures Replace(a + b, [c], with) == Replace(a, [c], with) + Replace(b, [c], with)
    decreases |a|
  {
    if |a| > 0 {
      var s := a + b;
      assert s[..1] == a[..1] == [a[0]];
      assert s[1..] == a[1..] + b;
      ReplaceCharConcat(a[1..], b, c, with);
    } else {
      assert a + b == b;
    }
  }

  /** The first separator of `x + [c] + rest`, after a part without it. */
  lemma ReplaceAfterPart(x: string, rest: string, c: char, with: string)
    requires c !in x
    ensures Replace(x + [c] + rest, [c], with) == x + with + Replace(rest, [c], with)
  {
    ReplaceCharConcat(x + [c], rest, c, with);
    ReplaceCharConcat(x, [c], c, with);
    ReplaceCharNotIn(x, c, with);
    ReplaceLeading([c], [], with);
    assert [c] + [] == [c];
  }

  /** Replacing the separator of a join of separator-free parts: `Join(xs, with)`. */
  lemma {:induction false} ReplaceSeparator(xs: seq<string>, c: char, with: string)
    requires forall x :: x in xs ==> c !in x
    ensures Replace(Join(xs, [c]), [c], with) == Join(xs, with)
  {
    if |xs| == 1 {
      ReplaceCharNotIn(xs[0], c, with);
    } else if |xs| > 1 {
      var rest := Join(xs[1..], [c]);
      assert Join(xs, [c]) == xs[0] + [c] + rest;
      ReplaceAfterPart(xs[0], rest, c, with);
      ReplaceSeparator(xs[1..], c, with);
    }
  }

  // ---------------------------------------------------------------------------
  // str(n) for a natural number, and int(s)

  predicate IsDigit(c: char) {
    '0' <= c <= '9'
  }

  predicate AllDigits(s: string) {
    forall i :: 0 <= i < |s| ==> IsDigit(s[i])
  }

  function DigitChar(d: nat): char
    requires d < 10
  {
    (d + 0x30) as char
  }

  /** Python's `str(n)` (an f-string field) for `n >= 0`: decimal, no leading zero. */
  function NatToString(n: nat): (s: string)
    ensures |s| > 0 && AllDigits(s)
    decreases n
  {
    if n < 10 then [DigitChar(n)] else NatToString(n / 10) + [DigitChar(n % 10)]
  }

  function DigitsValue(s: string): nat
    requires AllDigits(s)
    decreases |s|
  {
    if |s| == 0 then 0
    else DigitsValue(s[..|s| - 1]) * 10 + (s[|s| - 1] as int - 0x30)
  }

  /** Python's `int(s)` on an optional sign followed by decimal digits; `None`
      stands for the ValueError it raises on anything else. */
  function ParseInt(s: string): Option<int> {
    if |s| > 1 && (s[0] == '-' || s[0] == '+') && AllDigits(s[1..]) then
      var magnitude: int := DigitsValue(s[1..]);
      Some(if s[0] == '-' then -magnitude else magnitude)
    else if |s| > 0 && AllDigits(s) then
      Some(DigitsValue(s))
    else
      None
  }

  lemma {:induction false} DigitsOfNat(n: nat)
    ensures DigitsValue(NatToString(n)) == n
    decreases n
  {
    if n >= 10 {
      var s := NatToString(n);
      assert s[..|s| - 1] == NatToString(n / 10);
      DigitsOfNat(n / 10);
    }
  }

  /** `int(str(n)) == n`. */
  lemma ParseNatToString(n: nat)
    ensures ParseInt(NatToString(n)) == Some(n)
  {
    DigitsOfNat(n);
    assert IsDigit(NatToString(n)[0]);
  }

  lemma NatToStringInjective(m: nat, n: nat)
    requires NatToString(m) == NatToString(n)
    ensures m == n
  {
    ParseNatToString(m);
    ParseNatToString(n);
  }
}
