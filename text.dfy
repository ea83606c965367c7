/**
 * String helpers shared by the whole model: the parts of JavaScript's
 * String API that the application relies on (toLowerCase, toUpperCase,
 * trim, includes, startsWith, endsWith, split, replace) and the decimal
 * rendering of a number.  Strings are sequences of characters.
 */
module Text {

  // ---------------------------------------------------------------------
  // Character classes
  // ---------------------------------------------------------------------

  predicate IsDigit(c: char) {
    '0' <= c <= '9'
  }

  /** The characters JavaScript's `\s` and `trim` treat as white space. */
  predicate IsWhitespace(c: char) {
    c == ' ' || c == '\t' || c == '\n' || c == '\r' || c == '\U{000B}' || c == '\U{000C}'
    || c == '\U{00A0}' || c == '\U{1680}' || ('\U{2000}' <= c <= '\U{200A}')
    || c == '\U{2028}' || c == '\U{2029}' || c == '\U{202F}' || c == '\U{205F}'
    || c == '\U{3000}' || c == '\U{FEFF}'
  }

  /** Lower-case mapping of one character: ASCII letters and the Polish letters. */
  function LowerChar(c: char): char {
    if 'A' <= c <= 'Z' then (c as int + 32) as char
    else if c == 'Ą' then 'ą'
    else if c == 'Ć' then 'ć'
    else if c == 'Ę' then 'ę'
    else if c == 'Ł' then 'ł'
    else if c == 'Ń' then 'ń'
    else if c == 'Ó' then 'ó'
    else if c == 'Ś' then 'ś'
    else if c == 'Ź' then 'ź'
    else if c == 'Ż' then 'ż'
    else c
  }

  /** Upper-case mapping of one character: ASCII letters and the Polish letters. */
  function UpperChar(c: char): char {
    if 'a' <= c <= 'z' then (c as int - 32) as char
    else if c == 'ą' then 'Ą'
    else if c == 'ć' then 'Ć'
    else if c == 'ę' then 'Ę'
    else if c == 'ł' then 'Ł'
    else if c == 'ń' then 'Ń'
    else if c == 'ó' then 'Ó'
    else if c == 'ś' then 'Ś'
    else if c == 'ź' then 'Ź'
    else if c == 'ż' then 'Ż'
    else c
  }

  function Lower(s: string): (r: string)
    ensures |r| == |s|
    ensures forall i :: 0 <= i < |s| ==> r[i] == LowerChar(s[i])
  {
    seq(|s|, i requires 0 <= i < |s| => LowerChar(s[i]))
  }

  function Upper(s: string): (r: string)
    ensures |r| == |s|
    ensures forall i :: 0 <= i < |s| ==> r[i] == UpperChar(s[i])
  {
    seq(|s|, i requires 0 <= i < |s| => UpperChar(s[i]))
  }

  /** Lower-casing commutes with taking a slice. */
  lemma LowerSlice(s: string, i: nat, j: nat)
    requires i <= j <= |s|
    ensures Lower(s[i..j]) == Lower(s)[i..j]
  {
  }

  /** Case folding ignores the case a string was written in. */
  lemma LowerOfUpper(s: string)
    ensures Lower(Upper(s)) == Lower(s)
  {
    forall i | 0 <= i < |s|
      ensures Lower(Upper(s))[i] == Lower(s)[i]
    {
      var c := s[i];
      assert Lower(Upper(s))[i] == LowerChar(UpperChar(c));
    }
  }

  /**
   * `s.length` in JavaScript: UTF-16 code units, one per character of the
   * basic plane and two (a surrogate pair) for a character beyond U+FFFF.
   */
  function Utf16Length(s: string): (n: nat)
    ensures |s| <= n <= 2 * |s|
    ensures n == |s| <==> forall k :: 0 <= k < |s| ==> s[k] as int <= 0xFFFF
  {
    if s == [] then 0
    else
      var n := Utf16Length(s[1..]);
      assert forall k :: 1 <= k < |s| ==> s[k] == s[1..][k - 1];
      (if s[0] as int > 0xFFFF then 2 else 1) + n
  }

  /** A UTF-16 code unit, the element of a JavaScript string. */
  newtype CodeUnit = x: int | 0 <= x < 0x1_0000

  /**
   * The UTF-16 encoding of one character: itself in the basic plane, a
   * high then a low surrogate beyond it, and the pair decodes back to the
   * character.
   */
  function Units(c: char): (r: seq<CodeUnit>)
    ensures c as int <= 0xFFFF ==> r == [c as int as CodeUnit]
    ensures c as int > 0xFFFF ==>
              |r| == 2 && 0xD800 <= r[0] < 0xDC00 && 0xDC00 <= r[1] < 0xE000
              && (r[0] as int - 0xD800) * 0x400 + (r[1] as int - 0xDC00) + 0x1_0000 == c as int
  {
    if c as int > 0xFFFF then
      var v := c as int - 0x1_0000;
      [(0xD800 + v / 0x400) as CodeUnit, (0xDC00 + v % 0x400) as CodeUnit]
    else [c as int as CodeUnit]
  }

  /** The code units of a string, as JavaScript indexes and slices them. */
  function Utf16(s: string): (r: seq<CodeUnit>)
    ensures |r| == Utf16Length(s)
  {
    if s == [] then [] else Units(s[0]) + Utf16(s[1..])
  }

  // ---------------------------------------------------------------------
  // Substrings: includes, startsWith, endsWith, indexOf
  // ---------------------------------------------------------------------

  predicate OccursAt(s: string, pat: string, i: int) {
    0 <= i && i + |pat| <= |s| && s[i..i + |pat|] == pat
  }

  /** `s.includes(pat)` */
  predicate Contains(s: string, pat: string) {
    exists i | 0 <= i <= |s| - |pat| :: OccursAt(s, pat, i)
  }

  /** `s.startsWith(pat)` */
  predicate StartsWith(s: string, pat: string) {
    |pat| <= |s| && s[..|pat|] == pat
  }

  /** `s.endsWith(pat)` */
  predicate EndsWith(s: string, pat: string) {
    |pat| <= |s| && s[|s| - |pat|..] == pat
  }

  /** An occurrence inside a substring is an occurrence in the whole string. */
  lemma ContainsTransitive(s: string, mid: string, pat: string, i: int, j: int)
    requires OccursAt(s, mid, i) && OccursAt(mid, pat, j)
    ensures OccursAt(s, pat, i + j) && Contains(s, pat)
  {
    forall k | 0 <= k < |pat| ensures s[i + j + k] == pat[k] {
      assert pat[k] == mid[j + k];
      assert mid[j + k] == s[i + j + k];
    }
    assert s[i + j..i + j + |pat|] == pat;
    assert OccursAt(s, pat, i + j);
  }

  /** Lower-casing keeps every occurrence where it was. */
  lemma LowerKeepsOccurrence(s: string, pat: string, i: int)
    requires OccursAt(s, pat, i)
    ensures OccursAt(Lower(s), Lower(pat), i)
  {
    LowerSlice(s, i, i + |pat|);
  }

  /** `s.indexOf(pat)`: the first occurrence, or -1. */
  function IndexOf(s: string, pat: string): (r: int)
    ensures -1 <= r <= |s|
    ensures r == -1 <==> !Contains(s, pat)
    ensures r >= 0 ==> OccursAt(s, pat, r) && forall j :: 0 <= j < r ==> !OccursAt(s, pat, j)
  {
    IndexFrom(s, pat, 0)
  }

  function IndexFrom(s: string, pat: string, k: nat): (r: int)
    requires forall j :: 0 <= j < k ==> !OccursAt(s, pat, j)
    ensures -1 <= r <= |s|
    ensures r == -1 <==> !Contains(s, pat)
    ensures r >= 0 ==> OccursAt(s, pat, r) && forall j :: 0 <= j < r ==> !OccursAt(s, pat, j)
    decreases |s| + 1 - k
  {
    if k + |pat| > |s| then
      assert forall j :: 0 <= j <= |s| - |pat| ==> !OccursAt(s, pat, j);
      -1
    else if s[k..k + |pat|] == pat then
      assert OccursAt(s, pat, k);
      k
    else IndexFrom(s, pat, k + 1)
  }

  /** `s.replace(pat, rep)` with a string pattern: only the first occurrence is replaced. */
  function ReplaceFirst(s: string, pat: string, rep: string): (r: string)
  {
    var i := IndexOf(s, pat);
    if i < 0 then s else s[..i] + rep + s[i + |pat|..]
  }

  /** Replacing the first occurrence leaves every later occurrence in place. */
  lemma ReplaceFirstKeepsLaterOccurrences(s: string, pat: string, rep: string, j: int)
    requires Contains(s, pat)
    requires OccursAt(s, pat, j) && j >= IndexOf(s, pat) + |pat|
    ensures OccursAt(ReplaceFirst(s, pat, rep), pat, j - |pat| + |rep|)
  {
    var i := IndexOf(s, pat);
    var r := ReplaceFirst(s, pat, rep);
    var k := j - |pat| + |rep|;
    assert r == s[..i] + rep + s[i + |pat|..];
    assert r[k..k + |pat|] == s[j..j + |pat|];
  }

  // ---------------------------------------------------------------------
  // trim
  // ---------------------------------------------------------------------

  function TrimStart(s: string): (r: string)
    ensures |r| <= |s| && r == s[|s| - |r|..]
    ensures r == [] || !IsWhitespace(r[0])
    ensures forall k :: 0 <= k < |s| - |r| ==> IsWhitespace(s[k])
  {
    if s != [] && IsWhitespace(s[0]) then TrimStart(s[1..]) else s
  }

  function TrimEnd(s: string): (r: string)
    ensures |r| <= |s| && r == s[..|r|]
    ensures r == [] || !IsWhitespace(r[|r| - 1])
    ensures forall k :: |r| <= k < |s| ==> IsWhitespace(s[k])
  {
    if s != [] && IsWhitespace(s[|s| - 1]) then TrimEnd(s[..|s| - 1]) else s
  }

  /** `s.trim()`: the slice of `s` left once white space is removed from both ends. */
  function Trim(s: string): (r: string)
    ensures OccursAt(s, r, |s| - |TrimStart(s)|)
    ensures r == [] || (!IsWhitespace(r[0]) && !IsWhitespace(r[|r| - 1]))
    ensures r == [] <==> forall k :: 0 <= k < |s| ==> IsWhitespace(s[k])
  {
    var t := TrimStart(s);
    var r := TrimEnd(t);
    PrefixOfSuffixOccurs(s, |s| - |t|, t, r);
    TrimmedBlank(s, t, r);
    r
  }

  /** A prefix of a suffix of `s` occurs in `s` where the suffix starts. */
  lemma PrefixOfSuffixOccurs(s: string, i: int, t: string, r: string)
    requires 0 <= i <= |s| && t == s[i..] && |r| <= |t| && r == t[..|r|]
    ensures OccursAt(s, r, i)
  {
    assert s[i..i + |r|] == s[i..][..|r|];
  }

  lemma TrimmedBlank(s: string, t: string, r: string)
    requires t == TrimStart(s) && r == TrimEnd(t)
    ensures r == [] <==> forall k :: 0 <= k < |s| ==> IsWhitespace(s[k])
  {
  }

  /** Every character of a trimmed string comes from the original. */
  lemma TrimChars(s: string, c: char)
    requires c in Trim(s)
    ensures c in s
  {
    var r := Trim(s);
    var i := |s| - |TrimStart(s)|;
    var k :| 0 <= k < |r| && r[k] == c;
    assert s[i + k] == c;
  }

  lemma TrimStartFixed(s: string)
    requires s == [] || !IsWhitespace(s[0])
    ensures TrimStart(s) == s
  {
  }

  lemma TrimEndFixed(s: string)
    requires s == [] || !IsWhitespace(s[|s| - 1])
    ensures TrimEnd(s) == s
  {
  }

  /** Trimming twice is trimming once. */
  lemma TrimIdempotent(s: string)
    ensures Trim(Trim(s)) == Trim(s)
  {
    TrimFixed(Trim(s));
  }

  /** A string without white space at either end is its own trim. */
  lemma TrimFixed(r: string)
    requires r == [] || (!IsWhitespace(r[0]) && !IsWhitespace(r[|r| - 1]))
    ensures Trim(r) == r
  {
    TrimStartFixed(r);
    TrimEndFixed(r);
    assert Trim(r) == TrimEnd(TrimStart(r));
  }

  /** Trimming keeps an occurrence of a pattern that neither starts nor ends with white space. */
  lemma TrimKeepsOccurrence(s: string, pat: string, j: int)
    requires OccursAt(s, pat, j) && pat != []
    requires !IsWhitespace(pat[0]) && !IsWhitespace(pat[|pat| - 1])
    ensures Contains(Trim(s), pat)
  {
    var t := TrimStart(s);
    var i := |s| - |t|;
    assert s[j] == pat[0];
    OccursInSuffix(s, i, t, pat, j);
    TrimEndKeepsOccurrence(t, pat, j - i);
  }

  /** An occurrence at or after the start of a suffix is an occurrence in the suffix. */
  lemma OccursInSuffix(s: string, i: int, t: string, pat: string, j: int)
    requires 0 <= i <= j && i <= |s| && t == s[i..] && OccursAt(s, pat, j)
    ensures OccursAt(t, pat, j - i)
  {
    assert t[j - i..j - i + |pat|] == s[j..j + |pat|];
  }

  lemma TrimEndKeepsOccurrence(t: string, pat: string, j: int)
    requires OccursAt(t, pat, j) && pat != []
    requires !IsWhitespace(pat[|pat| - 1])
    ensures Contains(TrimEnd(t), pat)
  {
    var r := TrimEnd(t);
    assert t[j + |pat| - 1] == pat[|pat| - 1];
    assert j + |pat| <= |r|;
    assert r[j..j + |pat|] == t[j..j + |pat|];
    assert OccursAt(r, pat, j);
  }

  // ---------------------------------------------------------------------
  // split and join
  // ---------------------------------------------------------------------

  /** `s.split(sep)` for a one-character separator. */
  function Split(s: string, sep: char): (r: seq<string>)
    ensures |r| >= 1
  {
    if s == [] then [""]
    else
      var rest := Split(s[1..], sep);
      if s[0] == sep then [""] + rest else [[s[0]] + rest[0]] + rest[1..]
  }

  function Join(parts: seq<string>, sep: string): string
  {
    if parts == [] then ""
    else if |parts| == 1 then parts[0]
    else parts[0] + sep + Join(parts[1..], sep)
  }

  /** One step of `split`: a separator in front ends an empty first piece... */
  lemma SplitConsSep(t: string, sep: char)
    ensures Split([sep] + t, sep) == [""] + Split(t, sep)
  {
    assert ([sep] + t)[0] == sep && ([sep] + t)[1..] == t;
  }

  /** ...and any other character extends the first piece. */
  lemma SplitConsOther(c: char, t: string, sep: char)
    requires c != sep
    ensures Split([c] + t, sep) == [[c] + Split(t, sep)[0]] + Split(t, sep)[1..]
  {
    assert ([c] + t)[0] == c && ([c] + t)[1..] == t;
  }

  lemma JoinCons(x: string, rest: seq<string>, sep: string)
    requires rest != []
    ensures Join([x] + rest, sep) == x + sep + Join(rest, sep)
  {
    assert ([x] + rest)[0] == x && ([x] + rest)[1..] == rest;
  }

  /** Extending the first piece by a character extends the joined string by it. */
  lemma JoinExtendFirst(c: char, rest: seq<string>, sep: string)
    requires rest != []
    ensures Join([[c] + rest[0]] + rest[1..], sep) == [c] + Join(rest, sep)
  {
    if |rest| > 1 {
      JoinCons([c] + rest[0], rest[1..], sep);
      JoinCons(rest[0], rest[1..], sep);
      assert [rest[0]] + rest[1..] == rest;
    }
  }

  /** Splitting and joining back with the same separator gives the string back. */
  lemma {:induction false} SplitJoin(s: string, sep: char)
    ensures Join(Split(s, sep), [sep]) == s
  {
    if s != [] {
      var t := s[1..];
      assert s == [s[0]] + t;
      SplitJoin(t, sep);
      var rest := Split(t, sep);
      if s[0] == sep {
        SplitConsSep(t, sep);
        JoinCons("", rest, [sep]);
      } else {
        SplitConsOther(s[0], t, sep);
        JoinExtendFirst(s[0], rest, [sep]);
      }
    }
  }

  /** No piece of a split contains the separator. */
  lemma {:induction false} SplitPiecesAvoidSeparator(s: string, sep: char, k: int)
    requires 0 <= k < |Split(s, sep)|
    ensures sep !in Split(s, sep)[k]
  {
    if s != [] {
      var rest := Split(s[1..], sep);
      if s[0] == sep {
        if k > 0 { SplitPiecesAvoidSeparator(s[1..], sep, k - 1); }
      } else {
        if k == 0 {
          SplitPiecesAvoidSeparator(s[1..], sep, 0);
        } else {
          SplitPiecesAvoidSeparator(s[1..], sep, k);
        }
      }
    }
  }

  /** Splitting a concatenation around a separator splits each side. */
  lemma {:induction false} SplitAround(a: string, sep: char, b: string)
    ensures Split(a + [sep] + b, sep) == Split(a, sep) + Split(b, sep)
  {
    if a == [] {
      assert a + [sep] + b == [sep] + b;
      SplitConsSep(b, sep);
    } else {
      var a' := a[1..];
      assert a + [sep] + b == [a[0]] + (a' + [sep] + b);
      assert a == [a[0]] + a';
      SplitAround(a', sep, b);
      SplitAroundStep(a[0], a' + [sep] + b, a', sep, Split(b, sep));
    }
  }

  /** The inductive step of SplitAround: one more character in front of both sides. */
  lemma SplitAroundStep(c: char, t: string, a: string, sep: char, rb: seq<string>)
    requires Split(t, sep) == Split(a, sep) + rb
    ensures Split([c] + t, sep) == Split([c] + a, sep) + rb
  {
    if c == sep {
      SplitAroundSep(t, a, sep, rb);
    } else {
      SplitAroundOther(c, t, a, sep, rb);
    }
  }

  lemma SplitAroundSep(t: string, a: string, sep: char, rb: seq<string>)
    requires Split(t, sep) == Split(a, sep) + rb
    ensures Split([sep] + t, sep) == Split([sep] + a, sep) + rb
  {
    SplitConsSep(t, sep);
    SplitConsSep(a, sep);
    var ra := Split(a, sep);
    assert [""] + (ra + rb) == ([""] + ra) + rb;
  }

  lemma SplitAroundOther(c: char, t: string, a: string, sep: char, rb: seq<string>)
    requires c != sep
    requires Split(t, sep) == Split(a, sep) + rb
    ensures Split([c] + t, sep) == Split([c] + a, sep) + rb
  {
    SplitConsOther(c, t, sep);
    SplitConsOther(c, a, sep);
    var ra := Split(a, sep);
    ConsFirstPiece([c], ra, rb);
  }

  /** Extending the first piece commutes with appending more pieces. */
  lemma ConsFirstPiece(p: string, ra: seq<string>, rb: seq<string>)
    requires ra != []
    ensures [p + (ra + rb)[0]] + (ra + rb)[1..] == ([p + ra[0]] + ra[1..]) + rb
  {
    assert (ra + rb)[0] == ra[0];
    assert (ra + rb)[1..] == ra[1..] + rb;
  }

  /** `s.split(/\s+/)`: the pieces between maximal runs of white space. */
  function SplitWhitespace(s: string): (r: seq<string>)
    ensures |r| >= 1
  {
    if s == [] then [""]
    else
      var rest := SplitWhitespace(s[1..]);
      if IsWhitespace(s[0]) then
        (if |s| > 1 && IsWhitespace(s[1]) then rest else [""] + rest)
      else [[s[0]] + rest[0]] + rest[1..]
  }

  /** The pieces of a whitespace split hold no white space and only characters of the input. */
  lemma {:induction false} SplitWhitespaceChars(s: string, k: int, c: char)
    requires 0 <= k < |SplitWhitespace(s)| && c in SplitWhitespace(s)[k]
    ensures c in s && !IsWhitespace(c)
  {
    if s != [] {
      var rest := SplitWhitespace(s[1..]);
      if IsWhitespace(s[0]) {
        if |s| > 1 && IsWhitespace(s[1]) {
          SplitWhitespaceChars(s[1..], k, c);
        } else {
          SplitWhitespaceChars(s[1..], k - 1, c);
        }
      } else if k == 0 {
        if c != s[0] {
          SplitWhitespaceChars(s[1..], 0, c);
        }
      } else {
        SplitWhitespaceChars(s[1..], k, c);
      }
    }
  }

  /** Appending after a slice point shows up at the end of the slice. */
  lemma SliceOfAppend<T>(a: seq<T>, x: T, i: nat)
    requires i <= |a|
    ensures (a + [x])[i..] == a[i..] + [x]
  {
  }

  lemma TakeOneMore<T>(s: seq<T>, i: nat)
    requires i < |s|
    ensures s[..i + 1] == s[..i] + [s[i]]
  {
  }

  lemma AppendAssociates<T>(a: seq<T>, b: seq<T>, c: seq<T>)
    ensures a + b + c == a + (b + c)
  {
  }

  /** `xs.flatMap(f)`: the results of `f` on each element, concatenated in order. */
  function FlatMap<T, U>(xs: seq<T>, f: T -> seq<U>): seq<U> {
    if xs == [] then [] else f(xs[0]) + FlatMap(xs[1..], f)
  }

  lemma {:induction false} FlatMapAppend<T, U>(a: seq<T>, b: seq<T>, f: T -> seq<U>)
    ensures FlatMap(a + b, f) == FlatMap(a, f) + FlatMap(b, f)
  {
    if a == [] {
      assert a + b == b;
      assert FlatMap(a, f) == [];
      assert [] + FlatMap(b, f) == FlatMap(b, f);
    } else {
      var ab := a + b;
      assert ab[0] == a[0];
      assert ab[1..] == a[1..] + b;
      FlatMapAppend(a[1..], b, f);
      assert FlatMap(ab, f) == f(a[0]) + FlatMap(a[1..] + b, f);
      assert FlatMap(a, f) == f(a[0]) + FlatMap(a[1..], f);
    }
  }

  /** An element of a flat map comes from the image of some element, and every image is part of it. */
  lemma {:induction false} FlatMapMembers<T, U>(xs: seq<T>, f: T -> seq<U>, y: U)
    ensures y in FlatMap(xs, f) <==> exists j :: 0 <= j < |xs| && y in f(xs[j])
  {
    if xs != [] {
      FlatMapMembers(xs[1..], f, y);
      assert FlatMap(xs, f) == f(xs[0]) + FlatMap(xs[1..], f);
      if exists j :: 0 <= j < |xs| && y in f(xs[j]) {
        var j :| 0 <= j < |xs| && y in f(xs[j]);
        if j > 0 {
          assert xs[1..][j - 1] == xs[j];
        }
      }
      if exists j :: 0 <= j < |xs[1..]| && y in f(xs[1..][j]) {
        var j :| 0 <= j < |xs[1..]| && y in f(xs[1..][j]);
        assert xs[1..][j] == xs[j + 1];
      }
    }
  }

  // ---------------------------------------------------------------------
  // Character-wise rewriting
  // ---------------------------------------------------------------------

  /** `s.replace(/[...]/g, '')`: drop every character of the class. */
  function RemoveChars(s: string, drop: set<char>): (r: string)
    ensures forall c :: c in r <==> c in s && c !in drop
  {
    if s == [] then ""
    else (if s[0] in drop then "" else [s[0]]) + RemoveChars(s[1..], drop)
  }

  /** `s.replace(/c/g, rep)`: every occurrence of the character becomes `rep`. */
  function ReplaceChar(s: string, c: char, rep: string): (r: string)
    ensures c !in rep ==> c !in r
    ensures forall d :: d in r ==> d in s || d in rep
  {
    if s == [] then ""
    else (if s[0] == c then rep else [s[0]]) + ReplaceChar(s[1..], c, rep)
  }

  function CountChar(s: string, c: char): nat
  {
    if s == [] then 0 else (if s[0] == c then 1 else 0) + CountChar(s[1..], c)
  }

  lemma {:induction false} CountCharAppend(a: string, b: string, c: char)
    ensures CountChar(a + b, c) == CountChar(a, c) + CountChar(b, c)
  {
    if a == [] {
      assert a + b == b;
    } else {
      assert (a + b)[0] == a[0];
      assert (a + b)[1..] == a[1..] + b;
      CountCharAppend(a[1..], b, c);
    }
  }

  lemma {:induction false} CountCharAbsent(s: string, c: char)
    requires c !in s
    ensures CountChar(s, c) == 0
  {
    if s != [] {
      CountCharAbsent(s[1..], c);
    }
  }

  lemma {:induction false} CountCharPresent(s: string, c: char)
    requires c in s
    ensures CountChar(s, c) >= 1
  {
    if s[0] != c {
      assert s == [s[0]] + s[1..];
      CountCharPresent(s[1..], c);
    }
  }

  /** A split gives one piece more than there are separators. */
  lemma {:induction false} SplitPieces(s: string, sep: char)
    ensures |Split(s, sep)| == CountChar(s, sep) + 1
  {
    if s != [] {
      SplitPieces(s[1..], sep);
    }
  }

  // ---------------------------------------------------------------------
  // Numbers
  // ---------------------------------------------------------------------

  function DigitChar(d: nat): char
    requires d < 10
  {
    ('0' as int + d) as char
  }

  /** Length of the run of digits that starts the string. */
  function DigitRun(s: string): (n: nat)
    ensures n <= |s|
    ensures forall k :: 0 <= k < n ==> IsDigit(s[k])
    ensures n < |s| ==> !IsDigit(s[n])
  {
    if s != [] && IsDigit(s[0]) then 1 + DigitRun(s[1..]) else 0
  }

  /** `n.toString()` for a non-negative integer. */
  function Decimal(n: nat): (r: string)
    ensures |r| >= 1
    ensures forall k :: 0 <= k < |r| ==> IsDigit(r[k])
  {
    if n < 10 then [DigitChar(n)] else Decimal(n / 10) + [DigitChar(n % 10)]
  }

  /** Different numbers are written differently. */
  lemma {:induction false} DecimalInjective(a: nat, b: nat)
    requires Decimal(a) == Decimal(b)
    ensures a == b
  {
    if a < 10 && b < 10 {
      assert Decimal(a)[0] == Decimal(b)[0];
    } else if a >= 10 && b >= 10 {
      var da := Decimal(a);
      var db := Decimal(b);
      assert da[|da| - 1] == db[|db| - 1];
      assert da[..|da| - 1] == Decimal(a / 10);
      assert db[..|db| - 1] == Decimal(b / 10);
      DecimalInjective(a / 10, b / 10);
    }
  }

  /** A number of at least 10^k has more than k digits. */
  lemma {:induction false} DecimalLength(n: nat, k: nat)
    requires n >= Pow10(k)
    ensures |Decimal(n)| > k
  {
    if k > 0 {
      assert n >= 10;
      DivPow10(n, k);
      DecimalLength(n / 10, k - 1);
    }
  }

  function Pow10(k: nat): (r: nat)
    ensures r >= 1
  {
    if k == 0 then 1 else 10 * Pow10(k - 1)
  }

  lemma DivPow10(n: nat, k: nat)
    requires k > 0 && n >= Pow10(k)
    ensures n / 10 >= Pow10(k - 1)
  {
  }

  /** `s.slice(-k)`: the last k characters, or all of them when there are fewer. */
  function LastChars(s: string, k: nat): (r: string)
    ensures |r| == if |s| < k then |s| else k
    ensures r == s[|s| - |r|..]
  {
    if |s| <= k then s else s[|s| - k..]
  }
}
