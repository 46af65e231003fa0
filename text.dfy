/**
 * String operations the request encoders rely on, written as explicit character
 * predicates and recursive functions: ASCII case mapping, the GUID pattern,
 * Array.prototype.join, number formatting, indexOf/substring, and splitting a
 * CRLF-joined body back into its lines.
 */
module Text {

  // ---------------------------------------------------------------------------
  // Characters and case

  predicate IsHexDigit(c: char) {
    '0' <= c <= '9' || 'a' <= c <= 'f' || 'A' <= c <= 'F'
  }

  predicate IsLowerLetter(c: char) {
    'a' <= c <= 'z'
  }

  /** String.prototype.toUpperCase restricted to ASCII letters. */
  function UpperChar(c: char): char {
    if 'a' <= c <= 'z' then (c as int - 32) as char else c
  }

  /** String.prototype.toLowerCase restricted to ASCII letters. */
  function LowerChar(c: char): char {
    if 'A' <= c <= 'Z' then (c as int + 32) as char else c
  }

  function Upper(s: string): (r: string)
    ensures |r| == |s|
    ensures forall i :: 0 <= i < |s| ==> r[i] == UpperChar(s[i])
  {
    seq(|s|, i requires 0 <= i < |s| => UpperChar(s[i]))
  }

  function Lower(s: string): (r: string)
    ensures |r| == |s|
    ensures forall i :: 0 <= i < |s| ==> r[i] == LowerChar(s[i])
  {
    seq(|s|, i requires 0 <= i < |s| => LowerChar(s[i]))
  }

  predicate NoLowerLetter(s: string) {
    forall i :: 0 <= i < |s| ==> !IsLowerLetter(s[i])
  }

  /** Upper-casing leaves no lower-case letter and is idempotent. */
  lemma UpperIsNormal(s: string)
    ensures NoLowerLetter(Upper(s))
    ensures Upper(Upper(s)) == Upper(s)
  {
  }

  /** Lower-casing forgets exactly the case, so it cannot tell `s` from `Upper(s)`. */
  lemma LowerOfUpper(s: string)
    ensures Lower(Upper(s)) == Lower(s)
  {
  }

  /** On strings without lower-case letters, lower-casing loses nothing. */
  lemma LowerInjectiveOnNormal(s: string, t: string)
    requires NoLowerLetter(s) && NoLowerLetter(t)
    ensures Lower(s) == Lower(t) <==> s == t
  {
    if Lower(s) == Lower(t) {
      assert |s| == |t|;
      forall i | 0 <= i < |s| ensures s[i] == t[i] {
        assert LowerChar(s[i]) == LowerChar(t[i]);
      }
    }
  }

  // ---------------------------------------------------------------------------
  // Removing characters: value.replace(/[{}]/g, "")

  predicate IsBrace(c: char) {
    c == '{' || c == '}'
  }

  function RemoveBraces(s: string): (r: string)
    ensures forall i :: 0 <= i < |r| ==> !IsBrace(r[i])
    ensures forall c :: c in r <==> c in s && !IsBrace(c)
    ensures |r| <= |s|
  {
    if |s| == 0 then ""
    else if IsBrace(s[0]) then RemoveBraces(s[1..])
    else [s[0]] + RemoveBraces(s[1..])
  }

  lemma {:induction false} RemoveBracesNoBraces(s: string)
    requires forall i :: 0 <= i < |s| ==> !IsBrace(s[i])
    ensures RemoveBraces(s) == s
  {
    if |s| > 0 {
      RemoveBracesNoBraces(s[1..]);
    }
  }

  /** Every character other than a brace is kept as often as it occurs. */
  lemma {:induction false} RemoveBracesCounts(s: string, c: char)
    requires !IsBrace(c)
    ensures multiset(RemoveBraces(s))[c] == multiset(s)[c]
  {
    if |s| > 0 {
      assert s == [s[0]] + s[1..];
      RemoveBracesCounts(s[1..], c);
    }
  }

  lemma {:induction false} RemoveBracesAppend(s: string, t: string)
    ensures RemoveBraces(s + t) == RemoveBraces(s) + RemoveBraces(t)
  {
    if |s| == 0 {
      assert s + t == t;
    } else {
      assert (s + t)[1..] == s[1..] + t;
      RemoveBracesAppend(s[1..], t);
    }
  }

  // ---------------------------------------------------------------------------
  // The GUID pattern /^[0-9a-fA-F]{8}-[0-9a-fA-F]{4}-[0-9a-fA-F]{4}-[0-9a-fA-F]{4}-[0-9a-fA-F]{12}$/

  predicate AllHex(s: string) {
    forall i :: 0 <= i < |s| ==> IsHexDigit(s[i])
  }

  /** `s` is a run of `sizes[0]` hex digits, then for each further size a dash and that many hex digits. */
  predicate HexGroups(s: string, sizes: seq<nat>)
    requires |sizes| > 0
    decreases |sizes|
  {
    var n := sizes[0];
    if |sizes| == 1 then |s| == n && AllHex(s)
    else n < |s| && AllHex(s[..n]) && s[n] == '-' && HexGroups(s[n + 1..], sizes[1..])
  }

  const GuidGroups: seq<nat> := [8, 4, 4, 4, 12]

  /** The regular expression the constructors test, read group by group. */
  predicate MatchesGuidPattern(s: string) {
    HexGroups(s, GuidGroups)
  }

  predicate IsDashPosition(i: int) {
    i == 8 || i == 13 || i == 18 || i == 23
  }

  /** The same language described position by position: 36 characters, dashes at 8, 13, 18, 23. */
  predicate IsGuidShape(s: string) {
    |s| == 36 &&
    forall i :: 0 <= i < 36 ==> if IsDashPosition(i) then s[i] == '-' else IsHexDigit(s[i])
  }

  /** A canonical GUID text: the 8-4-4-4-12 shape with no lower-case letter. */
  predicate IsCanonicalGuid(s: string) {
    IsGuidShape(s) && NoLowerLetter(s)
  }

  lemma HexGroupsLast(s: string, n: nat)
    ensures HexGroups(s, [n]) <==> |s| == n && AllHex(s)
  {
  }

  lemma HexGroupsCons(s: string, n: nat, rest: seq<nat>)
    requires |rest| > 0
    ensures HexGroups(s, [n] + rest) <==>
      n < |s| && AllHex(s[..n]) && s[n] == '-' && HexGroups(s[n + 1..], rest)
  {
    assert ([n] + rest)[1..] == rest;
  }

  function GroupsLength(sizes: seq<nat>): nat
    requires |sizes| > 0
    decreases |sizes|
  {
    if |sizes| == 1 then sizes[0] else sizes[0] + 1 + GroupsLength(sizes[1..])
  }

  /** A text matching the groups has the sum of the sizes plus one dash between each two. */
  lemma {:induction false} HexGroupsLength(s: string, sizes: seq<nat>)
    requires |sizes| > 0
    ensures HexGroups(s, sizes) ==> |s| == GroupsLength(sizes)
    decreases |sizes|
  {
    if |sizes| > 1 && sizes[0] < |s| {
      HexGroupsLength(s[sizes[0] + 1..], sizes[1..]);
    }
  }

  /** The group-by-group reading of the pattern and the positional one agree. */
  lemma GuidPatternIsShape(s: string)
    ensures MatchesGuidPattern(s) <==> IsGuidShape(s)
  {
    if |s| == 36 {
      GuidPatternGroups(s);
      if IsGuidShape(s) {
        ShapeGivesGroups(s);
      } else {
        GroupsGiveShape(s);
      }
    } else {
      HexGroupsLength(s, GuidGroups);
    }
  }

  /** On 36 characters the pattern reads as five hex runs split by dashes at 8, 13, 18 and 23. */
  lemma GuidPatternGroups(s: string)
    requires |s| == 36
    ensures MatchesGuidPattern(s) <==>
      AllHex(s[..8]) && s[8] == '-' && AllHex(s[9..13]) && s[13] == '-' && AllHex(s[14..18]) && s[18] == '-' &&
      AllHex(s[19..23]) && s[23] == '-' && AllHex(s[24..])
  {
    assert GuidGroups == [8] + [4, 4, 4, 12];
    assert [4, 4, 4, 12] == [4] + [4, 4, 12];
    assert [4, 4, 12] == [4] + [4, 12];
    assert [4, 12] == [4] + [12];
    HexGroupsCons(s, 8, [4, 4, 4, 12]);
    var s1 := s[9..];
    var s2 := s[14..];
    var s3 := s[19..];
    var s4 := s[24..];
    assert s1[5..] == s2 && s2[5..] == s3 && s3[5..] == s4;
    assert s1[..4] == s[9..13] && s2[..4] == s[14..18] && s3[..4] == s[19..23];
    assert s1[4] == s[13] && s2[4] == s[18] && s3[4] == s[23];
    HexGroupsCons(s1, 4, [4, 4, 12]);
    HexGroupsCons(s2, 4, [4, 12]);
    HexGroupsCons(s3, 4, [12]);
    HexGroupsLast(s4, 12);
  }

  lemma ShapeGivesGroups(s: string)
    requires IsGuidShape(s)
    ensures AllHex(s[..8]) && AllHex(s[9..13]) && AllHex(s[14..18]) && AllHex(s[19..23]) && AllHex(s[24..])
  {
    assert forall i :: 0 <= i < 8 ==> s[..8][i] == s[i];
    assert forall i :: 0 <= i < 4 ==> s[9..13][i] == s[9 + i];
    assert forall i :: 0 <= i < 4 ==> s[14..18][i] == s[14 + i];
    assert forall i :: 0 <= i < 4 ==> s[19..23][i] == s[19 + i];
    assert forall i :: 0 <= i < 12 ==> s[24..][i] == s[24 + i];
  }

  lemma GroupsGiveShape(s: string)
    requires |s| == 36 && !IsGuidShape(s)
    ensures !(AllHex(s[..8]) && s[8] == '-' && AllHex(s[9..13]) && s[13] == '-' && AllHex(s[14..18]) &&
              s[18] == '-' && AllHex(s[19..23]) && s[23] == '-' && AllHex(s[24..]))
  {
    var i :| 0 <= i < 36 && !(if IsDashPosition(i) then s[i] == '-' else IsHexDigit(s[i]));
    if i < 8 { assert s[..8][i] == s[i]; }
    else if 8 < i < 13 { assert s[9..13][i - 9] == s[i]; }
    else if 13 < i < 18 { assert s[14..18][i - 14] == s[i]; }
    else if 18 < i < 23 { assert s[19..23][i - 19] == s[i]; }
    else if 23 < i { assert s[24..][i - 24] == s[i]; }
  }

  /** Upper-casing keeps the 8-4-4-4-12 shape and makes it canonical. */
  lemma UpperKeepsShape(s: string)
    ensures IsGuidShape(Upper(s)) <==> IsGuidShape(s)
    ensures IsGuidShape(s) ==> IsCanonicalGuid(Upper(s))
  {
    var u := Upper(s);
    if IsGuidShape(s) {
      forall i | 0 <= i < 36 ensures if IsDashPosition(i) then u[i] == '-' else IsHexDigit(u[i]) {
        assert u[i] == UpperChar(s[i]);
      }
    }
    if IsGuidShape(u) {
      forall i | 0 <= i < 36 ensures if IsDashPosition(i) then s[i] == '-' else IsHexDigit(s[i]) {
        assert u[i] == UpperChar(s[i]);
      }
    }
    UpperIsNormal(s);
  }

  lemma GuidShapeHasNoBraces(s: string)
    requires IsGuidShape(s)
    ensures forall i :: 0 <= i < |s| ==> !IsBrace(s[i])
  {
    forall i | 0 <= i < |s| ensures !IsBrace(s[i]) {
      if IsDashPosition(i) { } else { assert IsHexDigit(s[i]); }
    }
  }

  // ---------------------------------------------------------------------------
  // Prefixes, suffixes, joining

  predicate StartsWith(s: string, p: string) {
    |p| <= |s| && s[..|p|] == p
  }

  predicate EndsWith(s: string, p: string) {
    |p| <= |s| && s[|s| - |p|..] == p
  }

  lemma EndsWithAppend(a: string, b: string)
    ensures EndsWith(a + b, b)
  {
    assert (a + b)[|a + b| - |b|..] == b;
  }

  lemma EndsWithExtend(a: string, t: string, q: string)
    ensures EndsWith(t, q) ==> EndsWith(a + t, q)
  {
    if EndsWith(t, q) {
      assert (a + t)[|a + t| - |q|..] == t[|t| - |q|..];
    }
  }

  lemma StartsWithAppend(a: string, b: string)
    ensures StartsWith(a + b, a)
  {
    assert (a + b)[..|a|] == a;
  }

  lemma ConcatAssociative(a: string, b: string, c: string)
    ensures (a + b) + c == a + (b + c)
  {
  }

  lemma StartsWithTransitive(s: string, p: string, t: string)
    requires StartsWith(s, p) && StartsWith(p, t)
    ensures StartsWith(s, t)
  {
    assert s[..|t|] == s[..|p|][..|t|];
  }

  /** Array.prototype.join: the elements with `sep` between neighbours. */
  function Join(xs: seq<string>, sep: string): string
    decreases |xs|
  {
    if |xs| == 0 then ""
    else if |xs| == 1 then xs[0]
    else xs[0] + sep + Join(xs[1..], sep)
  }

  /** Joining one more element at the end adds one separator and that element. */
  lemma {:induction false} JoinSnoc(xs: seq<string>, x: string, sep: string)
    requires |xs| > 0
    ensures Join(xs + [x], sep) == Join(xs, sep) + sep + x
    decreases |xs|
  {
    if |xs| == 1 {
      assert xs + [x] == [xs[0], x];
      JoinPair(xs[0], x, sep);
    } else {
      assert (xs + [x])[1..] == xs[1..] + [x];
      JoinSnoc(xs[1..], x, sep);
    }
  }

  /** The elements one after another, with nothing between them. */
  function Concat(xs: seq<string>): string
    decreases |xs|
  {
    if |xs| == 0 then "" else xs[0] + Concat(xs[1..])
  }

  /** Concatenating one more element at the end appends it. */
  lemma {:induction false} ConcatSnoc(xs: seq<string>, x: string)
    ensures Concat(xs + [x]) == Concat(xs) + x
    decreases |xs|
  {
    if |xs| == 0 {
      assert xs + [x] == [x];
      JoinSingleton(x, "");
    } else {
      assert (xs + [x])[1..] == xs[1..] + [x];
      ConcatSnoc(xs[1..], x);
      ConcatAssociative(xs[0], Concat(xs[1..]), x);
    }
  }

  function SumLengths(xs: seq<string>): nat
    decreases |xs|
  {
    if |xs| == 0 then 0 else |xs[0]| + SumLengths(xs[1..])
  }

  lemma {:induction false} JoinLength(xs: seq<string>, sep: string)
    requires |xs| > 0
    ensures |Join(xs, sep)| == SumLengths(xs) + (|xs| - 1) * |sep|
  {
    if |xs| > 1 {
      JoinLength(xs[1..], sep);
    }
  }

  lemma {:induction false} ConcatLength(xs: seq<string>)
    ensures |Concat(xs)| == SumLengths(xs)
  {
    if |xs| > 0 {
      ConcatLength(xs[1..]);
    }
  }

  lemma {:induction false} JoinSingleton(x: string, sep: string)
    ensures Join([x], sep) == x && Concat([x]) == x
  {
    assert [x][1..] == [];
  }

  lemma {:induction false} JoinPair(x: string, y: string, sep: string)
    ensures Join([x, y], sep) == x + sep + y
  {
    assert [x, y][1..] == [y];
    JoinSingleton(y, sep);
  }

  // ---------------------------------------------------------------------------
  // Number formatting: a template literal `${n}` for an integer n

  function DigitChar(d: nat): char
    requires d < 10
  {
    ('0' as int + d) as char
  }

  function NatToString(n: nat): (r: string)
    decreases n
    ensures |r| > 0
    ensures forall i :: 0 <= i < |r| ==> '0' <= r[i] <= '9'
  {
    if n < 10 then [DigitChar(n)] else NatToString(n / 10) + [DigitChar(n % 10)]
  }

  function IntToString(n: int): (r: string)
    ensures |r| > 0
  {
    if n < 0 then "-" + NatToString(-n) else NatToString(n)
  }

  // ---------------------------------------------------------------------------
  // indexOf and substring

  /** String.prototype.indexOf for one character, searching from `from`; -1 when absent. */
  function IndexOf(s: string, c: char, from: nat): (r: int)
    decreases |s| - from
    ensures r == -1 || (from <= r < |s| && s[r] == c)
    ensures r == -1 ==> forall k :: from <= k < |s| ==> s[k] != c
    ensures r != -1 ==> forall k :: from <= k < r ==> s[k] != c
  {
    if from >= |s| then -1 else if s[from] == c then from else IndexOf(s, c, from + 1)
  }

  /** IndexOf finds the first occurrence at or after `from`. */
  lemma IndexOfFirst(s: string, c: char, from: nat, k: nat)
    requires from <= k < |s| && s[k] == c
    requires forall j :: from <= j < k ==> s[j] != c
    ensures IndexOf(s, c, from) == k
  {
  }

  function Clamp(i: int, len: nat): nat {
    if i < 0 then 0 else if i > len then len else i
  }

  /** String.prototype.substring: both ends clamped to the string, swapped when reversed. */
  function Substring(s: string, start: int, end: int): (r: string)
    ensures |r| <= |s|
  {
    var a := Clamp(start, |s|);
    var b := Clamp(end, |s|);
    if a <= b then s[a..b] else s[b..a]
  }

  /** String.prototype.substr(0, n): the first n characters, none when n is negative. */
  function Prefix(s: string, n: int): (r: string)
    ensures |r| == Clamp(n, |s|)
    ensures r == s[..Clamp(n, |s|)]
  {
    s[..Clamp(n, |s|)]
  }

  /**
   * `s.substring(s.indexOf("(") + 1, s.indexOf(")", s.indexOf("(") + 1))`: the
   * text between the first opening parenthesis and the next closing one.
   */
  function KeyBetweenParens(s: string): (r: string)
    ensures |r| <= |s|
  {
    var start := IndexOf(s, '(', 0) + 1;
    var end := IndexOf(s, ')', start);
    Substring(s, start, end)
  }

  /** The key is recovered from `a(b)c` when `a` holds no `(` and `b` no `)`. */
  lemma KeyBetweenParensOf(a: string, b: string, c: string)
    requires forall i :: 0 <= i < |a| ==> a[i] != '('
    requires forall i :: 0 <= i < |b| ==> b[i] != ')'
    ensures KeyBetweenParens(a + "(" + b + ")" + c) == b
  {
    var s := a + "(" + b + ")" + c;
    assert s[|a|] == '(';
    assert forall j :: 0 <= j < |a| ==> s[j] == a[j];
    IndexOfFirst(s, '(', 0, |a|);
    assert s[|a| + 1 + |b|] == ')';
    assert forall j :: |a| + 1 <= j < |a| + 1 + |b| ==> s[j] == b[j - |a| - 1];
    IndexOfFirst(s, ')', |a| + 1, |a| + 1 + |b|);
    assert s[|a| + 1..|a| + 1 + |b|] == b;
  }

  // ---------------------------------------------------------------------------
  // The `/^[?]/` test on query strings

  predicate HasQueryMark(q: string) {
    |q| > 0 && q[0] == '?'
  }

  /** `if (!/^[?]/.test(q)) q = "?" + q`: the shortest text starting with `?` that ends with `q`. */
  function WithQueryMark(q: string): (r: string)
    ensures HasQueryMark(r) && EndsWith(r, q)
    ensures |r| <= |q| + 1
  {
    if HasQueryMark(q) then
      assert EndsWith(q, q) by { assert q[0..] == q; }
      q
    else
      EndsWithAppend("?", q);
      "?" + q
  }

  /** No text that starts with `?` and ends with `q` is shorter. */
  lemma WithQueryMarkShortest(q: string, t: string)
    requires HasQueryMark(t) && EndsWith(t, q)
    ensures |WithQueryMark(q)| <= |t|
  {
  }

  lemma WithQueryMarkIdempotent(q: string)
    ensures WithQueryMark(WithQueryMark(q)) == WithQueryMark(q)
  {
  }

  // ---------------------------------------------------------------------------
  // Splitting a CRLF-joined text back into lines

  const CrLf: string := "\r\n"

  predicate NoCarriageReturn(s: string) {
    '\r' !in s
  }

  lemma ConcatWithoutCr(a: string, b: string)
    requires NoCarriageReturn(a) && NoCarriageReturn(b)
    ensures NoCarriageReturn(a + b)
  {
  }

  /** The first index at or after `from` where "\r\n" starts, or -1. */
  function FindCrLf(s: string, from: nat): (r: int)
    decreases |s| - from
    ensures r == -1 || (from <= r && r + 1 < |s| && s[r] == '\r' && s[r + 1] == '\n')
  {
    if from + 1 >= |s| then -1
    else if s[from] == '\r' && s[from + 1] == '\n' then from
    else FindCrLf(s, from + 1)
  }

  /** Splits on every "\r\n"; a text without one is a single line. */
  function SplitLines(s: string): (r: seq<string>)
    decreases |s|
    ensures |r| > 0
  {
    var k := FindCrLf(s, 0);
    if k < 0 then [s] else [s[..k]] + SplitLines(s[k + 2..])
  }

  lemma {:induction false} FindCrLfAbsent(s: string, from: nat)
    requires NoCarriageReturn(s)
    ensures FindCrLf(s, from) == -1
    decreases |s| - from
  {
    if from + 1 < |s| {
      FindCrLfAbsent(s, from + 1);
    }
  }

  lemma {:induction false} FindCrLfAfter(a: string, b: string, from: nat)
    requires NoCarriageReturn(a) && from <= |a|
    ensures FindCrLf(a + CrLf + b, from) == |a|
    decreases |a| - from
  {
    var s := a + CrLf + b;
    assert s[|a|] == '\r' && s[|a| + 1] == '\n';
    if from < |a| {
      assert s[from] == a[from];
      FindCrLfAfter(a, b, from + 1);
    }
  }

  /** Joining lines that hold no carriage return with CRLF and splitting again gives the lines back. */
  lemma {:induction false} SplitJoin(lines: seq<string>)
    requires |lines| > 0
    requires forall i :: 0 <= i < |lines| ==> NoCarriageReturn(lines[i])
    ensures SplitLines(Join(lines, CrLf)) == lines
  {
    if |lines| == 1 {
      FindCrLfAbsent(lines[0], 0);
    } else {
      var a := lines[0];
      var rest := Join(lines[1..], CrLf);
      var s := a + CrLf + rest;
      assert Join(lines, CrLf) == s;
      FindCrLfAfter(a, rest, 0);
      assert s[..|a|] == a;
      assert s[|a| + 2..] == rest;
      SplitJoin(lines[1..]);
      assert lines == [a] + lines[1..];
    }
  }
}
