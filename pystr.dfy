/** The handful of Python `str` operations the parsers are built from, with
    CPython's semantics: substring search, `split`, `rsplit(sep, 1)`,
    `replace`, `strip`, slicing with negative indices, `int()` of text and
    formatting an int with an f-string. */
module PyStr {
  import opened Wrappers
  import opened Seqs

  // ---------------------------------------------------------------- search

  /** `sub` occurs in `s` starting at index `i`. */
  predicate IsAt(s: string, sub: string, i: nat) {
    i + |sub| <= |s| && s[i..i + |sub|] == sub
  }

  /** First occurrence of `sub` at or after `i`, or -1 (`str.find(sub, i)`). */
  function FindFrom(s: string, sub: string, i: nat): (r: int)
    ensures r == -1 || (i <= r && IsAt(s, sub, r))
    decreases |s| - i
  {
    if i + |sub| > |s| then -1
    else if IsAt(s, sub, i) then i
    else FindFrom(s, sub, i + 1)
  }

  /** `FindFrom` finds the first occurrence: none lies before its answer,
      and it answers -1 only when there is none at all. */
  lemma {:induction false} FindFromFirst(s: string, sub: string, i: nat, j: nat)
    requires i <= j && IsAt(s, sub, j)
    ensures 0 <= FindFrom(s, sub, i) <= j
    decreases j - i
  {
    if i + |sub| <= |s| && !IsAt(s, sub, i) {
      FindFromFirst(s, sub, i + 1, j);
    }
  }

  /** `s.find(sub)`. */
  function Find(s: string, sub: string): int {
    FindFrom(s, sub, 0)
  }

  /** Python's `sub in s`. */
  predicate Contains(s: string, sub: string) {
    Find(s, sub) >= 0
  }

  /** `sub in s` holds exactly when `sub` occurs at some index. */
  lemma ContainsIff(s: string, sub: string)
    ensures Contains(s, sub) <==> exists i :: 0 <= i <= |s| && IsAt(s, sub, i)
  {
    if exists i :: 0 <= i <= |s| && IsAt(s, sub, i) {
      var i :| 0 <= i <= |s| && IsAt(s, sub, i);
      FindFromFirst(s, sub, 0, i);
    }
  }

  /** Last occurrence of `sub` at an index below `i`, or -1. */
  function RFindBelow(s: string, sub: string, i: nat): (r: int)
    ensures r == -1 || (0 <= r < i && IsAt(s, sub, r))
  {
    if i == 0 then -1
    else if IsAt(s, sub, i - 1) then i - 1
    else RFindBelow(s, sub, i - 1)
  }

  /** `RFindBelow` finds the last occurrence below its bound. */
  lemma {:induction false} RFindBelowLast(s: string, sub: string, i: nat, j: nat)
    requires j < i && IsAt(s, sub, j)
    ensures j <= RFindBelow(s, sub, i)
  {
    if !IsAt(s, sub, i - 1) {
      RFindBelowLast(s, sub, i - 1, j);
    }
  }

  /** With no occurrence strictly between `j` and `i`, `RFindBelow` finds `j`. */
  lemma {:induction false} RFindBelowExact(s: string, sub: string, i: nat, j: nat)
    requires j < i && IsAt(s, sub, j)
    requires forall k :: j < k < i ==> !IsAt(s, sub, k)
    ensures RFindBelow(s, sub, i) == j
  {
    if i - 1 != j {
      RFindBelowExact(s, sub, i - 1, j);
    }
  }

  /** `s.rfind(sub)`. */
  function RFind(s: string, sub: string): int {
    RFindBelow(s, sub, |s| + 1)
  }

  predicate StartsWith(s: string, p: string) {
    |p| <= |s| && s[..|p|] == p
  }

  predicate EndsWith(s: string, p: string) {
    |p| <= |s| && s[|s| - |p|..] == p
  }

  // ---------------------------------------------------------------- split

  /** `sep.join(pieces)`. */
  function Join(pieces: seq<string>, sep: string): string {
    if |pieces| == 0 then ""
    else if |pieces| == 1 then pieces[0]
    else pieces[0] + sep + Join(pieces[1..], sep)
  }

  /** `s.split(sep)` for a non-empty separator: the text is cut at each
      occurrence of `sep`, found left to right without overlap. */
  function Split(s: string, sep: string): (r: seq<string>)
    requires sep != ""
    ensures |r| >= 1
    decreases |s|
  {
    var i := Find(s, sep);
    if i < 0 then [s]
    else [s[..i]] + Split(s[i + |sep|..], sep)
  }

  /** A split has more than one piece exactly when the separator occurs,
      and its first piece is the text before the first occurrence. */
  lemma SplitHead(s: string, sep: string)
    requires sep != ""
    ensures |Split(s, sep)| == 1 <==> !Contains(s, sep)
    ensures Split(s, sep)[0] == if Contains(s, sep) then s[..Find(s, sep)] else s
  {
  }

  /** Splitting `t + sep + u`, where the first occurrence of `sep` is the
      one after `t`, gives `t` followed by the pieces of `u`. */
  lemma SplitAfter(t: string, sep: string, u: string)
    requires sep != ""
    requires forall j :: 0 <= j < |t| ==> !IsAt(t + sep + u, sep, j)
    ensures Split(t + sep + u, sep) == [t] + Split(u, sep)
  {
    var s := t + sep + u;
    assert s[|t|..|t| + |sep|] == sep;
    FindFromFirst(s, sep, 0, |t|);
    assert s[..|t|] == t;
    assert s[|t| + |sep|..] == u;
  }

  /** A one-character text occurs exactly where that character does. */
  lemma ContainsChar(s: string, c: char)
    ensures Contains(s, [c]) <==> c in s
  {
    ContainsIff(s, [c]);
    if Contains(s, [c]) {
      var i :| 0 <= i <= |s| && IsAt(s, [c], i);
      assert s[i] == s[i..i + 1][0];
    }
    if c in s {
      var i :| 0 <= i < |s| && s[i] == c;
      assert IsAt(s, [c], i);
    }
  }

  /** Splitting at a character that `t` lacks cuts right after `t`. */
  lemma SplitAtChar(t: string, c: char, u: string)
    requires c !in t
    ensures Split(t + [c] + u, [c]) == [t] + Split(u, [c])
  {
    var s := t + [c] + u;
    forall j | 0 <= j < |t|
      ensures !IsAt(s, [c], j)
    {
      assert s[j] == t[j];
      assert s[j..j + 1][0] == s[j];
    }
    SplitAfter(t, [c], u);
  }

  /** A text without the separator character splits into itself alone. */
  lemma SplitNoChar(s: string, c: char)
    requires c !in s
    ensures Split(s, [c]) == [s]
  {
    ContainsChar(s, c);
    SplitHead(s, [c]);
  }

  /** A text lacking one of the characters of `sub` does not contain `sub`. */
  lemma MissingCharNotContained(s: string, sub: string, c: char)
    requires c in sub && c !in s
    ensures !Contains(s, sub)
  {
    ContainsIff(s, sub);
    var k :| 0 <= k < |sub| && sub[k] == c;
    forall i | 0 <= i <= |s|
      ensures !IsAt(s, sub, i)
    {
      if i + |sub| <= |s| {
        assert s[i..i + |sub|][k] == s[i + k];
      }
    }
  }

  /** Splitting `t + sep + u` cuts right after `t` when `t` does not contain
      the separator and no occurrence starts inside `t` and runs into the
      `sep` after it: for no `k`, `t` ends with the first `k` characters of
      `sep` while `sep` continues with its own beginning. */
  lemma SplitAfterClean(t: string, sep: string, u: string)
    requires sep != "" && !Contains(t, sep)
    requires forall k :: 0 < k < |sep| && k <= |t| ==> !(t[|t| - k..] == sep[..k] && sep[k..] == sep[..|sep| - k])
    ensures Split(t + sep + u, sep) == [t] + Split(u, sep)
  {
    var s := t + sep + u;
    ContainsIff(t, sep);
    forall j | 0 <= j < |t|
      ensures !IsAt(s, sep, j)
    {
      if j + |sep| <= |t| {
        assert s[j..j + |sep|] == t[j..j + |sep|];
        assert !IsAt(t, sep, j);
      } else {
        var k := |t| - j;
        var w := s[j..j + |sep|];
        assert w == t[j..] + sep[..|sep| - k];
        assert w[..k] == t[j..] && w[k..] == sep[..|sep| - k];
      }
    }
    SplitAfter(t, sep, u);
  }

  /** `int()` of a run of ASCII digits is its value. */
  lemma ParseDigits(s: string)
    requires |s| >= 1 && AllDigits(s)
    ensures ParseInt(s) == Some(DigitsValue(s) as int)
  {
    assert IsDigit(s[0]) && IsDigit(s[|s| - 1]);
    StripNoSpace(s);
    DigitsNoDouble(s);
    assert DigitGroups(s);
    RemoveUnderscoresNone(s);
  }

  /** `int()` of a minus sign and a run of digits is minus their value. */
  lemma ParseNegText(t: string, v: nat)
    requires |t| >= 2 && t[0] == '-' && AllDigits(t[1..]) && DigitsValue(t[1..]) == v
    ensures ParseInt(t) == Some(-(v as int))
  {
    var d := t[1..];
    assert t[|t| - 1] == d[|d| - 1];
    StripNoSpace(t);
    DigitsNoDouble(d);
    assert DigitGroups(d);
    RemoveUnderscoresNone(d);
  }

  /** `pieces[-1]`. */
  /** " (" never straddles the end of a text followed by " (". */
  lemma SplitParen(t: string, u: string)
    requires !Contains(t, " (")
    ensures Split(t + " (" + u, " (") == [t] + Split(u, " (")
  {
    var sep := " (";
    forall k | 0 < k < |sep| && k <= |t|
      ensures !(t[|t| - k..] == sep[..k] && sep[k..] == sep[..|sep| - k])
    {
      assert sep[1..][0] == '(' && sep[..1][0] == ' ';
    }
    SplitAfterClean(t, sep, u);
  }

  /** A text without '(' does not contain " (" and splits into itself. */
  lemma NoParenSplit(u: string)
    requires '(' !in u
    ensures Split(u, " (") == [u]
  {
    MissingCharNotContained(u, " (", '(');
    SplitHead(u, " (");
  }

  /** Every piece of a split is made of characters of the text. */
  lemma {:induction false} SplitPiecesKeepAbsent(s: string, sep: string, c: char, k: nat)
    requires sep != "" && c !in s && k < |Split(s, sep)|
    ensures c !in Split(s, sep)[k]
    decreases |s|
  {
    var i := Find(s, sep);
    if i >= 0 {
      var rest := s[i + |sep|..];
      assert Split(s, sep) == [s[..i]] + Split(rest, sep);
      ConsIndex(s[..i], Split(rest, sep), k);
      if k == 0 {
        NotInSlice(s, 0, i, c);
      } else {
        NotInSlice(s, i + |sep|, |s|, c);
        SplitPiecesKeepAbsent(rest, sep, c, k - 1);
      }
    }
  }

  /** Joining pieces lacking a character with a separator lacking it. */
  lemma {:induction false} JoinKeepsAbsent(pieces: seq<string>, sep: string, c: char)
    requires forall k :: 0 <= k < |pieces| ==> c !in pieces[k]
    requires c !in sep
    ensures c !in Join(pieces, sep)
    decreases |pieces|
  {
    if |pieces| > 1 {
      JoinKeepsAbsent(pieces[1..], sep, c);
    }
  }

  /** `s.replace(c, "")` leaves no `c`. */
  lemma ReplaceRemovesChar(s: string, c: char)
    ensures c !in Replace(s, [c], "")
  {
    var pieces := Split(s, [c]);
    forall k | 0 <= k < |pieces|
      ensures c !in pieces[k]
    {
      SplitPiecesFree(s, [c], k);
      ContainsChar(pieces[k], c);
    }
    JoinKeepsAbsent(pieces, "", c);
  }

  /** A replacement introduces no character that neither the text nor the
      replacement has. */
  lemma ReplaceKeepsAbsent(s: string, pat: string, repl: string, c: char)
    requires pat != "" && c !in s && c !in repl
    ensures c !in Replace(s, pat, repl)
  {
    var pieces := Split(s, pat);
    forall k | 0 <= k < |pieces|
      ensures c !in pieces[k]
    {
      SplitPiecesKeepAbsent(s, pat, c, k);
    }
    JoinKeepsAbsent(pieces, repl, c);
  }

  /** An occurrence inside a slice is an occurrence in the whole text. */
  lemma ContainsSlice(s: string, a: nat, b: nat, sub: string)
    requires a <= b <= |s| && Contains(s[a..b], sub)
    ensures Contains(s, sub)
  {
    var t := s[a..b];
    var i := Find(t, sub);
    assert IsAt(t, sub, i);
    SliceOfSlice(s, a, b, i, i + |sub|);
    assert IsAt(s, sub, a + i);
    FindFromFirst(s, sub, 0, a + i);
  }

  /** `s.strip()` is a contiguous slice of `s`. */
  lemma StripSlice(s: string) returns (a: nat)
    ensures a + |Strip(s)| <= |s| && Strip(s) == s[a..a + |Strip(s)|]
  {
    var l := StripLeft(s);
    a := |s| - |l|;
    assert l == s[a..];
    assert Strip(s) == l[..|Strip(s)|];
  }

  function Last(pieces: seq<string>): string
    requires |pieces| > 0
  {
    pieces[|pieces| - 1]
  }

  /** Joining the pieces with the separator gives back the text. */
  lemma {:induction false} SplitJoin(s: string, sep: string)
    requires sep != ""
    ensures Join(Split(s, sep), sep) == s
    decreases |s|
  {
    var i := Find(s, sep);
    if i >= 0 {
      var rest := s[i + |sep|..];
      var r := Split(rest, sep);
      SplitJoin(rest, sep);
      assert Split(s, sep) == [s[..i]] + r;
      assert ([s[..i]] + r)[1..] == r;
      assert Join([s[..i]] + r, sep) == s[..i] + sep + Join(r, sep);
      assert s[i..i + |sep|] == sep;
      assert s == s[..i] + sep + rest;
    }
  }

  /** The text before the first occurrence of `sep` does not contain it. */
  lemma BeforeFirstFree(s: string, sep: string)
    requires sep != "" && Contains(s, sep)
    ensures !Contains(s[..Find(s, sep)], sep)
  {
    var i := Find(s, sep);
    var p := s[..i];
    if Contains(p, sep) {
      var j := Find(p, sep);
      assert IsAt(p, sep, j);
      assert s[j..j + |sep|] == p[j..j + |sep|];
      FindFromFirst(s, sep, 0, j);
    }
  }

  /** No piece of a split contains the separator. */
  lemma {:induction false} SplitPiecesFree(s: string, sep: string, k: nat)
    requires sep != ""
    requires k < |Split(s, sep)|
    ensures !Contains(Split(s, sep)[k], sep)
    decreases |s|
  {
    var i := Find(s, sep);
    if i >= 0 {
      var rest := s[i + |sep|..];
      assert Split(s, sep) == [s[..i]] + Split(rest, sep);
      if k == 0 {
        BeforeFirstFree(s, sep);
      } else {
        SplitPiecesFree(rest, sep, k - 1);
      }
    }
  }

  /** `s.rsplit(sep, 1)`: at most two pieces, cut at the last occurrence. */
  function RSplit1(s: string, sep: string): (r: seq<string>)
    requires sep != ""
    ensures |r| == 1 || |r| == 2
    ensures |r| == 2 ==> r[0] + sep + r[1] == s && !Contains(r[1], sep)
    ensures |r| == 1 <==> !Contains(s, sep)
  {
    var j := RFind(s, sep);
    if j < 0 then
      assert !Contains(s, sep) by {
        if Contains(s, sep) { RFindBelowLast(s, sep, |s| + 1, Find(s, sep)); }
      }
      [s]
    else
      var tail := s[j + |sep|..];
      assert !Contains(tail, sep) by {
        if Contains(tail, sep) {
          var k := Find(tail, sep);
          assert s[j + |sep| + k..j + |sep| + k + |sep|] == tail[k..k + |sep|];
          RFindBelowLast(s, sep, |s| + 1, j + |sep| + k);
        }
      }
      assert Find(s, sep) >= 0 by { FindFromFirst(s, sep, 0, j); }
      assert s == s[..j] + sep + tail by { assert s[j..j + |sep|] == sep; }
      [s[..j], tail]
  }

  /** `s.replace(old, new)` for a non-empty `old`: every occurrence found by
      `split` is replaced. */
  function Replace(s: string, pat: string, repl: string): string
    requires pat != ""
  {
    Join(Split(s, pat), repl)
  }

  lemma {:induction false} ReplaceAbsent(s: string, pat: string, repl: string)
    requires pat != ""
    requires !Contains(s, pat)
    ensures Replace(s, pat, repl) == s
  {
  }

  // ---------------------------------------------------------------- slicing

  /** A Python slice bound: a negative index counts from the end, and the
      result is clamped to `0..n`. */
  function SliceBound(i: int, n: nat): (r: nat)
    ensures r <= n
  {
    if i < 0 then (if i + n < 0 then 0 else i + n)
    else if i > n then n
    else i
  }

  /** `s[i:j]`. */
  function Slice(s: string, i: int, j: int): (r: string)
    ensures |r| <= |s|
  {
    var a := SliceBound(i, |s|);
    var b := SliceBound(j, |s|);
    if b <= a then "" else s[a..b]
  }

  /** `s[:n]` for `n >= 0`. */
  function Prefix(s: string, n: nat): (r: string)
    ensures |r| == if n <= |s| then n else |s|
    ensures StartsWith(s, r)
  {
    if n <= |s| then s[..n] else s
  }

  // ---------------------------------------------------------------- whitespace

  /** `c.isspace()`: the characters CPython counts as whitespace. */
  predicate IsSpace(c: char) {
    c == ' ' || c == '\t' || c == '\n' || c == '\r' || c == '\U{000B}' || c == '\U{000C}' ||
    ('\U{001C}' <= c <= '\U{001F}') || c == '\U{0085}' || c == '\U{00A0}' ||
    c == '\U{1680}' || ('\U{2000}' <= c <= '\U{200A}') || c == '\U{2028}' ||
    c == '\U{2029}' || c == '\U{202F}' || c == '\U{205F}' || c == '\U{3000}'
  }

  function StripLeft(s: string): (r: string)
    ensures |r| <= |s| && EndsWith(s, r)
    ensures r == [] || !IsSpace(r[0])
  {
    if |s| > 0 && IsSpace(s[0]) then StripLeft(s[1..]) else s
  }

  function StripRight(s: string): (r: string)
    ensures |r| <= |s| && StartsWith(s, r)
    ensures r == [] || !IsSpace(r[|r| - 1])
  {
    if |s| > 0 && IsSpace(s[|s| - 1]) then StripRight(s[..|s| - 1]) else s
  }

  /** `s.strip()`. */
  function Strip(s: string): (r: string)
    ensures |r| <= |s|
    ensures r == [] || (!IsSpace(r[0]) && !IsSpace(r[|r| - 1]))
  {
    var l := StripLeft(s);
    var r := StripRight(l);
    assert r != [] ==> r[0] == l[0];
    r
  }

  lemma StripNoSpace(s: string)
    requires s == [] || (!IsSpace(s[0]) && !IsSpace(s[|s| - 1]))
    ensures Strip(s) == s
  {
  }

  // ---------------------------------------------------------------- integers

  predicate IsDigit(c: char) { '0' <= c <= '9' }

  function DigitValue(c: char): nat
    requires IsDigit(c)
  {
    (c as int - '0' as int) as nat
  }

  function DigitChar(d: nat): (c: char)
    requires d < 10
    ensures IsDigit(c) && DigitValue(c) == d
  {
    ('0' as int + d) as char
  }

  predicate AllDigits(s: string) {
    forall k :: 0 <= k < |s| ==> IsDigit(s[k])
  }

  /** A run of digits has no character that is not a digit. */
  lemma DigitsLack(s: string, c: char)
    requires AllDigits(s) && !IsDigit(c)
    ensures c !in s
  {
    forall k | 0 <= k < |s|
      ensures s[k] != c
    {
      assert IsDigit(s[k]);
    }
  }

  /** The value of a run of decimal digits (leading zeros allowed). */
  function DigitsValue(s: string): nat
    requires AllDigits(s)
  {
    if s == [] then 0 else DigitsValue(s[..|s| - 1]) * 10 + DigitValue(s[|s| - 1])
  }

  /** The decimal digits of a natural number, without leading zeros. */
  function NatToStr(n: nat): (r: string)
    ensures |r| >= 1 && AllDigits(r)
    ensures |r| > 1 ==> r[0] != '0'
  {
    if n < 10 then [DigitChar(n)] else NatToStr(n / 10) + [DigitChar(n % 10)]
  }

  /** `f"{n}"` / `str(n)` for an int. */
  function IntToStr(n: int): (r: string)
    ensures |r| >= 1
    ensures forall k :: 0 <= k < |r| ==> IsDigit(r[k]) || r[k] == '-'
  {
    if n < 0 then "-" + NatToStr(-n) else NatToStr(n)
  }

  lemma {:induction false} NatToStrValue(n: nat)
    ensures DigitsValue(NatToStr(n)) == n
  {
    if n >= 10 {
      var p := NatToStr(n / 10);
      NatToStrValue(n / 10);
      assert (p + [DigitChar(n % 10)])[..|p|] == p;
    }
  }

  /** The text `int()` accepts after stripping and the sign: digits,
      with single underscores allowed between digits. */
  predicate DigitGroups(s: string) {
    |s| >= 1 && IsDigit(s[0]) && IsDigit(s[|s| - 1]) &&
    (forall k :: 0 <= k < |s| ==> IsDigit(s[k]) || s[k] == '_') &&
    NoDoubleUnderscore(s)
  }

  /** No two underscores in a row. */
  predicate NoDoubleUnderscore(s: string)
    decreases |s|
  {
    |s| < 2 || (!(s[0] == '_' && s[1] == '_') && NoDoubleUnderscore(s[1..]))
  }

  lemma {:induction false} DigitsNoDouble(s: string)
    requires AllDigits(s)
    ensures NoDoubleUnderscore(s)
    decreases |s|
  {
    if |s| >= 2 {
      DigitsNoDouble(s[1..]);
    }
  }

  function RemoveUnderscores(s: string): (r: string)
    ensures (forall k :: 0 <= k < |s| ==> IsDigit(s[k]) || s[k] == '_') ==> AllDigits(r)
    ensures |r| <= |s|
  {
    if s == [] then []
    else if s[0] == '_' then RemoveUnderscores(s[1..])
    else [s[0]] + RemoveUnderscores(s[1..])
  }

  lemma RemoveUnderscoresNone(s: string)
    requires AllDigits(s)
    ensures RemoveUnderscores(s) == s
  {
  }

  /** `int(s)` for text in base 10: surrounding whitespace, an optional sign,
      and digit groups; anything else raises ValueError (here None). Only
      ASCII digits are modelled. */
  function ParseInt(s: string): Option<int> {
    var t := Strip(s);
    var neg := |t| > 0 && t[0] == '-';
    var body := if |t| > 0 && (t[0] == '-' || t[0] == '+') then t[1..] else t;
    if DigitGroups(body) then
      var v: int := DigitsValue(RemoveUnderscores(body));
      Some(if neg then -v else v)
    else None
  }

  /** `int(str(n)) == n`. */
  lemma IntToStrParses(n: int)
    ensures ParseInt(IntToStr(n)) == Some(n)
  {
    if n < 0 {
      NegIntToStrParses(n);
    } else {
      NatToStrParses(n);
    }
  }

  lemma NatToStrParses(n: nat)
    ensures ParseInt(NatToStr(n)) == Some(n)
  {
    NatToStrValue(n);
    ParseDigits(NatToStr(n));
  }

  lemma NegIntToStrParses(n: int)
    requires n < 0
    ensures ParseInt(IntToStr(n)) == Some(n)
  {
    NegTextDigits(-n, IntToStr(n));
    NatToStrValue(-n);
    ParseNegText(IntToStr(n), -n);
  }

  lemma NegTextDigits(m: nat, t: string)
    requires t == "-" + NatToStr(m)
    ensures |t| >= 2 && t[0] == '-' && t[1..] == NatToStr(m)
  {
  }

  /** Formatting an int is injective. */
  lemma IntToStrInjective(a: int, b: int)
    requires IntToStr(a) == IntToStr(b)
    ensures a == b
  {
    IntToStrParses(a);
    IntToStrParses(b);
  }

  /** `f"{x}"` for an int that may be None: the text "None". */
  function OptIntToStr(x: Option<int>): string {
    match x
    case None => "None"
    case Some(n) => IntToStr(n)
  }
}
