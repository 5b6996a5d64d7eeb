/** The string operations of Python that the pipeline relies on, written out:
    `str.lower()` (ASCII letters only), `in`, `str.strip()`, `str.join`,
    `str.split(c)`, `str.replace(p, "")`, `str(int)`, `int(str)`, and the
    leftmost-first scan `re.search` performs. */
module Text {
  import opened Base

  /** The characters for which Python's `str.isspace()` holds; `str.strip()`,
      `int()` and `\s` in a str pattern all use this set. */
  predicate IsSpace(c: char) {
    c == ' ' || '\t' <= c <= '\r' || '\U{1c}' <= c <= '\U{1f}' || c == '\U{85}' || c == '\U{a0}'
    || c == '\U{1680}' || '\U{2000}' <= c <= '\U{200a}' || c == '\U{2028}' || c == '\U{2029}'
    || c == '\U{202f}' || c == '\U{205f}' || c == '\U{3000}'
  }

  predicate IsDigit(c: char) {
    '0' <= c <= '9'
  }

  predicate IsAsciiLetter(c: char) {
    'a' <= c <= 'z' || 'A' <= c <= 'Z'
  }

  predicate IsAlnum(c: char) {
    IsAsciiLetter(c) || IsDigit(c)
  }

  function LowerChar(c: char): char {
    if 'A' <= c <= 'Z' then (c as int + 32) as char else c
  }

  /** `s.lower()`, on the ASCII letters. */
  function Lower(s: string): (r: string)
    ensures |r| == |s|
    ensures forall k :: 0 <= k < |s| ==> r[k] == LowerChar(s[k])
  {
    if s == [] then [] else [LowerChar(s[0])] + Lower(s[1..])
  }

  /** A text without capital letters is its own lower case. */
  lemma LowerUnchanged(s: string)
    requires forall k :: 0 <= k < |s| ==> !('A' <= s[k] <= 'Z')
    ensures Lower(s) == s
  {
  }

  /** `sub in s` */
  predicate Contains(s: string, sub: string)
    decreases |s|
  {
    |sub| <= |s| && (s[..|sub|] == sub || Contains(s[1..], sub))
  }

  lemma {:induction false} ContainsAt(s: string, sub: string, i: nat)
    requires i + |sub| <= |s| && s[i..i + |sub|] == sub
    ensures Contains(s, sub)
  {
    if i > 0 {
      assert s[1..][i - 1..i - 1 + |sub|] == s[i..i + |sub|];
      ContainsAt(s[1..], sub, i - 1);
    }
  }

  /** A stretch of a stretch of `s` is a stretch of `s`. */
  lemma SliceOfSlice(s: string, g: string, n: string, lo: nat, off: nat)
    requires lo + |g| <= |s| && s[lo..lo + |g|] == g
    requires off + |n| <= |g| && g[off..off + |n|] == n
    ensures s[lo + off..lo + off + |n|] == n && Contains(s, n)
  {
    forall k | 0 <= k < |n| ensures s[lo + off + k] == n[k] {
      assert n[k] == g[off + k] == s[lo + off + k];
    }
    assert s[lo + off..lo + off + |n|] == n;
    ContainsAt(s, n, lo + off);
  }

  lemma {:induction false} ContainsIndex(s: string, sub: string) returns (i: nat)
    requires Contains(s, sub)
    ensures i + |sub| <= |s| && s[i..i + |sub|] == sub
    decreases |s|
  {
    if s[..|sub|] == sub {
      i := 0;
    } else {
      var j := ContainsIndex(s[1..], sub);
      assert s[1..][j..j + |sub|] == s[j + 1..j + 1 + |sub|];
      i := j + 1;
    }
  }

  /** Containment is transitive: whatever contains `mid` contains every part of it. */
  lemma ContainsTransitive(s: string, mid: string, sub: string)
    requires Contains(s, mid) && Contains(mid, sub)
    ensures Contains(s, sub)
  {
    var i := ContainsIndex(s, mid);
    var j := ContainsIndex(mid, sub);
    forall k | 0 <= k < |sub| ensures s[i + j + k] == sub[k] {
      assert s[i..i + |mid|][j + k] == mid[j + k];
      assert mid[j..j + |sub|][k] == sub[k];
    }
    assert s[i + j..i + j + |sub|] == sub;
    ContainsAt(s, sub, i + j);
  }

  /** `any(k in s for k in keys)` */
  predicate ContainsAny(s: string, keys: seq<string>) {
    exists k :: 0 <= k < |keys| && Contains(s, keys[k])
  }

  function TrimStart(s: string): (r: string)
    ensures |r| <= |s| && r == s[|s| - |r|..]
    ensures r == [] || !IsSpace(r[0])
    ensures forall k :: 0 <= k < |s| - |r| ==> IsSpace(s[k])
    decreases |s|
  {
    if |s| > 0 && IsSpace(s[0]) then TrimStart(s[1..]) else s
  }

  function TrimEnd(s: string): (r: string)
    ensures |r| <= |s| && r == s[..|r|]
    ensures r == [] || !IsSpace(r[|r| - 1])
    ensures forall k :: |r| <= k < |s| ==> IsSpace(s[k])
    decreases |s|
  {
    if |s| > 0 && IsSpace(s[|s| - 1]) then TrimEnd(s[..|s| - 1]) else s
  }

  /** `s.strip()` */
  function Strip(s: string): string {
    TrimEnd(TrimStart(s))
  }

  /** What `strip` keeps is a stretch of the text. */
  lemma StripSlice(s: string) returns (off: nat)
    ensures off + |Strip(s)| <= |s| && s[off..off + |Strip(s)|] == Strip(s)
  {
    var u := TrimStart(s);
    off := |s| - |u|;
    assert Strip(s) == u[..|Strip(s)|];
  }

  /** Some character of `s` is not whitespace. */
  predicate HasVisible(s: string) {
    exists k :: 0 <= k < |s| && !IsSpace(s[k])
  }

  /** `s.strip() == ""` holds exactly when `s` is all whitespace. */
  lemma StripEmptyIff(s: string)
    ensures Strip(s) == "" <==> !HasVisible(s)
  {
    var t := TrimStart(s);
    if Strip(s) == "" {
      assert t == [];
    } else {
      var r := Strip(s);
      assert r[0] == t[0] == s[|s| - |t|];
    }
  }

  lemma VisibleAppend(a: string, b: string)
    requires HasVisible(a) || HasVisible(b)
    ensures HasVisible(a + b)
  {
    if HasVisible(a) {
      var k :| 0 <= k < |a| && !IsSpace(a[k]);
      assert (a + b)[k] == a[k];
    } else {
      var k :| 0 <= k < |b| && !IsSpace(b[k]);
      assert (a + b)[|a| + k] == b[k];
    }
  }

  /** A first character that is not whitespace makes the text visible. */
  lemma VisibleFirst(s: string)
    requires |s| > 0 && !IsSpace(s[0])
    ensures HasVisible(s)
  {
  }

  /** So does a last character that is not whitespace. */
  lemma VisibleLast(s: string)
    requires |s| > 0 && !IsSpace(s[|s| - 1])
    ensures HasVisible(s)
  {
  }

  /** `sep.join(parts)` */
  function Join(parts: seq<string>, sep: string): string
    decreases |parts|
  {
    if |parts| == 0 then "" else if |parts| == 1 then parts[0] else parts[0] + sep + Join(parts[1..], sep)
  }

  lemma JoinThree(a: string, b: string, c: string, sep: string)
    ensures Join([a, b, c], sep) == a + sep + b + sep + c
  {
    assert [a, b, c][1..] == [b, c];
    assert [b, c][1..] == [c];
    assert Join([b, c], sep) == b + sep + c;
    assert a + sep + (b + sep + c) == a + sep + b + sep + c;
  }

  /** A join of two or more parts starts with the first two parts and the separator
      between them; the rest follows after one more separator. */
  lemma JoinFirstTwo(a: string, b: string, rest: seq<string>, sep: string)
    ensures Join([a, b] + rest, sep) == a + sep + b + (if rest == [] then "" else sep + Join(rest, sep))
  {
    var parts := [a, b] + rest;
    assert parts[1..] == [b] + rest;
    assert ([b] + rest)[1..] == rest;
    if rest == [] {
      assert Join([b] + rest, sep) == b;
    } else {
      assert Join([b] + rest, sep) == b + sep + Join(rest, sep);
    }
  }

  /** A join of two or more parts starts with the first two and the separator
      between them. */
  lemma JoinStartsWith(a: string, b: string, rest: seq<string>, sep: string)
    ensures StartsAt(Join([a, b] + rest, sep), 0, a + sep + b)
  {
    JoinFirstTwo(a, b, rest, sep);
    var tail := if rest == [] then "" else sep + Join(rest, sep);
    assert Join([a, b] + rest, sep) == (a + sep + b) + tail;
  }

  /** `s.endswith(t)` */
  predicate EndsWith(s: string, t: string) {
    |t| <= |s| && s[|s| - |t|..] == t
  }

  /** A join of two or more parts ends with the last two parts and the separator
      between them. */
  lemma {:induction false} JoinEndsWith(parts: seq<string>, sep: string)
    requires |parts| >= 2
    ensures EndsWith(Join(parts, sep), parts[|parts| - 2] + sep + parts[|parts| - 1])
    decreases |parts|
  {
    var tail := parts[|parts| - 2] + sep + parts[|parts| - 1];
    if |parts| == 2 {
      assert Join(parts[1..], sep) == parts[1];
    } else {
      JoinEndsWith(parts[1..], sep);
      var rest := Join(parts[1..], sep);
      var whole := parts[0] + sep + rest;
      assert whole[|whole| - |tail|..] == rest[|rest| - |tail|..];
    }
  }

  /** Every part reappears in the joined text, so a visible part keeps the whole visible. */
  lemma {:induction false} JoinVisible(parts: seq<string>, sep: string, k: nat)
    requires k < |parts| && HasVisible(parts[k])
    ensures HasVisible(Join(parts, sep))
    decreases |parts|
  {
    if |parts| > 1 {
      if k == 0 {
        VisibleAppend(parts[0], sep + Join(parts[1..], sep));
        assert parts[0] + sep + Join(parts[1..], sep) == parts[0] + (sep + Join(parts[1..], sep));
      } else {
        JoinVisible(parts[1..], sep, k - 1);
        VisibleAppend(parts[0] + sep, Join(parts[1..], sep));
      }
    }
  }

  /** `s.split(c)`: never empty, one part more than there are separators. */
  function Split(s: string, c: char): (r: seq<string>)
    ensures |r| >= 1
    ensures forall k :: 0 <= k < |r| ==> c !in r[k]
    decreases |s|
  {
    if |s| == 0 then [""]
    else
      var rest := Split(s[1..], c);
      if s[0] == c then [""] + rest else [[s[0]] + rest[0]] + rest[1..]
  }

  /** Joining the parts of a split with the separator gives the text back. */
  lemma {:induction false} JoinSplit(s: string, c: char)
    ensures Join(Split(s, c), [c]) == s
    decreases |s|
  {
    if |s| > 0 {
      var rest := Split(s[1..], c);
      JoinSplit(s[1..], c);
      if s[0] == c {
        assert Split(s, c) == [""] + rest;
        assert ([""] + rest)[1..] == rest;
        assert s == [c] + s[1..];
      } else if |rest| == 1 {
        assert s == [s[0]] + s[1..];
      } else {
        var r := Split(s, c);
        assert r[1..] == rest[1..];
        assert Join(rest, [c]) == rest[0] + [c] + Join(rest[1..], [c]);
        assert s == [s[0]] + s[1..];
      }
    }
  }

  lemma {:induction false} SplitWithoutSeparator(a: string, c: char)
    requires c !in a
    ensures Split(a, c) == [a]
    decreases |a|
  {
    if |a| > 0 {
      SplitWithoutSeparator(a[1..], c);
      assert [a[0]] + a[1..] == a;
    }
  }

  lemma {:induction false} SplitAfterFirst(a: string, c: char, t: string)
    requires c !in a
    ensures Split(a + [c] + t, c) == [a] + Split(t, c)
    decreases |a|
  {
    var s := a + [c] + t;
    if |a| == 0 {
      assert s[1..] == t;
    } else {
      assert s[1..] == a[1..] + [c] + t;
      SplitAfterFirst(a[1..], c, t);
      assert [a[0]] + a[1..] == a;
    }
  }

  /** Splitting parts joined by a separator none of them holds gives the parts back. */
  lemma {:induction false} SplitJoin(parts: seq<string>, c: char)
    requires |parts| >= 1
    requires forall k :: 0 <= k < |parts| ==> c !in parts[k]
    ensures Split(Join(parts, [c]), c) == parts
    decreases |parts|
  {
    if |parts| == 1 {
      SplitWithoutSeparator(parts[0], c);
    } else {
      SplitJoin(parts[1..], c);
      SplitAfterFirst(parts[0], c, Join(parts[1..], [c]));
      assert [parts[0]] + parts[1..] == parts;
    }
  }

  /** `s.replace(pat, "")`: occurrences are removed left to right without overlap. */
  function RemoveAll(s: string, pat: string): (r: string)
    requires |pat| > 0
    ensures |r| <= |s|
    ensures !Contains(s, pat) ==> r == s
    decreases |s|
  {
    if |s| < |pat| then s
    else if s[..|pat|] == pat then RemoveAll(s[|pat|..], pat)
    else [s[0]] + RemoveAll(s[1..], pat)
  }

  /** `s.replace(c, t)` for a one-character pattern. */
  function ReplaceChar(s: string, c: char, t: string): (r: string)
    ensures c !in t ==> c !in r
    ensures c !in s ==> r == s
    ensures forall k :: 0 <= k < |s| && s[k] != c ==> s[k] in r
    decreases |s|
  {
    if s == [] then ""
    else (if s[0] == c then t else [s[0]]) + ReplaceChar(s[1..], c, t)
  }

  /** Replacing in a concatenation replaces in each part. */
  lemma {:induction false} ReplaceCharConcat(a: string, b: string, c: char, t: string)
    ensures ReplaceChar(a + b, c, t) == ReplaceChar(a, c, t) + ReplaceChar(b, c, t)
    decreases |a|
  {
    if a != [] {
      var head := if a[0] == c then t else [a[0]];
      assert (a + b)[1..] == a[1..] + b;
      assert ReplaceChar(a + b, c, t) == head + ReplaceChar(a[1..] + b, c, t);
      ReplaceCharConcat(a[1..], b, c, t);
      assert ReplaceChar(a, c, t) == head + ReplaceChar(a[1..], c, t);
    } else {
      assert a + b == b;
    }
  }

  /** The text before the first `c` is kept as it is, that `c` becomes `t`, and the
      rest is replaced in turn. */
  lemma ReplaceCharOccurrence(a: string, b: string, c: char, t: string)
    requires c !in a
    ensures ReplaceChar(a + [c] + b, c, t) == a + t + ReplaceChar(b, c, t)
  {
    ReplaceCharConcat(a + [c], b, c, t);
    ReplaceCharConcat(a, [c], c, t);
    assert ReplaceChar([c], c, t) == t + ReplaceChar([], c, t);
  }

  function DigitChar(d: nat): char
    requires d < 10
  {
    ('0' as int + d) as char
  }

  function NatToString(n: nat): (r: string)
    ensures |r| >= 1
    ensures forall k :: 0 <= k < |r| ==> IsDigit(r[k])
  {
    if n < 10 then [DigitChar(n)] else NatToString(n / 10) + [DigitChar(n % 10)]
  }

  /** `str(n)` for an int. */
  function IntToString(n: int): string {
    if n < 0 then "-" + NatToString(-n) else NatToString(n)
  }

  /** The digits (and underscores) of an `int()` literal body: at least one digit,
      starting and ending with a digit, no two underscores in a row. */
  predicate IsDigitGroups(t: string) {
    && |t| > 0
    && IsDigit(t[0]) && IsDigit(t[|t| - 1])
    && (forall k :: 0 <= k < |t| ==> IsDigit(t[k]) || t[k] == '_')
    && (forall k :: 0 <= k < |t| - 1 ==> t[k] == '_' ==> t[k + 1] != '_')
  }

  /** The value of a run of digits, underscores ignored. */
  function DigitsValue(t: string): nat
    decreases |t|
  {
    if t == [] then 0
    else
      var c := t[|t| - 1];
      if IsDigit(c) then DigitsValue(t[..|t| - 1]) * 10 + (c as int - '0' as int)
      else DigitsValue(t[..|t| - 1])
  }

  /** `int(s)` on a str: surrounding whitespace, one optional sign, then digit groups;
      anything else raises ValueError (None here). */
  function ParseInt(s: string): Option<int> {
    var t := Strip(s);
    if |t| > 0 && (t[0] == '+' || t[0] == '-') then
      if IsDigitGroups(t[1..]) then
        Some(if t[0] == '-' then -(DigitsValue(t[1..]) as int) else DigitsValue(t[1..]))
      else None
    else if IsDigitGroups(t) then Some(DigitsValue(t))
    else None
  }

  lemma {:induction false} DigitsValueOfNat(n: nat)
    ensures DigitsValue(NatToString(n)) == n
  {
    var r := NatToString(n);
    if n >= 10 {
      DigitsValueOfNat(n / 10);
      assert r[..|r| - 1] == NatToString(n / 10);
    }
  }

  lemma StripUnpadded(s: string)
    requires |s| > 0 && !IsSpace(s[0]) && !IsSpace(s[|s| - 1])
    ensures Strip(s) == s
  {
  }

  /** Stripping twice is stripping once. */
  lemma StripIdempotent(s: string)
    ensures Strip(Strip(s)) == Strip(s)
  {
    var t := Strip(s);
    if t != [] {
      var u := TrimStart(s);
      assert t[0] == u[0];
      StripUnpadded(t);
    }
  }

  /** `int(c)` of a single digit is its value. */
  lemma DigitParse(c: char)
    requires IsDigit(c)
    ensures ParseInt([c]) == Some(c as int - '0' as int)
  {
    StripUnpadded([c]);
    assert [c][..0] == [];
    assert IsDigitGroups([c]);
    assert DigitsValue([c]) == DigitsValue([]) * 10 + (c as int - '0' as int);
  }

  /** `int(str(n)) == n` */
  lemma ParseIntOfIntToString(n: int)
    ensures ParseInt(IntToString(n)) == Some(n)
    ensures Strip(IntToString(n)) == IntToString(n)
  {
    var t := IntToString(n);
    var m: nat := if n < 0 then -n else n;
    var digits := NatToString(m);
    NatDigitGroups(m);
    StripUnpadded(t);
    if n < 0 {
      assert t[1..] == digits;
    }
  }

  /** `str(m)` of a natural number is a valid `int()` literal body worth `m`. */
  lemma NatDigitGroups(m: nat)
    ensures IsDigitGroups(NatToString(m)) && DigitsValue(NatToString(m)) == m
  {
    DigitsValueOfNat(m);
  }

  /** The end of the run of characters satisfying `p` that starts at `i`. */
  function RunEnd(s: string, i: nat, p: char -> bool): (e: nat)
    requires i <= |s|
    ensures i <= e <= |s|
    ensures forall k :: i <= k < e ==> p(s[k])
    ensures e < |s| ==> !p(s[e])
    decreases |s| - i
  {
    if i < |s| && p(s[i]) then RunEnd(s, i + 1, p) else i
  }

  /** A run whose characters all satisfy `p` up to `e` ends no earlier than `e`. */
  lemma {:induction false} RunEndBeyond(s: string, i: nat, p: char -> bool, e: nat)
    requires i <= e <= |s|
    requires forall k :: i <= k < e ==> p(s[k])
    ensures RunEnd(s, i, p) >= e
    decreases e - i
  {
    if i < e {
      RunEndBeyond(s, i + 1, p, e);
    }
  }

  /** A run that is stopped at `e` by a character failing `p` ends exactly there. */
  lemma RunEndAt(s: string, i: nat, p: char -> bool, e: nat)
    requires i <= e < |s|
    requires forall k :: i <= k < e ==> p(s[k])
    requires !p(s[e])
    ensures RunEnd(s, i, p) == e
  {
    RunEndBeyond(s, i, p, e);
  }

  /** `lit` occurs in `s` at position `i`. */
  predicate StartsAt(s: string, i: nat, lit: string) {
    i + |lit| <= |s| && s[i..i + |lit|] == lit
  }

  /** The leftmost position in [i, n] at which `at` succeeds, with its result:
      the order in which `re.search` tries start positions. */
  function FirstFrom<T>(at: nat -> Option<T>, i: nat, n: nat): (r: Option<T>)
    ensures r.None? ==> forall k :: i <= k <= n ==> at(k).None?
    decreases n + 1 - i
  {
    if i > n then None else if at(i).Some? then at(i) else FirstFrom(at, i + 1, n)
  }

  /** A search that succeeds does so at a position where `at` succeeds, having failed
      at every position before it. */
  lemma {:induction false} FirstFromIndex<T>(at: nat -> Option<T>, i: nat, n: nat) returns (k: nat)
    requires FirstFrom(at, i, n).Some?
    ensures i <= k <= n && at(k) == FirstFrom(at, i, n)
    ensures forall j :: i <= j < k ==> at(j).None?
    decreases n + 1 - i
  {
    if at(i).Some? {
      k := i;
    } else {
      k := FirstFromIndex(at, i + 1, n);
    }
  }

  /** The largest position in [lo, hi) satisfying `ok`: where a greedy
      repetition stops after backtracking. */
  function LastFrom(ok: nat -> bool, lo: nat, hi: nat): (r: Option<nat>)
    ensures r.Some? ==> lo <= r.value < hi && ok(r.value) && forall k :: r.value < k < hi ==> !ok(k)
    ensures r.None? ==> forall k :: lo <= k < hi ==> !ok(k)
    decreases hi
  {
    if hi <= lo then None else if ok(hi - 1) then Some(hi - 1) else LastFrom(ok, lo, hi - 1)
  }
}
