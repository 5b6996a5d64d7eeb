/** The two recipient patterns of the pipeline: the e-mail address pattern
    `[a-zA-Z0-9._%+-]+@[a-zA-Z0-9.-]+\.[a-zA-Z]{2,}` (agent_manager.py:524,
    agent_manager.py:371, main_code.py:312) and the `to <name>` clause that
    explains a missing address (agent_manager.py:377). Both are written as the
    position-by-position search `re.search` performs. */
module Address {
  import opened Base
  import opened Text

  predicate IsLocalChar(c: char) {
    IsAlnum(c) || c == '.' || c == '_' || c == '%' || c == '+' || c == '-'
  }

  predicate IsDomainChar(c: char) {
    IsAlnum(c) || c == '.' || c == '-'
  }

  /** `t` is a whole match of the address pattern, with its `@` at `at` and the dot
      before the final letters at `dot`. */
  ghost predicate AddressShape(t: string, at: nat, dot: nat) {
    && 0 < at && at + 1 < dot && dot + 3 <= |t|
    && (forall k :: 0 <= k < at ==> IsLocalChar(t[k]))
    && t[at] == '@'
    && (forall k :: at < k < dot ==> IsDomainChar(t[k]))
    && t[dot] == '.'
    && (forall k :: dot < k < |t| ==> IsAsciiLetter(t[k]))
  }

  /** `t` as a whole matches the address pattern. */
  ghost predicate IsAddress(t: string) {
    exists at: nat, dot: nat :: AddressShape(t, at, dot)
  }

  /** Some stretch of `s` matches the address pattern: `re.search` finds a match. */
  ghost predicate HasAddress(s: string) {
    exists i: nat, j: nat :: i <= j <= |s| && IsAddress(s[i..j])
  }

  /** A dot followed by two letters: where `\.[a-zA-Z]{2,}` can start. */
  predicate DotAt(s: string, d: nat) {
    d + 2 < |s| && s[d] == '.' && IsAsciiLetter(s[d + 1]) && IsAsciiLetter(s[d + 2])
  }

  function DotFinder(s: string): nat -> bool {
    (d: nat) => DotAt(s, d)
  }

  /** The match of the address pattern that starts at `p`, if there is one. The local
      part runs to the first character outside its class, which must be `@`; the domain
      run is then given back from its end until a dot followed by two letters is found,
      and the letters after that dot run as far as they go. */
  function AddressAt(s: string, p: nat): Option<string> {
    if p > |s| then None
    else
      var a := RunEnd(s, p, IsLocalChar);
      if a == p || a == |s| || s[a] != '@' then None
      else
        var f := RunEnd(s, a + 1, IsDomainChar);
        match LastFrom(DotFinder(s), a + 2, f)
        case None => None
        case Some(d) => Some(s[p..RunEnd(s, d + 1, IsAsciiLetter)])
  }

  /** `re.search(address_pattern, s)`, the text of the match; `re.findall(...)[0]`
      is the same text. */
  function FirstAddress(s: string): Option<string> {
    FirstFrom(AddressFinder(s), 0, |s|)
  }

  function AddressFinder(s: string): nat -> Option<string> {
    (p: nat) => AddressAt(s, p)
  }

  /** What `AddressAt` finds is an address, found where it says. */
  lemma AddressAtSound(s: string, p: nat)
    requires AddressAt(s, p).Some?
    ensures var t := AddressAt(s, p).value;
      p + |t| <= |s| && s[p..p + |t|] == t && IsAddress(t)
  {
    var a := RunEnd(s, p, IsLocalChar);
    var f := RunEnd(s, a + 1, IsDomainChar);
    var d := LastFrom(DotFinder(s), a + 2, f).value;
    var e := RunEnd(s, d + 1, IsAsciiLetter);
    var t := s[p..e];
    assert AddressAt(s, p).value == t;
    assert AddressShape(t, a - p, d - p) by {
      forall k | 0 <= k < a - p ensures IsLocalChar(t[k]) {
        assert t[k] == s[p + k];
      }
      forall k | a - p < k < d - p ensures IsDomainChar(t[k]) {
        assert t[k] == s[p + k];
      }
      forall k | d - p < k < |t| ensures IsAsciiLetter(t[k]) {
        assert t[k] == s[p + k];
      }
    }
  }

  /** Wherever an address starts, `AddressAt` finds a match starting there. */
  lemma AddressAtComplete(s: string, i: nat, j: nat)
    requires i <= j <= |s|
    ensures IsAddress(s[i..j]) ==> AddressAt(s, i).Some?
  {
    var t := s[i..j];
    if IsAddress(t) {
      var at: nat, dot: nat :| AddressShape(t, at, dot);
      var a := i + at;
      forall k | i <= k < a ensures IsLocalChar(s[k]) {
        assert s[k] == t[k - i];
      }
      assert s[a] == t[at];
      RunEndAt(s, i, IsLocalChar, a);
      forall k | a + 1 <= k < i + dot + 1 ensures IsDomainChar(s[k]) {
        assert s[k] == t[k - i];
      }
      RunEndBeyond(s, a + 1, IsDomainChar, i + dot + 1);
      assert DotAt(s, i + dot) by {
        assert s[i + dot] == t[dot] && s[i + dot + 1] == t[dot + 1] && s[i + dot + 2] == t[dot + 2];
      }
      assert DotFinder(s)(i + dot);
    }
  }

  /** An address lying in `s` from `p` to `j`, seen from `s`: its local part is the
      whole run of local characters from `p`, its domain run goes past its dot, and
      letters fill the text after that dot. */
  lemma ShapeInText(s: string, p: nat, j: nat, at: nat, dot: nat)
    requires p <= j <= |s| && AddressShape(s[p..j], at, dot)
    ensures RunEnd(s, p, IsLocalChar) == p + at
    ensures RunEnd(s, p + at + 1, IsDomainChar) > p + dot
    ensures DotAt(s, p + dot)
    ensures forall k :: p + dot < k < j ==> IsAsciiLetter(s[k])
  {
    var t := s[p..j];
    forall k | p <= k < p + at ensures IsLocalChar(s[k]) {
      assert s[k] == t[k - p];
    }
    assert s[p + at] == t[at];
    RunEndAt(s, p, IsLocalChar, p + at);
    forall k | p + at + 1 <= k < p + dot + 1 ensures IsDomainChar(s[k]) {
      assert s[k] == t[k - p];
    }
    RunEndBeyond(s, p + at + 1, IsDomainChar, p + dot + 1);
    assert s[p + dot] == t[dot] && s[p + dot + 1] == t[dot + 1] && s[p + dot + 2] == t[dot + 2];
    forall k | p + dot < k < j ensures IsAsciiLetter(s[k]) {
      assert s[k] == t[k - p];
    }
  }

  /** The positions `AddressAt` settles on: the `@` at `a`, the chosen dot at `d`,
      and the end `e` of the letters after it. */
  lemma AddressAtParts(s: string, p: nat) returns (a: nat, d: nat, e: nat)
    requires AddressAt(s, p).Some?
    ensures a == RunEnd(s, p, IsLocalChar)
    ensures LastFrom(DotFinder(s), a + 2, RunEnd(s, a + 1, IsDomainChar)) == Some(d)
    ensures e == RunEnd(s, d + 1, IsAsciiLetter) && p <= e <= |s| && AddressAt(s, p).value == s[p..e]
  {
    a := RunEnd(s, p, IsLocalChar);
    d := LastFrom(DotFinder(s), a + 2, RunEnd(s, a + 1, IsDomainChar)).value;
    e := RunEnd(s, d + 1, IsAsciiLetter);
  }

  /** `AddressAt` finds the longest address starting at `p`: the local part must end
      at the `@`, a longer match would need a later dot followed by two letters, and
      the last such dot is the one taken. */
  lemma AddressAtLongest(s: string, p: nat, j: nat)
    requires AddressAt(s, p).Some? && p <= j <= |s|
    ensures IsAddress(s[p..j]) ==> j <= p + |AddressAt(s, p).value|
  {
    var a, d, e := AddressAtParts(s, p);
    if IsAddress(s[p..j]) {
      var at: nat, dot: nat :| AddressShape(s[p..j], at, dot);
      ShapeInText(s, p, j, at, dot);
      assert DotFinder(s)(p + dot);
      assert p + dot <= d;
      assert DotAt(s, d);
      assert d < j ==> d == p + dot;
      if d < j {
        RunEndBeyond(s, d + 1, IsAsciiLetter, j);
      }
    }
  }

  /** No address starts at a position where `AddressAt` fails. */
  lemma NoAddressAt(s: string, i: nat)
    requires AddressAt(s, i).None?
    ensures forall j :: i <= j <= |s| ==> !IsAddress(s[i..j])
  {
    forall j | i <= j <= |s| ensures !IsAddress(s[i..j]) {
      AddressAtComplete(s, i, j);
    }
  }

  /** The address rule fires exactly when the text holds an address. */
  lemma FirstAddressIff(s: string)
    ensures FirstAddress(s).Some? <==> HasAddress(s)
  {
    if FirstAddress(s).Some? {
      var p := FirstAddressLeftmost(s);
    } else {
      forall i: nat, j: nat | i <= j <= |s| ensures !IsAddress(s[i..j]) {
        assert AddressFinder(s)(i).None?;
        NoAddressAt(s, i);
      }
    }
  }

  /** No address starts before position `p` of `s`. */
  ghost predicate NoAddressBefore(s: string, p: nat) {
    forall i: nat, j: nat :: i < p && i <= j <= |s| ==> !IsAddress(s[i..j])
  }

  /** What the search finds is an address taken from the text at `p`, no address
      starts earlier in the text, and no longer address starts at `p`. */
  lemma FirstAddressLeftmost(s: string) returns (p: nat)
    requires FirstAddress(s).Some?
    ensures var t := FirstAddress(s).value;
      p + |t| <= |s| && s[p..p + |t|] == t && IsAddress(t) && NoAddressBefore(s, p)
    ensures forall j :: p + |FirstAddress(s).value| < j <= |s| ==> !IsAddress(s[p..j])
  {
    var at := AddressFinder(s);
    p := FirstFromIndex(at, 0, |s|);
    AddressAtSound(s, p);
    forall j | p + |FirstAddress(s).value| < j <= |s| ensures !IsAddress(s[p..j]) {
      AddressAtLongest(s, p, j);
    }
    forall i: nat, j: nat | i < p && i <= j <= |s| ensures !IsAddress(s[i..j]) {
      assert at(i).None?;
      NoAddressAt(s, i);
    }
  }

  predicate IsNameChar(c: char) {
    IsAlnum(c) || IsSpace(c)
  }

  /** The end of the keyword of `(?:to|send to|email to)` matched at `p` of the
      lower-cased text; the three alternatives start with different letters. */
  function ToKeywordEnd(lq: string, p: nat): Option<nat> {
    if StartsAt(lq, p, "to") then Some(p + 2)
    else if StartsAt(lq, p, "send to") then Some(p + 7)
    else if StartsAt(lq, p, "email to") then Some(p + 8)
    else None
  }

  /** Group 1 of `(?:to|send to|email to)\s+([a-zA-Z0-9\s]+)` matched at `p`,
      case-insensitively. The whitespace run is taken whole when a letter or digit
      follows it, and the group then runs over letters, digits and whitespace;
      otherwise the engine gives back one whitespace character to the group, which
      it can only do when the run is at least two long. */
  function ToClauseAt(q: string, p: nat): Option<string> {
    match ToKeywordEnd(Lower(q), p)
    case None => None
    case Some(s0) =>
      if s0 > |q| then None
      else
        var w := RunEnd(q, s0, IsSpace);
        if w == s0 then None
        else if w < |q| && IsAlnum(q[w]) then Some(q[w..RunEnd(q, w, IsNameChar)])
        else if w - s0 >= 2 then Some(q[w - 1..w])
        else None
  }

  function ToClauseFinder(q: string): nat -> Option<string> {
    (p: nat) => ToClauseAt(q, p)
  }

  /** `to_match.group(1).strip()` for the leftmost match, if any. */
  function ToClause(q: string): Option<string> {
    match FirstFrom(ToClauseFinder(q), 0, |q|)
    case None => None
    case Some(g) => Some(Strip(g))
  }

  /** A group found at `p` is a stretch of the query made of letters, digits and
      whitespace. */
  lemma ToClauseAtShape(q: string, p: nat) returns (lo: nat)
    requires ToClauseAt(q, p).Some?
    ensures var g := ToClauseAt(q, p).value;
      lo + |g| <= |q| && q[lo..lo + |g|] == g && forall k :: 0 <= k < |g| ==> IsNameChar(g[k])
  {
    var g := ToClauseAt(q, p).value;
    var s0 := ToKeywordEnd(Lower(q), p).value;
    var w := RunEnd(q, s0, IsSpace);
    var hi: nat;
    if w < |q| && IsAlnum(q[w]) {
      lo, hi := w, RunEnd(q, w, IsNameChar);
    } else {
      lo, hi := w - 1, w;
    }
    assert g == q[lo..hi];
    forall k | 0 <= k < |g| ensures IsNameChar(g[k]) {
      assert g[k] == q[lo + k];
    }
  }

  /** Stripping a stretch of name characters of `q` leaves a stretch of name characters. */
  lemma StripNameStretch(q: string, g: string, lo: nat)
    requires lo + |g| <= |q| && q[lo..lo + |g|] == g && forall k :: 0 <= k < |g| ==> IsNameChar(g[k])
    ensures var n := Strip(g);
      (forall k :: 0 <= k < |n| ==> IsNameChar(n[k])) && Contains(q, n)
  {
    var n := Strip(g);
    var off := StripSlice(g);
    forall k | 0 <= k < |n| ensures IsNameChar(n[k]) {
      assert n[k] == g[off + k];
    }
    SliceOfSlice(q, g, n, lo, off);
  }

  /** Stripping a group found at `p` leaves letters, digits and inner whitespace,
      still a stretch of the query. */
  lemma ToClauseAtName(q: string, p: nat)
    requires ToClauseAt(q, p).Some?
    ensures var n := Strip(ToClauseAt(q, p).value);
      (forall k :: 0 <= k < |n| ==> IsNameChar(n[k])) && Contains(q, n)
  {
    var lo := ToClauseAtShape(q, p);
    StripNameStretch(q, ToClauseAt(q, p).value, lo);
  }

  /** One alternative of `(?:to|send to|email to)` matches the lower-cased text at `p`
      and ends at `s0`. */
  ghost predicate KeywordEndsAt(lq: string, p: nat, s0: nat) {
    || (StartsAt(lq, p, "to") && s0 == p + 2)
    || (StartsAt(lq, p, "send to") && s0 == p + 7)
    || (StartsAt(lq, p, "email to") && s0 == p + 8)
  }

  /** `(?:to|send to|email to)\s+([a-zA-Z0-9\s]+)` matches at `p`, its keyword ending
      at `s0` and its group spanning `q[gs..ge]`. */
  ghost predicate ToSpan(q: string, p: nat, s0: nat, gs: nat, ge: nat) {
    && KeywordEndsAt(Lower(q), p, s0)
    && s0 < gs < ge <= |q|
    && (forall k :: s0 <= k < gs ==> IsSpace(q[k]))
    && (forall k :: gs <= k < ge ==> IsNameChar(q[k]))
  }

  /** The match the engine reports at `p`: backtracking tries the longest `\s+`
      first and, for it, the longest group, so no other match at `p` has a later
      group start, or the same start and a later end. */
  ghost predicate PreferredSpan(q: string, p: nat, s0: nat, gs: nat, ge: nat) {
    && ToSpan(q, p, s0, gs, ge)
    && forall s1: nat, g: nat, e: nat :: ToSpan(q, p, s1, g, e) ==> g < gs || (g == gs && e <= ge)
  }

  /** The alternatives start with different letters, so at most one matches, and
      `ToKeywordEnd` reports it. */
  lemma KeywordEnd(lq: string, p: nat, s0: nat)
    ensures KeywordEndsAt(lq, p, s0) <==> ToKeywordEnd(lq, p) == Some(s0)
  {
    if StartsAt(lq, p, "send to") {
      assert lq[p] == 's';
    }
    if StartsAt(lq, p, "email to") {
      assert lq[p] == 'e';
    }
    if StartsAt(lq, p, "to") {
      assert lq[p] == 't';
    }
  }

  /** What `ToClauseAt` finds is the group of the match the engine reports at `p`. */
  lemma ToClauseAtSpec(q: string, p: nat) returns (s0: nat, gs: nat, ge: nat)
    requires ToClauseAt(q, p).Some?
    ensures PreferredSpan(q, p, s0, gs, ge) && ToClauseAt(q, p).value == q[gs..ge]
  {
    s0 := ToKeywordEnd(Lower(q), p).value;
    KeywordEnd(Lower(q), p, s0);
    var w := RunEnd(q, s0, IsSpace);
    if w < |q| && IsAlnum(q[w]) {
      gs, ge := w, RunEnd(q, w, IsNameChar);
    } else {
      gs, ge := w - 1, w;
    }
    forall s1: nat, g: nat, e: nat | ToSpan(q, p, s1, g, e) ensures g < gs || (g == gs && e <= ge) {
      KeywordEnd(Lower(q), p, s1);
      ToSpanRuns(q, p, s1, g, e);
    }
  }

  /** The whitespace of a match runs at least to its group, and the name characters
      from the group's start at least to its end. */
  lemma ToSpanRuns(q: string, p: nat, s0: nat, gs: nat, ge: nat)
    ensures ToSpan(q, p, s0, gs, ge) ==>
      && RunEnd(q, s0, IsSpace) >= gs
      && RunEnd(q, gs, IsNameChar) >= ge
      && IsNameChar(q[gs])
  {
    if ToSpan(q, p, s0, gs, ge) {
      RunEndBeyond(q, s0, IsSpace, gs);
      RunEndBeyond(q, gs, IsNameChar, ge);
    }
  }

  /** No match starts at a position where `ToClauseAt` fails. */
  lemma NoToSpanAt(q: string, p: nat)
    requires ToClauseAt(q, p).None?
    ensures forall s0: nat, gs: nat, ge: nat :: !ToSpan(q, p, s0, gs, ge)
  {
    forall s0: nat, gs: nat, ge: nat ensures !ToSpan(q, p, s0, gs, ge) {
      KeywordEnd(Lower(q), p, s0);
      ToSpanRuns(q, p, s0, gs, ge);
    }
  }

  /** The name in the "no valid address" message is the group of the leftmost match,
      stripped; no match starts earlier. */
  lemma ToClauseLeftmost(q: string) returns (p: nat, s0: nat, gs: nat, ge: nat)
    requires ToClause(q).Some?
    ensures PreferredSpan(q, p, s0, gs, ge) && ToClause(q).value == Strip(q[gs..ge])
    ensures forall p1: nat, s1: nat, g: nat, e: nat :: p1 < p ==> !ToSpan(q, p1, s1, g, e)
  {
    p := FirstFromIndex(ToClauseFinder(q), 0, |q|);
    assert ToClauseFinder(q)(p) == ToClauseAt(q, p);
    s0, gs, ge := ToClauseAtSpec(q, p);
    forall p1: nat, s1: nat, g: nat, e: nat | p1 < p ensures !ToSpan(q, p1, s1, g, e) {
      assert ToClauseFinder(q)(p1).None?;
      NoToSpanAt(q, p1);
    }
  }

  /** The `to` rule finds a name exactly when the pattern matches somewhere. */
  lemma ToClauseIff(q: string)
    ensures ToClause(q).Some? <==> exists p: nat, s0: nat, gs: nat, ge: nat :: ToSpan(q, p, s0, gs, ge)
  {
    if ToClause(q).Some? {
      var p, s0, gs, ge := ToClauseLeftmost(q);
    } else {
      forall p: nat, s0: nat, gs: nat, ge: nat ensures !ToSpan(q, p, s0, gs, ge) {
        if p <= |q| {
          assert ToClauseFinder(q)(p).None?;
          NoToSpanAt(q, p);
        } else {
          KeywordEnd(Lower(q), p, s0);
        }
      }
    }
  }

  /** The name reported in the "no valid address" message consists of letters, digits
      and whitespace only, and is a stretch of the query. */
  lemma ToClauseName(q: string)
    requires ToClause(q).Some?
    ensures forall k :: 0 <= k < |ToClause(q).value| ==> IsNameChar(ToClause(q).value[k])
    ensures Contains(q, ToClause(q).value)
  {
    var p := FirstFromIndex(ToClauseFinder(q), 0, |q|);
    assert ToClauseFinder(q)(p) == ToClauseAt(q, p);
    ToClauseAtName(q, p);
  }
}
