/** `create_calendar_event` (agent_manager.py:74-252, main_code.py:72-219): the
    LLM's event details are read, the end time is corrected and possibly rewritten
    from a "from X to Y pm" phrase of the query, the event body is assembled, and
    the confirmation text is built. */
module CalendarCreate {
  import opened Base
  import opened Text
  import opened Json
  import opened Services

  const Hour: nat := 60
  const Day: nat := 1440
  const TimeZone: string := "Asia/Kolkata"

  /** `event_details[key]`: the value, KeyError (whose text is the key's repr), or
      the TypeError of subscripting something that is not a dict with a str. */
  function Field(d: Json, key: string): (r: Result<Json>)
    ensures r.Ok? <==> d.JObj? && HasKey(d.fields, key)
    ensures r.Ok? ==> Lookup(d.fields, key) == Some(r.value)
  {
    match d
    case JObj(fs) =>
      (match Lookup(fs, key)
       case Some(v) => Ok(v)
       case None => Err(QuoteString(key)))
    case JArr(_) => Err("list indices must be integers or slices, not str")
    case JStr(_) => Err("string indices must be integers, not 'str'")
    case _ => Err("'" + TypeName(d) + "' object is not subscriptable")
  }

  /** `f"{date}T{time}:00"`, the text handed to `strptime`. */
  function DateTimeText(date: Json, time: Json): string {
    PyStr(date) + "T" + PyStr(time) + ":00"
  }

  /** The end time once the block at agent_manager.py:134-151 (main_code.py:123-134)
      has run: the LLM's end when it is given, differs from the start time, parses and
      lies after the start; an hour after the start otherwise. */
  function CorrectedEnd(clock: Clock, fields: seq<(string, Json)>, date: Json, startTime: Json, start: nat): (r: nat)
    ensures r > start
  {
    match Lookup(fields, "end_time")
    case None => start + Hour
    case Some(e) =>
      if Truthy(e) && !PyEq(e, startTime) then
        match clock.strptime(DateTimeText(date, e))
        case Ok(t) => if t <= start then start + Hour else t
        case Err(_) => start + Hour
      else start + Hour
  }

  /** The LLM's end time is unusable: missing, empty, equal to the start time,
      unparsable, or not after the start. */
  predicate EndRejected(clock: Clock, fields: seq<(string, Json)>, date: Json, startTime: Json, start: nat) {
    match Lookup(fields, "end_time")
    case None => true
    case Some(e) =>
      || !Truthy(e)
      || PyEq(e, startTime)
      || clock.strptime(DateTimeText(date, e)).Err?
      || clock.strptime(DateTimeText(date, e)).value <= start
  }

  /** A rejected end becomes exactly one hour after the start; an accepted one is kept. */
  lemma CorrectedEndCases(clock: Clock, fields: seq<(string, Json)>, date: Json, startTime: Json, start: nat)
    ensures EndRejected(clock, fields, date, startTime, start) ==>
      CorrectedEnd(clock, fields, date, startTime, start) == start + Hour
    ensures !EndRejected(clock, fields, date, startTime, start) ==>
      CorrectedEnd(clock, fields, date, startTime, start)
        == clock.strptime(DateTimeText(date, Lookup(fields, "end_time").value)).value
  {
  }

  /** The end of the group `\d+(?::\d+)?` that starts at `i`. The digits are taken
      whole; the minutes are taken when a colon and a digit follow. */
  function HourEnd(s: string, i: nat): (r: Option<nat>)
    requires i <= |s|
    ensures r.Some? ==> i < r.value <= |s|
  {
    var j := RunEnd(s, i, IsDigit);
    if j == i then None
    else if j + 1 < |s| && s[j] == ':' && IsDigit(s[j + 1]) then Some(RunEnd(s, j + 1, IsDigit))
    else Some(j)
  }

  predicate MeridiemAt(s: string, i: nat) {
    StartsAt(s, i, "am") || StartsAt(s, i, "pm")
  }

  /** A group of the range pattern: digits and colons, starting and ending with a digit. */
  predicate IsClockGroup(g: string) {
    && |g| > 0 && IsDigit(g[0]) && IsDigit(g[|g| - 1])
    && forall k :: 0 <= k < |g| ==> IsDigit(g[k]) || g[k] == ':'
  }

  /** What `HourEnd` delimits is a clock group. */
  lemma HourEndGroup(s: string, i: nat)
    requires i <= |s| && HourEnd(s, i).Some?
    ensures IsClockGroup(s[i..HourEnd(s, i).value])
  {
    var j := RunEnd(s, i, IsDigit);
    var g := s[i..HourEnd(s, i).value];
    forall k | 0 <= k < |g| ensures IsDigit(g[k]) || g[k] == ':' {
      assert g[k] == s[i + k];
    }
    assert g[0] == s[i];
    assert g[|g| - 1] == s[HourEnd(s, i).value - 1];
  }

  /** `\s+(\d+(?::\d+)?)` at `i`: the bounds of the group. */
  function GroupAfterSpace(s: string, i: nat): (r: Option<(nat, nat)>)
    requires i <= |s|
    ensures r.Some? ==> i < r.value.0 < r.value.1 <= |s| && IsClockGroup(s[r.value.0..r.value.1])
  {
    var a := RunEnd(s, i, IsSpace);
    if a == i then None
    else
      match HourEnd(s, a)
      case None => None
      case Some(b) => HourEndGroup(s, a); Some((a, b))
  }

  /** `\s*(?:am|pm)` at `i`: where it ends. */
  function MeridiemEnd(s: string, i: nat): (r: Option<nat>)
    requires i <= |s|
    ensures r.Some? ==> i < r.value <= |s|
  {
    var c := RunEnd(s, i, IsSpace);
    if MeridiemAt(s, c) then Some(c + 2) else None
  }

  /** `\s+to` at `i`: where it ends. */
  function ToAfterSpace(s: string, i: nat): (r: Option<nat>)
    requires i <= |s|
    ensures r.Some? ==> i < r.value <= |s|
  {
    var d := RunEnd(s, i, IsSpace);
    if d == i || !StartsAt(s, d, "to") then None else Some(d + 2)
  }

  /** `from\s+(\d+(?::\d+)?)\s*(?:am|pm)` matched at `p`: the bounds of the group
      and where the `am` or `pm` ends. */
  function FromPart(s: string, p: nat): (r: Option<(nat, nat, nat)>)
    ensures r.Some? ==> p + 4 < r.value.0 < r.value.1 < r.value.2 <= |s|
    ensures r.Some? ==> IsClockGroup(s[r.value.0..r.value.1])
  {
    if !StartsAt(s, p, "from") then None
    else
      match GroupAfterSpace(s, p + 4)
      case None => None
      case Some(first) =>
        match MeridiemEnd(s, first.1)
        case None => None
        case Some(c) => Some((first.0, first.1, c))
  }

  /** `\s+to\s+(\d+(?::\d+)?)\s*(?:am|pm)` matched at `c`: the bounds of the group. */
  function ToPart(s: string, c: nat): (r: Option<(nat, nat)>)
    requires c <= |s|
    ensures r.Some? ==> c < r.value.0 < r.value.1 <= |s| && IsClockGroup(s[r.value.0..r.value.1])
  {
    match ToAfterSpace(s, c)
    case None => None
    case Some(d) =>
      match GroupAfterSpace(s, d)
      case None => None
      case Some(second) => if MeridiemEnd(s, second.1).Some? then Some(second) else None
  }

  /** The two groups of `from\s+(\d+(?::\d+)?)\s*(?:am|pm)\s+to\s+(\d+(?::\d+)?)\s*(?:am|pm)`
      matched at `p` of the lower-cased query. Every repetition is followed by
      something it cannot consume, so the first way the engine tries is the only one
      that can succeed (`RangeAtComplete`). */
  function RangeAt(s: string, p: nat): (r: Option<(string, string)>)
    ensures r.Some? ==> IsClockGroup(r.value.0) && IsClockGroup(r.value.1)
  {
    match FromPart(s, p)
    case None => None
    case Some(first) =>
      match ToPart(s, first.2)
      case None => None
      case Some(second) => Some((s[first.0..first.1], s[second.0..second.1]))
  }

  function RangeFinder(s: string): nat -> Option<(string, string)> {
    (p: nat) => RangeAt(s, p)
  }

  /** `re.search(from_pattern, query.lower(), re.IGNORECASE)`, its two groups. */
  function RangeMatch(s: string): Option<(string, string)> {
    FirstFrom(RangeFinder(s), 0, |s|)
  }

  /** Both groups of a match are clock groups. */
  lemma RangeMatchGroups(s: string)
    requires RangeMatch(s).Some?
    ensures IsClockGroup(RangeMatch(s).value.0) && IsClockGroup(RangeMatch(s).value.1)
  {
    var p := FirstFromIndex(RangeFinder(s), 0, |s|);
    assert RangeFinder(s)(p) == RangeAt(s, p);
  }

  /** `s[i..j]` is all whitespace: a run of `\s*` (or of `\s+` when `i < j`). */
  ghost predicate SpaceRun(s: string, i: nat, j: nat) {
    i <= j <= |s| && forall k :: i <= k < j ==> IsSpace(s[k])
  }

  /** `s[i..j]` is all digits. */
  ghost predicate AllDigits(s: string, i: nat, j: nat) {
    i <= j <= |s| && forall k :: i <= k < j ==> IsDigit(s[k])
  }

  /** `s[a..b]` is a whole match of `\d+(?::\d+)?`: digits, or digits, a colon and
      digits. */
  ghost predicate ClockSpan(s: string, a: nat, b: nat) {
    a < b <= |s|
    && (AllDigits(s, a, b) || exists m :: a < m < b - 1 && AllDigits(s, a, m) && s[m] == ':' && AllDigits(s, m + 1, b))
  }

  /** The positions of one match of the range pattern: `from` at `at`, the first
      group over [hour1, end1), its `am`/`pm` at `mer1`, `to` at `toAt`, the second
      group over [hour2, end2) and its `am`/`pm` at `mer2`. */
  datatype RangeParts = RangeParts(at: nat, hour1: nat, end1: nat, mer1: nat, toAt: nat, hour2: nat, end2: nat, mer2: nat)

  /** `from\s+(\d+(?::\d+)?)\s*(?:am|pm)` over [at, mer1 + 2), its group over
      [hour1, end1). */
  ghost predicate FromHalfSpan(s: string, at: nat, hour1: nat, end1: nat, mer1: nat) {
    && StartsAt(s, at, "from")
    && at + 4 < hour1 && SpaceRun(s, at + 4, hour1)
    && ClockSpan(s, hour1, end1)
    && SpaceRun(s, end1, mer1) && MeridiemAt(s, mer1)
  }

  /** `\s+to\s+(\d+(?::\d+)?)\s*(?:am|pm)` from `c` on, `to` at `toAt` and the group
      over [hour2, end2). */
  ghost predicate ToHalfSpan(s: string, c: nat, toAt: nat, hour2: nat, end2: nat, mer2: nat) {
    && c < toAt && SpaceRun(s, c, toAt) && StartsAt(s, toAt, "to")
    && toAt + 2 < hour2 && SpaceRun(s, toAt + 2, hour2)
    && ClockSpan(s, hour2, end2)
    && SpaceRun(s, end2, mer2) && MeridiemAt(s, mer2)
  }

  /** `r` is a match of `from\s+(\d+(?::\d+)?)\s*(?:am|pm)\s+to\s+(\d+(?::\d+)?)\s*(?:am|pm)`
      in `s`. */
  ghost predicate RangeSpan(s: string, r: RangeParts) {
    FromHalfSpan(s, r.at, r.hour1, r.end1, r.mer1) && ToHalfSpan(s, r.mer1 + 2, r.toAt, r.hour2, r.end2, r.mer2)
  }

  /** What `HourEnd` delimits is a whole match of `\d+(?::\d+)?`. */
  lemma HourEndSpan(s: string, a: nat)
    requires a <= |s| && HourEnd(s, a).Some?
    ensures ClockSpan(s, a, HourEnd(s, a).value)
  {
    var j := RunEnd(s, a, IsDigit);
    var e := HourEnd(s, a).value;
    assert AllDigits(s, a, j);
    if e != j {
      assert s[j] == ':' && AllDigits(s, j + 1, e);
    }
  }

  /** A group followed by a character that can neither extend its digits nor start
      its minutes is the group `HourEnd` delimits. */
  lemma HourEndComplete(s: string, a: nat, b: nat)
    requires ClockSpan(s, a, b) && b < |s| && !IsDigit(s[b]) && s[b] != ':'
    ensures HourEnd(s, a) == Some(b)
  {
    if AllDigits(s, a, b) {
      RunEndAt(s, a, IsDigit, b);
    } else {
      var m :| a < m < b - 1 && AllDigits(s, a, m) && s[m] == ':' && AllDigits(s, m + 1, b);
      RunEndAt(s, a, IsDigit, m);
      assert IsDigit(s[m + 1]);
      RunEndAt(s, m + 1, IsDigit, b);
    }
  }

  /** `\s*(?:am|pm)` over [b, m + 2): the whitespace run stops at the `a` or `p`, and
      the character at `b` can end a group. */
  lemma BeforeMeridiem(s: string, b: nat, m: nat)
    requires SpaceRun(s, b, m) && MeridiemAt(s, m)
    ensures b < |s| && !IsDigit(s[b]) && s[b] != ':'
    ensures MeridiemEnd(s, b) == Some(m + 2)
  {
    assert s[m] == 'a' || s[m] == 'p' by {
      assert s[m] == s[m..m + 2][0];
    }
    RunEndAt(s, b, IsSpace, m);
  }

  /** `\s+` over [i, a) followed by a group over [a, b) that a meridiem follows. */
  lemma GroupAfterSpaceAt(s: string, i: nat, a: nat, b: nat, m: nat)
    requires i < a && SpaceRun(s, i, a) && ClockSpan(s, a, b)
    requires SpaceRun(s, b, m) && MeridiemAt(s, m)
    ensures GroupAfterSpace(s, i) == Some((a, b))
  {
    RunEndAt(s, i, IsSpace, a);
    BeforeMeridiem(s, b, m);
    HourEndComplete(s, a, b);
  }

  /** `\s+to` over [i, t + 2). */
  lemma ToAfterSpaceAt(s: string, i: nat, t: nat)
    requires i < t && SpaceRun(s, i, t) && StartsAt(s, t, "to")
    ensures ToAfterSpace(s, i) == Some(t + 2)
  {
    assert s[t] == s[t..t + 2][0];
    RunEndAt(s, i, IsSpace, t);
  }

  /** The first half of a match found at `p` is a match of its pattern. */
  lemma FromPartSound(s: string, p: nat) returns (mer1: nat)
    requires FromPart(s, p).Some?
    ensures var f := FromPart(s, p).value; FromHalfSpan(s, p, f.0, f.1, mer1) && f.2 == mer1 + 2
  {
    var f := FromPart(s, p).value;
    HourEndSpan(s, f.0);
    mer1 := RunEnd(s, f.1, IsSpace);
  }

  /** The second half of a match found from `c` is a match of its pattern. */
  lemma ToPartSound(s: string, c: nat) returns (toAt: nat, mer2: nat)
    requires c <= |s| && ToPart(s, c).Some?
    ensures var g := ToPart(s, c).value; ToHalfSpan(s, c, toAt, g.0, g.1, mer2)
  {
    var g := ToPart(s, c).value;
    toAt := RunEnd(s, c, IsSpace);
    assert GroupAfterSpace(s, toAt + 2) == Some(g);
    HourEndSpan(s, g.0);
    mer2 := RunEnd(s, g.1, IsSpace);
  }

  /** Wherever the first half matches, `FromPart` finds it. */
  lemma FromPartComplete(s: string, at: nat, hour1: nat, end1: nat, mer1: nat)
    requires FromHalfSpan(s, at, hour1, end1, mer1)
    ensures FromPart(s, at) == Some((hour1, end1, mer1 + 2))
  {
    GroupAfterSpaceAt(s, at + 4, hour1, end1, mer1);
    BeforeMeridiem(s, end1, mer1);
  }

  /** `ToPart` from the results of its three steps. */
  lemma ToPartOf(s: string, c: nat, d: nat, hour2: nat, end2: nat)
    requires c <= d <= |s| && ToAfterSpace(s, c) == Some(d)
    requires GroupAfterSpace(s, d) == Some((hour2, end2)) && MeridiemEnd(s, end2).Some?
    ensures ToPart(s, c) == Some((hour2, end2))
  {
  }

  /** Wherever the second half matches, `ToPart` finds it. */
  lemma ToPartComplete(s: string, c: nat, toAt: nat, hour2: nat, end2: nat, mer2: nat)
    requires ToHalfSpan(s, c, toAt, hour2, end2, mer2)
    ensures ToPart(s, c) == Some((hour2, end2))
  {
    ToAfterSpaceAt(s, c, toAt);
    GroupAfterSpaceAt(s, toAt + 2, hour2, end2, mer2);
    BeforeMeridiem(s, end2, mer2);
    ToPartOf(s, c, toAt + 2, hour2, end2);
  }

  /** A match found at `p` is a match of the pattern, whose groups are the ones
      returned. */
  lemma RangeAtSound(s: string, p: nat) returns (r: RangeParts)
    requires RangeAt(s, p).Some?
    ensures r.at == p && RangeSpan(s, r)
    ensures RangeAt(s, p).value == (s[r.hour1..r.end1], s[r.hour2..r.end2])
  {
    var f := FromPart(s, p).value;
    var mer1 := FromPartSound(s, p);
    var g := ToPart(s, f.2).value;
    var toAt, mer2 := ToPartSound(s, f.2);
    r := RangeParts(p, f.0, f.1, mer1, toAt, g.0, g.1, mer2);
  }

  /** `RangeAt` from the results of its two halves. */
  lemma RangeAtOf(s: string, p: nat, first: (nat, nat, nat), second: (nat, nat))
    requires FromPart(s, p) == Some(first) && ToPart(s, first.2) == Some(second)
    ensures RangeAt(s, p) == Some((s[first.0..first.1], s[second.0..second.1]))
  {
  }

  /** Wherever the pattern matches, `RangeAt` finds it with the same groups: the
      pattern has only one way to match at a position. */
  lemma RangeAtComplete(s: string, r: RangeParts)
    ensures RangeSpan(s, r) ==> RangeAt(s, r.at) == Some((s[r.hour1..r.end1], s[r.hour2..r.end2]))
  {
    if RangeSpan(s, r) {
      var first := (r.hour1, r.end1, r.mer1 + 2);
      var second := (r.hour2, r.end2);
      assert FromPart(s, r.at) == Some(first) by {
        FromPartComplete(s, r.at, r.hour1, r.end1, r.mer1);
      }
      assert ToPart(s, first.2) == Some(second) by {
        ToPartComplete(s, r.mer1 + 2, r.toAt, r.hour2, r.end2, r.mer2);
      }
      RangeAtOf(s, r.at, first, second);
    }
  }

  /** No match starts at a position where `RangeAt` fails. */
  lemma NoRangeSpanAt(s: string, p: nat)
    requires RangeAt(s, p).None?
    ensures forall r: RangeParts :: r.at == p ==> !RangeSpan(s, r)
  {
    forall r: RangeParts | r.at == p ensures !RangeSpan(s, r) {
      RangeAtComplete(s, r);
    }
  }

  /** The search finds groups exactly when the pattern matches somewhere. */
  lemma RangeMatchIff(s: string)
    ensures RangeMatch(s).Some? <==> exists r: RangeParts :: RangeSpan(s, r)
  {
    if RangeMatch(s).Some? {
      var r := RangeMatchLeftmost(s);
    } else {
      forall r: RangeParts ensures !RangeSpan(s, r) {
        if r.at <= |s| {
          assert RangeFinder(s)(r.at).None?;
          NoRangeSpanAt(s, r.at);
        }
      }
    }
  }

  /** The groups found are those of the leftmost match, and of every match that
      starts where it does; no match starts earlier. */
  lemma RangeMatchLeftmost(s: string) returns (r: RangeParts)
    requires RangeMatch(s).Some?
    ensures RangeSpan(s, r) && RangeMatch(s).value == (s[r.hour1..r.end1], s[r.hour2..r.end2])
    ensures forall r': RangeParts :: r'.at < r.at ==> !RangeSpan(s, r')
    ensures forall r': RangeParts :: r'.at == r.at && RangeSpan(s, r') ==>
      (s[r'.hour1..r'.end1], s[r'.hour2..r'.end2]) == RangeMatch(s).value
  {
    var p := FirstFromIndex(RangeFinder(s), 0, |s|);
    assert RangeFinder(s)(p) == RangeAt(s, p);
    r := RangeAtSound(s, p);
    forall r': RangeParts | r'.at < p ensures !RangeSpan(s, r') {
      assert RangeFinder(s)(r'.at).None?;
      NoRangeSpanAt(s, r'.at);
    }
    forall r': RangeParts | r'.at == p && RangeSpan(s, r')
      ensures (s[r'.hour1..r'.end1], s[r'.hour2..r'.end2]) == RangeMatch(s).value
    {
      RangeAtComplete(s, r');
    }
  }

  /** `int()` accepts a clock group exactly when it has no colon (a "4:30" group makes
      it raise), and then gives a value of at least 0. */
  lemma ClockGroupParse(g: string)
    requires IsClockGroup(g)
    ensures ParseInt(g).Some? <==> ':' !in g
    ensures ParseInt(g).Some? ==> ParseInt(g).value >= 0
  {
    StripUnpadded(g);
    if ':' in g {
      var k :| 0 <= k < |g| && g[k] == ':';
      assert !IsDigitGroups(g);
    }
  }

  /** The hour the override uses: `h + 12` below 12, `h` otherwise. */
  function PmHour(h: int): int {
    if h < 12 then h + 12 else h
  }

  /** The hour the "from X to Y pm" phrase of the lower-cased query sets: the
      query holds "from", "to" and "pm", the pattern matches, both groups are
      integers, and the second one's PM hour (plus 12 below noon; "pm" always
      occurs here) is one `replace(hour=…)` accepts. */
  function OverrideHour(lq: string): (r: Option<nat>)
    ensures r.Some? ==> r.value <= 23
  {
    if !(Contains(lq, "from") && Contains(lq, "to") && Contains(lq, "pm")) then None
    else
      match RangeMatch(lq)
      case None => None
      case Some(groups) =>
        match (ParseInt(groups.0), ParseInt(groups.1))
        case (Some(_), Some(h)) => if 0 <= PmHour(h) <= 23 then Some(PmHour(h) as nat) else None
        case _ => None
  }

  /** When the phrase sets an hour, the query holds "from", "to" and "pm", both groups
      are integers, and the hour is the second group's PM hour, an afternoon or
      evening hour. */
  lemma OverrideHourSpec(lq: string)
    requires OverrideHour(lq).Some?
    ensures Contains(lq, "from") && Contains(lq, "to") && Contains(lq, "pm")
    ensures RangeMatch(lq).Some?
    ensures ParseInt(RangeMatch(lq).value.0).Some? && ParseInt(RangeMatch(lq).value.1).Some?
    ensures OverrideHour(lq).value == PmHour(ParseInt(RangeMatch(lq).value.1).value)
    ensures 12 <= OverrideHour(lq).value <= 23
  {
    RangeMatchGroups(lq);
    ClockGroupParse(RangeMatch(lq).value.1);
  }

  /** `start.replace(hour=h, minute=0)` on a date-time held as minutes. */
  function AtHour(start: nat, h: nat): nat {
    start / 1440 * 1440 + h * 60
  }

  /** For an hour of the day, `replace` keeps the day and sets the time to that hour. */
  lemma AtHourSpec(start: nat, h: nat)
    requires h <= 23
    ensures AtHour(start, h) / Day == start / Day
    ensures AtHour(start, h) % Day == h * Hour
  {
    var d := start / 1440;
    assert AtHour(start, h) == d * 1440 + h * 60;
    assert 0 <= h * 60 < 1440;
  }

  /** agent_manager.py:154-176 (main_code.py:137-157): the end put at the hour the
      phrase sets; None (the end left as it was) on any failure. */
  function RangeOverride(query: string, start: nat): Option<nat> {
    match OverrideHour(Lower(query))
    case Some(h) => Some(AtHour(start, h))
    case None => None
  }

  /** The override puts the end on the start's day, on the hour, at an afternoon or
      evening hour; the start is not an input it changes. */
  lemma RangeOverrideSpec(query: string, start: nat)
    requires RangeOverride(query, start).Some?
    ensures var e := RangeOverride(query, start).value;
      && e / Day == start / Day
      && e % Day == OverrideHour(Lower(query)).value * Hour
      && 12 * Hour <= e % Day <= 23 * Hour
  {
    var h := OverrideHour(Lower(query)).value;
    OverrideHourSpec(Lower(query));
    AtHourSpec(start, h);
  }

  /** `\s+` over [i, a) then an hour without minutes over [a, b). */
  lemma SpaceThenHour(s: string, i: nat, a: nat, b: nat)
    requires i < a < b < |s|
    requires forall k :: i <= k < a ==> IsSpace(s[k])
    requires forall k :: a <= k < b ==> IsDigit(s[k])
    requires !IsSpace(s[a]) && !IsDigit(s[b]) && s[b] != ':'
    ensures GroupAfterSpace(s, i) == Some((a, b))
  {
    RunEndAt(s, i, IsSpace, a);
    RunEndAt(s, a, IsDigit, b);
  }

  /** `\s+` over [i, a) then an hour over [a, m), a colon and minutes up to b. */
  lemma SpaceThenHourMinutes(s: string, i: nat, a: nat, m: nat, b: nat)
    requires i < a < m && m + 1 < b < |s|
    requires forall k :: i <= k < a ==> IsSpace(s[k])
    requires forall k :: a <= k < m ==> IsDigit(s[k])
    requires forall k :: m < k < b ==> IsDigit(s[k])
    requires !IsSpace(s[a]) && s[m] == ':' && !IsDigit(s[b])
    ensures GroupAfterSpace(s, i) == Some((a, b))
  {
    RunEndAt(s, i, IsSpace, a);
    RunEndAt(s, a, IsDigit, m);
    RunEndAt(s, m + 1, IsDigit, b);
  }

  /** `\s*` over [i, c) then "am" or "pm" at c. */
  lemma SpaceThenMeridiem(s: string, i: nat, c: nat)
    requires i <= c && MeridiemAt(s, c)
    requires forall k :: i <= k < c ==> IsSpace(s[k])
    requires !IsSpace(s[c])
    ensures MeridiemEnd(s, i) == Some(c + 2)
  {
    RunEndAt(s, i, IsSpace, c);
  }

  /** `\s+` over [i, d) then "to" at d. */
  lemma SpaceThenTo(s: string, i: nat, d: nat)
    requires i < d && StartsAt(s, d, "to")
    requires forall k :: i <= k < d ==> IsSpace(s[k])
    requires !IsSpace(s[d])
    ensures ToAfterSpace(s, i) == Some(d + 2)
  {
    RunEndAt(s, i, IsSpace, d);
  }

  /** Where the query holds "from", "to" and "pm", the guard before the pattern passes. */
  lemma HoldsWords(q: string, f: nat, t: nat, p: nat)
    requires StartsAt(q, f, "from") && StartsAt(q, t, "to") && StartsAt(q, p, "pm")
    ensures Contains(q, "from") && Contains(q, "to") && Contains(q, "pm")
  {
    ContainsAt(q, "from", f);
    ContainsAt(q, "to", t);
    ContainsAt(q, "pm", p);
  }

  lemma FourToSixFirst(q: string)
    requires q == "from 4 pm to 6 pm"
    ensures GroupAfterSpace(q, 4) == Some((5, 6)) && MeridiemEnd(q, 6) == Some(9)
  {
    SpaceThenHour(q, 4, 5, 6);
    SpaceThenMeridiem(q, 6, 7);
  }

  lemma FourToSixSecond(q: string)
    requires q == "from 4 pm to 6 pm"
    ensures ToAfterSpace(q, 9) == Some(12)
    ensures GroupAfterSpace(q, 12) == Some((13, 14)) && MeridiemEnd(q, 14) == Some(17)
  {
    SpaceThenTo(q, 9, 10);
    SpaceThenHour(q, 12, 13, 14);
    SpaceThenMeridiem(q, 14, 15);
  }

  lemma FourToSixMatch(q: string)
    requires q == "from 4 pm to 6 pm"
    ensures RangeMatch(q) == Some(("4", "6"))
  {
    FourToSixFirst(q);
    FourToSixSecond(q);
    assert q[0..4] == "from";
    assert q[5..6] == "4" && q[13..14] == "6";
    assert RangeFinder(q)(0) == RangeAt(q, 0);
  }

  lemma FourToSixHour(q: string)
    requires q == "from 4 pm to 6 pm"
    ensures OverrideHour(q) == Some(18)
  {
    FourToSixMatch(q);
    HoldsWords(q, 0, 10, 7);
    DigitParse('4');
    DigitParse('6');
  }

  lemma FourToSixLower(q: string)
    requires q == "from 4 pm to 6 pm"
    ensures Lower(q) == q
  {
    LowerUnchanged(q);
  }

  /** "from 4 pm to 6 pm" ends the event at 18:00 on the start's day. */
  lemma FourToSix(q: string, start: nat)
    requires q == "from 4 pm to 6 pm"
    ensures RangeOverride(q, start) == Some(AtHour(start, 18))
  {
    FourToSixLower(q);
    FourToSixHour(q);
  }

  lemma TenToOneFirst(q: string)
    requires q == "from 10 pm to 1 am"
    ensures GroupAfterSpace(q, 4) == Some((5, 7)) && MeridiemEnd(q, 7) == Some(10)
  {
    SpaceThenHour(q, 4, 5, 7);
    SpaceThenMeridiem(q, 7, 8);
  }

  lemma TenToOneSecond(q: string)
    requires q == "from 10 pm to 1 am"
    ensures ToAfterSpace(q, 10) == Some(13)
    ensures GroupAfterSpace(q, 13) == Some((14, 15)) && MeridiemEnd(q, 15) == Some(18)
  {
    SpaceThenTo(q, 10, 11);
    SpaceThenHour(q, 13, 14, 15);
    SpaceThenMeridiem(q, 15, 16);
  }

  lemma TenToOneMatch(q: string)
    requires q == "from 10 pm to 1 am"
    ensures RangeMatch(q) == Some(("10", "1"))
  {
    TenToOneFirst(q);
    TenToOneSecond(q);
    assert q[0..4] == "from";
    assert q[5..7] == "10" && q[14..15] == "1";
    assert RangeFinder(q)(0) == RangeAt(q, 0);
  }

  lemma TenToOneWords(q: string)
    requires q == "from 10 pm to 1 am"
    ensures Contains(q, "from") && Contains(q, "to") && Contains(q, "pm")
  {
    HoldsWords(q, 0, 11, 8);
  }

  lemma TenToOneGroups(q: string)
    requires q == "from 10 pm to 1 am"
    ensures ParseInt("10").Some? && ParseInt("1") == Some(1)
  {
    TenToOneMatch(q);
    RangeMatchGroups(q);
    ClockGroupParse("10");
    DigitParse('1');
  }

  lemma TenToOneHour(q: string)
    requires q == "from 10 pm to 1 am"
    ensures OverrideHour(q) == Some(13)
  {
    TenToOneMatch(q);
    TenToOneWords(q);
    TenToOneGroups(q);
  }

  lemma TenToOneLower(q: string)
    requires q == "from 10 pm to 1 am"
    ensures Lower(q) == q
  {
    LowerUnchanged(q);
  }

  /** The override ignores "am" and the start: "from 10 pm to 1 am" for an event
      starting at 22:00 on day 0 ends it at 13:00 the same day, before its start. */
  lemma OverrideCanPrecedeStart(q: string)
    requires q == "from 10 pm to 1 am"
    ensures RangeOverride(q, 22 * Hour) == Some(13 * Hour)
    ensures RangeOverride(q, 22 * Hour).value < 22 * Hour
  {
    TenToOneLower(q);
    TenToOneHour(q);
    assert OverrideHour(Lower(q)) == Some(13);
    assert AtHour(22 * Hour, 13) == 13 * Hour by {
      assert 22 * Hour / 1440 == 0;
    }
  }

  lemma MinutesFirst(q: string)
    requires q == "from 4:30 pm to 6 pm"
    ensures GroupAfterSpace(q, 4) == Some((5, 9)) && MeridiemEnd(q, 9) == Some(12)
  {
    MinutesFirstGroup(q);
    MinutesFirstMeridiem(q);
  }

  lemma MinutesFirstGroup(q: string)
    requires q == "from 4:30 pm to 6 pm"
    ensures GroupAfterSpace(q, 4) == Some((5, 9))
  {
    assert q[4] == ' ' && q[5] == '4' && q[6] == ':' && q[7] == '3' && q[8] == '0' && q[9] == ' ';
    SpaceThenHourMinutes(q, 4, 5, 6, 9);
  }

  lemma MinutesFirstMeridiem(q: string)
    requires q == "from 4:30 pm to 6 pm"
    ensures MeridiemEnd(q, 9) == Some(12)
  {
    assert q[9] == ' ' && q[10] == 'p' && q[11] == 'm';
    SpaceThenMeridiem(q, 9, 10);
  }

  lemma MinutesSecond(q: string)
    requires q == "from 4:30 pm to 6 pm"
    ensures ToAfterSpace(q, 12) == Some(15)
    ensures GroupAfterSpace(q, 15) == Some((16, 17)) && MeridiemEnd(q, 17) == Some(20)
  {
    SpaceThenTo(q, 12, 13);
    SpaceThenHour(q, 15, 16, 17);
    SpaceThenMeridiem(q, 17, 18);
  }

  lemma MinutesMatch(q: string)
    requires q == "from 4:30 pm to 6 pm"
    ensures RangeMatch(q) == Some(("4:30", "6"))
  {
    MinutesFirst(q);
    MinutesSecond(q);
    assert q[0..4] == "from";
    assert q[5..9] == "4:30" && q[16..17] == "6";
    assert RangeFinder(q)(0) == RangeAt(q, 0);
  }

  lemma MinutesLower(q: string)
    requires q == "from 4:30 pm to 6 pm"
    ensures Lower(q) == q
  {
    LowerUnchanged(q);
  }

  /** A start with minutes makes `int()` raise, so "from 4:30 pm to 6 pm" leaves the
      end as it was. */
  lemma MinutesDisableOverride(q: string, start: nat)
    requires q == "from 4:30 pm to 6 pm"
    ensures RangeOverride(q, start).None?
  {
    MinutesLower(q);
    MinutesMatch(q);
    RangeMatchGroups(q);
    ClockGroupParse("4:30");
    assert "4:30"[1] == ':';
  }

  /** The end time of the event: the override if it fires, the corrected end otherwise. */
  function EndTime(clock: Clock, query: string, fields: seq<(string, Json)>, date: Json, startTime: Json, start: nat): (r: nat)
    ensures RangeOverride(query, start).None? ==> r > start
    ensures RangeOverride(query, start).Some? ==> r == RangeOverride(query, start).value
  {
    match RangeOverride(query, start)
    case Some(e) => e
    case None => CorrectedEnd(clock, fields, date, startTime, start)
  }

  /** The end the event receives: when the "from X to Y pm" phrase fires, the start's
      day at the phrase's afternoon or evening hour, minute 0, whatever the model gave
      or the correction made; otherwise the corrected end, after the start. */
  lemma EndTimeSpec(clock: Clock, query: string, fields: seq<(string, Json)>, date: Json, startTime: Json, start: nat)
    ensures var e := EndTime(clock, query, fields, date, startTime, start);
      && (OverrideHour(Lower(query)).Some? ==>
            && e / Day == start / Day
            && e % Day == OverrideHour(Lower(query)).value * Hour
            && 12 * Hour <= e % Day <= 23 * Hour)
      && (OverrideHour(Lower(query)).None? ==> e == CorrectedEnd(clock, fields, date, startTime, start) && e > start)
  {
    if OverrideHour(Lower(query)).Some? {
      RangeOverrideSpec(query, start);
    }
  }

  /** With the override the event can end before it starts: "from 10 pm to 1 am" for
      an event starting at 22:00 on day 0 ends it at 13:00, whatever the model said. */
  lemma EndTimeCanPrecedeStart(clock: Clock, query: string, fields: seq<(string, Json)>, date: Json, startTime: Json)
    requires query == "from 10 pm to 1 am"
    ensures EndTime(clock, query, fields, date, startTime, 22 * Hour) == 13 * Hour
    ensures EndTime(clock, query, fields, date, startTime, 22 * Hour) < 22 * Hour
  {
    OverrideCanPrecedeStart(query);
  }

  /** The attendee values: none unless given and truthy; a list as it is; any other
      value wrapped in a one-element list. */
  function Attendees(fields: seq<(string, Json)>): (r: seq<Json>)
    ensures HasKey(fields, "attendees") && Truthy(Lookup(fields, "attendees").value) ==> r != []
    ensures !HasKey(fields, "attendees") || !Truthy(Lookup(fields, "attendees").value) ==> r == []
    ensures HasKey(fields, "attendees") && Truthy(Lookup(fields, "attendees").value) ==>
      var v := Lookup(fields, "attendees").value;
      r == if v.JArr? then v.items else [v]
  {
    match Lookup(fields, "attendees")
    case None => []
    case Some(v) =>
      if !Truthy(v) then []
      else if v.JArr? then v.items
      else [v]
  }

  /** `[str(a) for a in attendees if a is not None]` */
  function AttendeeTexts(attendees: seq<Json>): (r: seq<string>)
    ensures |r| <= |attendees|
    ensures r == [] <==> forall k :: 0 <= k < |attendees| ==> attendees[k].JNull?
    ensures (forall k :: 0 <= k < |attendees| ==> !attendees[k].JNull?) ==>
      |r| == |attendees| && forall k :: 0 <= k < |r| ==> r[k] == PyStr(attendees[k])
    decreases |attendees|
  {
    if attendees == [] then []
    else
      var rest := AttendeeTexts(attendees[1..]);
      assert forall k :: 1 <= k < |attendees| ==> attendees[k] == attendees[1..][k - 1];
      if attendees[0].JNull? then rest
      else [PyStr(attendees[0])] + rest
  }

  /** The texts of two runs of attendees are the texts of the first run followed by
      those of the second: the comprehension keeps the order of the list. */
  lemma {:induction false} AttendeeTextsConcat(a: seq<Json>, b: seq<Json>)
    ensures AttendeeTexts(a + b) == AttendeeTexts(a) + AttendeeTexts(b)
    decreases |a|
  {
    if a == [] {
      assert a + b == b;
    } else {
      assert (a + b)[1..] == a[1..] + b;
      AttendeeTextsConcat(a[1..], b);
    }
  }

  /** One attendee gives its `str` unless it is None, which is skipped. */
  lemma AttendeeTextOne(x: Json)
    ensures AttendeeTexts([x]) == if x.JNull? then [] else [PyStr(x)]
  {
    assert [x][1..] == [];
  }

  /** `", ".join(...)` of the attendee texts. */
  function AttendeeList(attendees: seq<Json>): string {
    Join(AttendeeTexts(attendees), ", ")
  }

  /** `description += text`: a str grows by the text, a list by its characters; any
      other value raises TypeError. */
  function AppendText(d: Json, text: string): (r: Result<Json>)
    ensures r.Ok? <==> d.JStr? || d.JArr?
    ensures d.JStr? ==> r == Ok(JStr(d.s + text))
    ensures d.JArr? ==> r.Ok? && r.value.JArr? && |r.value.items| == |d.items| + |text|
  {
    match d
    case JStr(s) => Ok(JStr(s + text))
    case JArr(xs) => Ok(JArr(xs + seq(|text|, k requires 0 <= k < |text| => JStr([text[k]]))))
    case _ => Err("unsupported operand type(s) for +=: '" + TypeName(d) + "' and 'str'")
  }

  /** The description's starting value: the given one when truthy, "" otherwise. */
  function GivenDescription(fields: seq<(string, Json)>): Json {
    match Lookup(fields, "description")
    case Some(v) => if Truthy(v) then v else JStr("")
    case None => JStr("")
  }

  /** The description after the attendee line is appended, or the TypeError text. */
  function Description(fields: seq<(string, Json)>): Result<Json> {
    var attendees := Attendees(fields);
    if attendees == [] then Ok(GivenDescription(fields))
    else AppendText(GivenDescription(fields), "\n\nAttendees: " + AttendeeList(attendees))
  }

  /** The location, kept only when given and truthy. */
  function Location(fields: seq<(string, Json)>): (r: Option<Json>)
    ensures r.Some? <==> HasKey(fields, "location") && Truthy(Lookup(fields, "location").value)
    ensures r.Some? ==> r.value == Lookup(fields, "location").value
  {
    match Lookup(fields, "location")
    case Some(v) => if Truthy(v) then Some(v) else None
    case None => None
  }

  /** The event dict handed to `events().insert`; absent keys are None. */
  datatype EventBody = EventBody(
    summary: Json, start: nat, end: nat, timeZone: string,
    location: Option<Json>, description: Option<Json>)

  /** The event body: summary, the two times in Asia/Kolkata, the location when
      truthy, the description (with the attendee line) when truthy. */
  function Body(fields: seq<(string, Json)>, summary: Json, start: nat, end: nat): Result<EventBody> {
    var description :- Description(fields);
    Ok(EventBody(summary, start, end, TimeZone, Location(fields),
                 if Truthy(description) then Some(description) else None))
  }

  /** What the event body promises: the times as given, the location only if truthy,
      a description only if truthy; with attendees, a text description ends with the
      attendee line, and with neither attendees nor a truthy description there is no
      description at all. */
  lemma BodySpec(fields: seq<(string, Json)>, summary: Json, start: nat, end: nat)
    requires Body(fields, summary, start, end).Ok?
    ensures var b := Body(fields, summary, start, end).value;
      && b.summary == summary && b.start == start && b.end == end && b.timeZone == TimeZone
      && (b.location.Some? <==> HasKey(fields, "location") && Truthy(Lookup(fields, "location").value))
      && (b.description.Some? ==> Truthy(b.description.value))
      && (Attendees(fields) != [] && GivenDescription(fields).JStr? ==>
            b.description == Some(JStr(GivenDescription(fields).s + "\n\nAttendees: " + AttendeeList(Attendees(fields)))))
      && (Attendees(fields) == [] && !Truthy(GivenDescription(fields)) ==> b.description.None?)
      && (Attendees(fields) == [] && Truthy(GivenDescription(fields)) ==> b.description == Some(GivenDescription(fields)))
  {
    var d := Description(fields).value;
    assert Body(fields, summary, start, end).value
      == EventBody(summary, start, end, TimeZone, Location(fields), if Truthy(d) then Some(d) else None);
    if Attendees(fields) != [] && GivenDescription(fields).JStr? {
      var given := GivenDescription(fields).s;
      var line := "\n\nAttendees: " + AttendeeList(Attendees(fields));
      assert d == JStr(given + line);
      assert given + line == given + "\n\nAttendees: " + AttendeeList(Attendees(fields));
      assert |given + line| > 0;
    }
  }

  function Header(variant: Variant): string {
    match variant
    case AgentManagerFile => "Event Scheduled Successfully! \U{1F389}"
    case MainCodeFile => "\U{2705} Event Scheduled Successfully!"
  }

  lemma HeaderVisible(variant: Variant)
    ensures HasVisible(Header(variant))
  {
    VisibleFirst(Header(variant));
  }

  /** The four lines every confirmation opens with. */
  function Opening(variant: Variant, clock: Clock, summary: Json, start: nat, end: nat): seq<string> {
    [Header(variant),
     "Event: " + PyStr(summary),
     "Date: " + clock.dateLine(start),
     "Time: " + clock.clockTime(start) + " to " + clock.clockTime(end)]
  }

  /** The location line, present when the event has a location. */
  function LocationLines(fields: seq<(string, Json)>): seq<string> {
    if Location(fields).Some? then ["Location: " + PyStr(Location(fields).value)] else []
  }

  /** The attendee line, present when some attendee is not None. */
  function AttendeeLines(fields: seq<(string, Json)>): seq<string> {
    var attendees := Attendees(fields);
    if attendees != [] && AttendeeList(attendees) != "" then ["Attendees: " + AttendeeList(attendees)] else []
  }

  /** The lines of the confirmation. */
  function ConfirmationLines(variant: Variant, clock: Clock, fields: seq<(string, Json)>, summary: Json,
                             start: nat, end: nat, link: Json): (r: seq<string>)
    ensures |r| == 5 + (if Location(fields).Some? then 1 else 0)
                    + (if Attendees(fields) != [] && AttendeeList(Attendees(fields)) != "" then 1 else 0)
    ensures r[0] == Header(variant) && r[|r| - 1] == "View in Calendar: " + PyStr(link)
  {
    Opening(variant, clock, summary, start, end) + LocationLines(fields) + AttendeeLines(fields)
      + ["View in Calendar: " + PyStr(link)]
  }

  /** The answers of the calendar service and the Groq call for one creation:
      `setup` covers reading the credentials and building the service. */
  datatype CreateEnv = CreateEnv(setup: Result<()>, llm: LlmCall, insert: EventBody -> Result<Json>)

  function Failed(message: string): string {
    "\U{274C} Failed to create calendar event: " + message
  }

  function ParseFailed(message: string): string {
    "\U{274C} Failed to parse event details: " + message
  }

  /** Everything after the details are parsed, up to the confirmation text; an
      exception raised on the way is Err with its text. */
  function Schedule(variant: Variant, clock: Clock, insert: EventBody -> Result<Json>,
                    query: string, details: Json): (r: Result<string>)
    ensures r.Ok? ==> HasVisible(r.value)
  {
    var date :- Field(details, "date");
    var startTime :- Field(details, "start_time");
    var start :- clock.strptime(DateTimeText(date, startTime));
    var fields := details.fields;
    var end := EndTime(clock, query, fields, date, startTime, start);
    var summary :- Field(details, "summary");
    var body :- Body(fields, summary, start, end);
    var result :- insert(body);
    var link :- Get(result, "htmlLink", JNull);
    var lines := ConfirmationLines(variant, clock, fields, summary, start, end, link);
    HeaderVisible(variant);
    JoinVisible(lines, "\n", 0);
    Ok(Join(lines, "\n"))
  }

  /** The reply of `create_calendar_event(query)`. */
  function CreateReply(variant: Variant, lib: Library, env: CreateEnv, query: string): string {
    match env.setup
    case Err(m) => Failed(m)
    case Ok(_) =>
      match env.llm
      case NoClient => GroqMissing
      case Raised(m) => Failed(m)
      case Replied(content) =>
        match lib.loads(content)
        case Malformed(m) => ParseFailed(m)
        case Parsed(details) =>
          match Schedule(variant, lib.clock, env.insert, query, details)
          case Ok(text) => text
          case Err(m) => Failed(m)
  }

  /** Every reply of `create_calendar_event` holds visible text: the failures
      start with a cross mark and the confirmation with its header. */
  lemma CreateReplyVisible(variant: Variant, lib: Library, env: CreateEnv, query: string)
    ensures HasVisible(CreateReply(variant, lib, env, query))
  {
    match env.setup
    case Err(m) => VisibleFirst(Failed(m));
    case Ok(_) =>
      match env.llm
      case NoClient => VisibleLast(GroqMissing);
      case Raised(m) => VisibleFirst(Failed(m));
      case Replied(content) =>
        match lib.loads(content)
        case Malformed(m) => VisibleFirst(ParseFailed(m));
        case Parsed(details) =>
          match Schedule(variant, lib.clock, env.insert, query, details)
          case Ok(text) =>
          case Err(m) => VisibleFirst(Failed(m));
  }

  /** agent_manager.py:134-176: the end time, reassigned step by step. */
  method ResolveEnd(clock: Clock, query: string, fields: seq<(string, Json)>, date: Json, startTime: Json, start: nat)
    returns (end: nat)
    ensures end == EndTime(clock, query, fields, date, startTime, start)
  {
    var endTime := Lookup(fields, "end_time");
    if endTime.Some? && Truthy(endTime.value) && !PyEq(endTime.value, startTime) {
      var endParsed := clock.strptime(DateTimeText(date, endTime.value));
      if endParsed.Ok? {
        end := endParsed.value;
        if end <= start {
          end := start + Hour;
        }
      } else {
        end := start + Hour;
      }
    } else {
      end := start + Hour;
    }
    var override := RangeOverride(query, start);
    if override.Some? {
      end := override.value;
    }
  }

  /** agent_manager.py:183-220: the event dict, its description grown in place. */
  method AssembleBody(fields: seq<(string, Json)>, summary: Json, start: nat, end: nat) returns (body: Result<EventBody>)
    ensures body == Body(fields, summary, start, end)
  {
    var location := Location(fields);
    var description := JStr("");
    var given := Lookup(fields, "description");
    if given.Some? && Truthy(given.value) {
      description := given.value;
    }
    var attendees := Attendees(fields);
    if attendees != [] {
      var extended := AppendText(description, "\n\nAttendees: " + AttendeeList(attendees));
      if extended.Err? {
        return Err(extended.error);
      }
      description := extended.value;
    }
    body := Ok(EventBody(summary, start, end, TimeZone, location,
                         if Truthy(description) then Some(description) else None));
  }

  /** agent_manager.py:226-244: the confirmation lines, appended one by one. */
  method Confirm(variant: Variant, clock: Clock, fields: seq<(string, Json)>, summary: Json,
                 start: nat, end: nat, link: Json) returns (text: string)
    ensures text == Join(ConfirmationLines(variant, clock, fields, summary, start, end, link), "\n")
  {
    var parts := [Header(variant),
                  "Event: " + PyStr(summary),
                  "Date: " + clock.dateLine(start),
                  "Time: " + clock.clockTime(start) + " to " + clock.clockTime(end)];
    ghost var opening := parts;
    var location := Location(fields);
    if location.Some? {
      parts := parts + ["Location: " + PyStr(location.value)];
    }
    assert parts == opening + LocationLines(fields);
    ghost var located := parts;
    var attendees := Attendees(fields);
    if attendees != [] {
      var listed := AttendeeList(attendees);
      if listed != "" {
        parts := parts + ["Attendees: " + listed];
      }
    }
    assert parts == located + AttendeeLines(fields);
    parts := parts + ["View in Calendar: " + PyStr(link)];
    text := Join(parts, "\n");
  }

  /** `create_calendar_event(query)`, step by step as the source runs it. */
  method CreateCalendarEvent(variant: Variant, lib: Library, env: CreateEnv, query: string) returns (reply: string)
    ensures reply == CreateReply(variant, lib, env, query)
  {
    if env.setup.Err? {
      return Failed(env.setup.error);
    }
    if env.llm.NoClient? {
      return GroqMissing;
    }
    if env.llm.Raised? {
      return Failed(env.llm.message);
    }
    var parsed := lib.loads(env.llm.content);
    if parsed.Malformed? {
      return ParseFailed(parsed.message);
    }
    var details := parsed.value;
    var date := Field(details, "date");
    if date.Err? {
      return Failed(date.error);
    }
    var startTime := Field(details, "start_time");
    if startTime.Err? {
      return Failed(startTime.error);
    }
    var startParsed := lib.clock.strptime(DateTimeText(date.value, startTime.value));
    if startParsed.Err? {
      return Failed(startParsed.error);
    }
    var start := startParsed.value;
    var end := ResolveEnd(lib.clock, query, details.fields, date.value, startTime.value, start);
    var summary := Field(details, "summary");
    if summary.Err? {
      return Failed(summary.error);
    }
    var body := AssembleBody(details.fields, summary.value, start, end);
    if body.Err? {
      return Failed(body.error);
    }
    var result := env.insert(body.value);
    if result.Err? {
      return Failed(result.error);
    }
    var link := Get(result.value, "htmlLink", JNull);
    if link.Err? {
      return Failed(link.error);
    }
    reply := Confirm(variant, lib.clock, details.fields, summary.value, start, end, link.value);
  }
}
