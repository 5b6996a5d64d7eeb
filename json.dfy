/** JSON values as Python holds them after `json.loads`, the Python operations the
    pipeline applies to them (truthiness, `==`, `str()`, iteration, `d[key]`,
    `key in d`), and `safe_json_parse` (agent_manager.py:55-72, main_code.py:54-69). */
module Json {
  import opened Base
  import opened Text

  /** A parsed JSON value; numbers are integers (floats are not modelled). An object
      keeps its members in the order the text gives them, duplicates included. */
  datatype Json =
    | JNull
    | JBool(b: bool)
    | JNum(n: int)
    | JStr(s: string)
    | JArr(items: seq<Json>)
    | JObj(fields: seq<(string, Json)>)

  /** What `json.loads` does with a text: a value, or a JSONDecodeError with its message. */
  datatype Parsed = Parsed(value: Json) | Malformed(message: string)

  /** `json.loads`; its grammar is not part of this model. */
  type Loads = string -> Parsed

  /** Python's truth value of the parsed object. */
  predicate Truthy(v: Json) {
    match v
    case JNull => false
    case JBool(b) => b
    case JNum(n) => n != 0
    case JStr(s) => s != ""
    case JArr(xs) => xs != []
    case JObj(fs) => fs != []
  }

  /** The type name Python reports in its error messages. */
  function TypeName(v: Json): string {
    match v
    case JNull => "NoneType"
    case JBool(_) => "bool"
    case JNum(_) => "int"
    case JStr(_) => "str"
    case JArr(_) => "list"
    case JObj(_) => "dict"
  }

  /** The first entry of `d` whose key is `key`. */
  function KeyIndex(d: seq<(string, Json)>, key: string): (r: Option<nat>)
    ensures r.Some? ==> r.value < |d| && d[r.value].0 == key
    ensures r.Some? ==> forall i :: 0 <= i < r.value ==> d[i].0 != key
    ensures r.None? ==> forall i :: 0 <= i < |d| ==> d[i].0 != key
    decreases |d|
  {
    if |d| == 0 then None
    else if d[0].0 == key then Some(0)
    else match KeyIndex(d[1..], key)
      case None => None
      case Some(i) => Some(i + 1)
  }

  /** `d[p.0] = p.1` on a dict with distinct keys. */
  function Upsert(d: seq<(string, Json)>, p: (string, Json)): (r: seq<(string, Json)>)
    requires forall i, j :: 0 <= i < j < |d| ==> d[i].0 != d[j].0
    ensures forall q :: q in r ==> q in d || q == p
    ensures forall i, j :: 0 <= i < j < |r| ==> r[i].0 != r[j].0
    ensures |r| > 0
  {
    match KeyIndex(d, p.0)
    case Some(i) => d[i := p]
    case None => d + [p]
  }

  /** The dict Python builds from an object's members: one entry per distinct key,
      in the order keys first appear, holding the last value given for it. */
  function Dict(fields: seq<(string, Json)>): (d: seq<(string, Json)>)
    ensures forall q :: q in d ==> q in fields
    ensures forall i, j :: 0 <= i < j < |d| ==> d[i].0 != d[j].0
    ensures fields != [] ==> d != []
    decreases |fields|
  {
    if |fields| == 0 then []
    else
      var d := Dict(fields[..|fields| - 1]);
      var last := fields[|fields| - 1];
      assert forall q :: q in d ==> q in fields;
      Upsert(d, last)
  }

  /** In a dict with distinct keys, the entry holding `key` is the one `KeyIndex` finds. */
  lemma KeyIndexOf(d: seq<(string, Json)>, key: string, j: nat)
    requires forall i, k :: 0 <= i < k < |d| ==> d[i].0 != d[k].0
    requires j < |d| && d[j].0 == key
    ensures KeyIndex(d, key) == Some(j)
  {
  }

  /** `d[p.0] = p.1` overwrites the entry of that key in place or appends a new one;
      every other key keeps its entry and its position. */
  lemma UpsertKeyIndex(d: seq<(string, Json)>, p: (string, Json), key: string)
    requires forall i, j :: 0 <= i < j < |d| ==> d[i].0 != d[j].0
    ensures var u := Upsert(d, p);
      && (key == p.0 ==> KeyIndex(u, key).Some? && u[KeyIndex(u, key).value] == p)
      && (key == p.0 && KeyIndex(d, key).Some? ==> KeyIndex(u, key) == KeyIndex(d, key))
      && (key == p.0 && KeyIndex(d, key).None? ==> KeyIndex(u, key) == Some(|d|))
      && (key != p.0 ==> KeyIndex(u, key) == KeyIndex(d, key))
      && (key != p.0 && KeyIndex(d, key).Some? ==> u[KeyIndex(d, key).value] == d[KeyIndex(d, key).value])
  {
    var u := Upsert(d, p);
    match KeyIndex(d, p.0)
    case Some(i) =>
      assert u == d[i := p];
      KeyIndexOf(u, p.0, i);
      if key != p.0 {
        match KeyIndex(d, key)
        case Some(j) => KeyIndexOf(u, key, j);
        case None =>
          assert forall k :: 0 <= k < |u| ==> u[k].0 != key;
      }
    case None =>
      assert u == d + [p];
      KeyIndexOf(u, p.0, |d|);
      if key != p.0 {
        match KeyIndex(d, key)
        case Some(j) => KeyIndexOf(u, key, j);
        case None =>
          assert forall k :: 0 <= k < |u| ==> u[k].0 != key;
      }
  }

  /** Every key given in the object is a key of the dict, and no other. */
  lemma {:induction false} DictKeyIndex(fields: seq<(string, Json)>, key: string)
    ensures KeyIndex(Dict(fields), key).Some? <==> KeyIndex(fields, key).Some?
    decreases |fields|
  {
    if |fields| > 0 {
      var init := fields[..|fields| - 1];
      var last := fields[|fields| - 1];
      DictKeyIndex(init, key);
      UpsertKeyIndex(Dict(init), last, key);
      match KeyIndex(init, key)
      case Some(j) =>
        assert fields[j].0 == key;
        assert KeyIndex(fields, key).Some?;
      case None =>
        if last.0 != key {
          assert forall k :: 0 <= k < |fields| ==> fields[k].0 != key by {
            assert forall k :: 0 <= k < |fields| - 1 ==> fields[k] == init[k];
          }
        }
    }
  }

  /** The value the dict holds for a key is the last one the object gives for it. */
  lemma {:induction false} DictLast(fields: seq<(string, Json)>, i: nat)
    requires i < |fields|
    requires forall j :: i < j < |fields| ==> fields[j].0 != fields[i].0
    ensures Lookup(fields, fields[i].0) == Some(fields[i].1)
    decreases |fields|
  {
    var init := fields[..|fields| - 1];
    var last := fields[|fields| - 1];
    var key := fields[i].0;
    UpsertKeyIndex(Dict(init), last, key);
    if i < |fields| - 1 {
      assert init[i] == fields[i];
      DictLast(init, i);
      assert KeyIndex(Dict(init), key).Some?;
    }
  }

  /** A dict key found among the first `n` members keeps the position it had there. */
  lemma {:induction false} DictStable(fields: seq<(string, Json)>, n: nat, key: string)
    requires n <= |fields| && KeyIndex(Dict(fields[..n]), key).Some?
    ensures KeyIndex(Dict(fields), key) == KeyIndex(Dict(fields[..n]), key)
    decreases |fields|
  {
    if n < |fields| {
      var init := fields[..|fields| - 1];
      assert init[..n] == fields[..n];
      DictStable(init, n, key);
      UpsertKeyIndex(Dict(init), fields[|fields| - 1], key);
    } else {
      assert fields[..n] == fields;
    }
  }

  /** The dict lists its keys in the order they first appear in the object. */
  lemma DictOrder(fields: seq<(string, Json)>, i: nat, j: nat)
    requires i < j < |fields|
    requires KeyIndex(fields, fields[i].0) == Some(i) && KeyIndex(fields, fields[j].0) == Some(j)
    ensures KeyIndex(Dict(fields), fields[i].0).Some? && KeyIndex(Dict(fields), fields[j].0).Some?
    ensures KeyIndex(Dict(fields), fields[i].0).value < KeyIndex(Dict(fields), fields[j].0).value
  {
    DictOrderUpTo(fields, i, j);
    DictStable(fields, j + 1, fields[i].0);
    DictStable(fields, j + 1, fields[j].0);
  }

  /** The same, for the dict of the members up to the second key's first one. */
  lemma DictOrderUpTo(fields: seq<(string, Json)>, i: nat, j: nat)
    requires i < j < |fields|
    requires KeyIndex(fields, fields[i].0) == Some(i) && KeyIndex(fields, fields[j].0) == Some(j)
    ensures var e := Dict(fields[..j + 1]);
      && KeyIndex(e, fields[i].0).Some? && KeyIndex(e, fields[j].0).Some?
      && KeyIndex(e, fields[i].0).value < KeyIndex(e, fields[j].0).value
  {
    var a := fields[i].0;
    var before := fields[..j];
    assert before[i] == fields[i];
    assert KeyIndex(before, a).Some?;
    DictKeyIndex(before, a);
    DictNewKey(fields, j);
    DictKeptKey(fields, j, a);
  }

  /** The member where a key first appears adds that key at the end of the dict. */
  lemma DictNewKey(fields: seq<(string, Json)>, j: nat)
    requires j < |fields| && KeyIndex(fields, fields[j].0) == Some(j)
    ensures KeyIndex(Dict(fields[..j + 1]), fields[j].0) == Some(|Dict(fields[..j])|)
  {
    var before := fields[..j];
    assert forall k :: 0 <= k < j ==> before[k] == fields[k];
    DictKeyIndex(before, fields[j].0);
    assert fields[..j + 1][..j] == before;
    UpsertKeyIndex(Dict(before), fields[j], fields[j].0);
  }

  /** A key already in the dict keeps its position when another member is added. */
  lemma DictKeptKey(fields: seq<(string, Json)>, j: nat, key: string)
    requires j < |fields| && fields[j].0 != key && KeyIndex(Dict(fields[..j]), key).Some?
    ensures KeyIndex(Dict(fields[..j + 1]), key) == KeyIndex(Dict(fields[..j]), key)
  {
    assert fields[..j + 1][..j] == fields[..j];
    UpsertKeyIndex(Dict(fields[..j]), fields[j], key);
  }

  /** `d[key]` on the dict an object denotes, when the key is there. */
  function Lookup(fields: seq<(string, Json)>, key: string): Option<Json> {
    var d := Dict(fields);
    match KeyIndex(d, key)
    case Some(i) => Some(d[i].1)
    case None => None
  }

  /** `key in d` */
  predicate HasKey(fields: seq<(string, Json)>, key: string) {
    Lookup(fields, key).Some?
  }

  /** `d.get(key, default)`: only a dict has `get`. */
  function Get(d: Json, key: string, default: Json): (r: Result<Json>)
    ensures r.Ok? <==> d.JObj?
    ensures d.JObj? && HasKey(d.fields, key) ==> r == Ok(Lookup(d.fields, key).value)
    ensures d.JObj? && !HasKey(d.fields, key) ==> r == Ok(default)
  {
    match d
    case JObj(fs) =>
      (match Lookup(fs, key)
       case Some(v) => Ok(v)
       case None => Ok(default))
    case _ => Err("'" + TypeName(d) + "' object has no attribute 'get'")
  }

  function HexDigit(d: nat): char
    requires d < 16
  {
    if d < 10 then ('0' as int + d) as char else ('a' as int + d - 10) as char
  }

  function EscapeChar(c: char, q: char): string {
    if c == '\\' then "\\\\"
    else if c == q then ['\\', q]
    else if c == '\n' then "\\n"
    else if c == '\r' then "\\r"
    else if c == '\t' then "\\t"
    else if c < ' ' || c == '\U{7f}' then "\\x" + [HexDigit(c as int / 16), HexDigit(c as int % 16)]
    else [c]
  }

  function EscapeAll(s: string, q: char): string
    decreases |s|
  {
    if s == [] then "" else EscapeChar(s[0], q) + EscapeAll(s[1..], q)
  }

  /** `repr(s)` of a str: single quotes unless the text holds a single quote and
      no double quote. */
  function QuoteString(s: string): string {
    var q := if '\'' in s && '"' !in s then '"' else '\'';
    [q] + EscapeAll(s, q) + [q]
  }

  /** `repr(v)` */
  function Repr(v: Json): string
    decreases v
  {
    match v
    case JNull => "None"
    case JBool(b) => if b then "True" else "False"
    case JNum(n) => IntToString(n)
    case JStr(s) => QuoteString(s)
    case JArr(xs) =>
      "[" + Join(seq(|xs|, i requires 0 <= i < |xs| => Repr(xs[i])), ", ") + "]"
    case JObj(fs) =>
      var d := Dict(fs);
      "{" + Join(seq(|d|, i requires 0 <= i < |d| =>
                       assert d[i] in fs;
                       QuoteString(d[i].0) + ": " + Repr(d[i].1)), ", ") + "}"
  }

  /** `str(v)`, which is what an f-string and `str.join` over `str(a)` show. */
  function PyStr(v: Json): string {
    match v
    case JStr(s) => s
    case _ => Repr(v)
  }

  /** Python's `==` between two parsed values: `True == 1` and `False == 0`,
      lists element by element, dicts by key regardless of member order. */
  predicate PyEq(a: Json, b: Json)
    decreases a
  {
    match a
    case JBool(x) => (b.JBool? && b.b == x) || (b.JNum? && b.n == (if x then 1 else 0))
    case JNum(n) => (b.JNum? && b.n == n) || (b.JBool? && n == (if b.b then 1 else 0))
    case JArr(xs) =>
      b.JArr? && |xs| == |b.items| && forall i :: 0 <= i < |xs| ==> PyEq(xs[i], b.items[i])
    case JObj(fs) =>
      b.JObj? &&
      var d, e := Dict(fs), Dict(b.fields);
      |d| == |e| &&
      forall i :: 0 <= i < |d| ==>
        assert d[i] in fs;
        exists j :: 0 <= j < |e| && e[j].0 == d[i].0 && PyEq(d[i].1, e[j].1)
    case _ => a == b
  }

  /** `for x in v`: a str yields its characters, a list its items, a dict its keys;
      None, a bool and an int are not iterable (None here). */
  function Iterate(v: Json): (r: Option<seq<Json>>)
    ensures r.None? <==> v.JNull? || v.JBool? || v.JNum?
    ensures r.Some? && Truthy(v) ==> |r.value| > 0
    ensures v.JArr? ==> r == Some(v.items)
    ensures v.JStr? ==> |r.value| == |v.s| && forall k :: 0 <= k < |v.s| ==> r.value[k] == JStr([v.s[k]])
    ensures v.JObj? ==>
      && |r.value| == |Dict(v.fields)|
      && forall k :: 0 <= k < |r.value| ==> r.value[k] == JStr(Dict(v.fields)[k].0)
  {
    match v
    case JStr(s) => Some(seq(|s|, i requires 0 <= i < |s| => JStr([s[i]])))
    case JArr(xs) => Some(xs)
    case JObj(fs) =>
      var d := Dict(fs);
      Some(seq(|d|, i requires 0 <= i < |d| => JStr(d[i].0)))
    case _ => None
  }

  const AgentsKey: string := "\"agents\":"

  predicate NotCloseBracket(c: char) {
    c != ']'
  }

  /** `"agents":\s*(\[[^\]]+\])` matches at `i` with its group spanning
      `text[open..close + 1]`: the key, whitespace up to `[`, at least one character
      other than `]`, then `]`. */
  ghost predicate AgentsSpan(text: string, i: nat, open: nat, close: nat) {
    && StartsAt(text, i, AgentsKey)
    && i + |AgentsKey| <= open && open + 1 < close < |text|
    && (forall k :: i + |AgentsKey| <= k < open ==> IsSpace(text[k]))
    && text[open] == '['
    && (forall k :: open < k < close ==> text[k] != ']')
    && text[close] == ']'
  }

  /** The match of `"agents":\s*(\[[^\]]+\])` tried at position `i`: its group 1. */
  function AgentsArrayAt(text: string, i: nat): Option<string> {
    if !StartsAt(text, i, AgentsKey) then None
    else
      var open := RunEnd(text, i + |AgentsKey|, IsSpace);
      if open < |text| && text[open] == '[' then
        var close := RunEnd(text, open + 1, NotCloseBracket);
        if open + 1 < close < |text| then Some(text[open..close + 1]) else None
      else None
  }

  /** `re.search(r'"agents":\s*(\[[^\]]+\])', text).group(1)` */
  function AgentsArray(text: string): Option<string> {
    FirstFrom(AgentsFinder(text), 0, |text|)
  }

  function AgentsFinder(text: string): nat -> Option<string> {
    (i: nat) => AgentsArrayAt(text, i)
  }

  /** A match at one position is a bracketed list with no `]` inside, preceded by
      `"agents":`. */
  lemma AgentsArrayAtShape(text: string, i: nat)
    requires AgentsArrayAt(text, i).Some?
    ensures var g := AgentsArrayAt(text, i).value;
      |g| >= 3 && g[0] == '[' && g[|g| - 1] == ']' && (forall k :: 0 < k < |g| - 1 ==> g[k] != ']')
    ensures Contains(text, AgentsKey)
  {
    ContainsAt(text, AgentsKey, i);
    var open := RunEnd(text, i + |AgentsKey|, IsSpace);
    var close := RunEnd(text, open + 1, NotCloseBracket);
    var g := text[open..close + 1];
    assert AgentsArrayAt(text, i).value == g;
    forall k | 0 < k < |g| - 1 ensures g[k] != ']' {
      assert g[k] == text[open + k];
    }
  }

  /** A match at one position is a match of the pattern there. */
  lemma AgentsArrayAtSound(text: string, i: nat) returns (open: nat, close: nat)
    requires AgentsArrayAt(text, i).Some?
    ensures AgentsSpan(text, i, open, close) && AgentsArrayAt(text, i).value == text[open..close + 1]
  {
    open := RunEnd(text, i + |AgentsKey|, IsSpace);
    close := RunEnd(text, open + 1, NotCloseBracket);
  }

  /** Wherever the pattern matches, `AgentsArrayAt` finds that match: the whitespace
      run ends at the `[`, and the group ends at the first `]` after it. */
  lemma AgentsArrayAtComplete(text: string, i: nat, open: nat, close: nat)
    ensures AgentsSpan(text, i, open, close) ==> AgentsArrayAt(text, i) == Some(text[open..close + 1])
  {
    if AgentsSpan(text, i, open, close) {
      RunEndAt(text, i + |AgentsKey|, IsSpace, open);
      RunEndAt(text, open + 1, NotCloseBracket, close);
    }
  }

  /** No match starts at a position where `AgentsArrayAt` fails. */
  lemma NoAgentsSpanAt(text: string, i: nat)
    requires AgentsArrayAt(text, i).None?
    ensures forall open: nat, close: nat :: !AgentsSpan(text, i, open, close)
  {
    forall open: nat, close: nat ensures !AgentsSpan(text, i, open, close) {
      AgentsArrayAtComplete(text, i, open, close);
    }
  }

  /** The salvage succeeds exactly when the pattern matches somewhere in the text. */
  lemma AgentsArrayIff(text: string)
    ensures AgentsArray(text).Some? <==> exists i: nat, open: nat, close: nat :: AgentsSpan(text, i, open, close)
  {
    if AgentsArray(text).Some? {
      var i, open, close := AgentsArrayLeftmost(text);
    } else {
      forall i: nat, open: nat, close: nat ensures !AgentsSpan(text, i, open, close) {
        if i <= |text| {
          assert AgentsFinder(text)(i).None?;
          NoAgentsSpanAt(text, i);
        }
      }
    }
  }

  /** The salvage is group 1 of the leftmost match: no match starts earlier. */
  lemma AgentsArrayLeftmost(text: string) returns (i: nat, open: nat, close: nat)
    requires AgentsArray(text).Some?
    ensures AgentsSpan(text, i, open, close) && AgentsArray(text).value == text[open..close + 1]
    ensures forall j: nat, o: nat, c: nat :: j < i ==> !AgentsSpan(text, j, o, c)
  {
    i := FirstFromIndex(AgentsFinder(text), 0, |text|);
    assert AgentsFinder(text)(i) == AgentsArrayAt(text, i);
    open, close := AgentsArrayAtSound(text, i);
    forall j: nat, o: nat, c: nat | j < i ensures !AgentsSpan(text, j, o, c) {
      assert AgentsFinder(text)(j).None?;
      NoAgentsSpanAt(text, j);
    }
  }

  /** What the salvage finds is a bracketed list with no `]` inside, and it is only
      found in a text that holds `"agents":`, so the source's `in` test before the
      search never changes the outcome. */
  lemma AgentsArrayShape(text: string)
    requires AgentsArray(text).Some?
    ensures var g := AgentsArray(text).value;
      |g| >= 3 && g[0] == '[' && g[|g| - 1] == ']' && (forall k :: 0 < k < |g| - 1 ==> g[k] != ']')
    ensures Contains(text, AgentsKey)
  {
    var i := FirstFromIndex(AgentsFinder(text), 0, |text|);
    AgentsArrayAtShape(text, i);
  }

  /** The `agents` object built from a salvaged array, when that array parses. */
  function Salvage(loads: Loads, text: string): Option<Json> {
    if !Contains(text, AgentsKey) then None
    else match AgentsArray(text)
      case None => None
      case Some(g) =>
        match loads(g)
        case Parsed(a) => Some(JObj([("agents", a)]))
        case Malformed(_) => None
  }

  const DefaultAgents: Json := JObj([("agents", JArr([JStr("calendar_list")]))])

  /** `safe_json_parse(text, default)`: the parsed text; else the salvaged `agents`
      array; else `default`, or `{"agents": ["calendar_list"]}` when none is given. */
  function SafeJsonParse(loads: Loads, text: string, default: Option<Json>): Json {
    match loads(text)
    case Parsed(v) => v
    case Malformed(_) =>
      match Salvage(loads, text)
      case Some(v) => v
      case None => if default.Some? then default.value else DefaultAgents
  }

  /** The three outcomes of `safe_json_parse`, each with the condition that selects it. */
  lemma SafeJsonParseOutcomes(loads: Loads, text: string, default: Option<Json>)
    ensures loads(text).Parsed? ==> SafeJsonParse(loads, text, default) == loads(text).value
    ensures loads(text).Malformed? && AgentsArray(text).Some? && loads(AgentsArray(text).value).Parsed? ==>
      SafeJsonParse(loads, text, default) == JObj([("agents", loads(AgentsArray(text).value).value)])
    ensures loads(text).Malformed? && (AgentsArray(text).None? || loads(AgentsArray(text).value).Malformed?) ==>
      SafeJsonParse(loads, text, default) == (if default.Some? then default.value else DefaultAgents)
  {
    if AgentsArray(text).Some? {
      AgentsArrayShape(text);
    }
  }
}
