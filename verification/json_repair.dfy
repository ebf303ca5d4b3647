/**
  The quote-repair scan over a model's JSON answer (forum_agent/insights.py, _repair_json,
  without its last line, the trailing-comma substitution).

  JSON is the grammar of RFC 8259 sections 2 to 7, given as syntax trees with a printer.
 */
module JsonRepair {

  const QUOTE := '\"'
  const BACKSLASH := '\\'

  predicate IsBlank(c: char) { c == ' ' || c == '\t' }

  /** What may stand after the blanks that follow a closing quote. */
  predicate EndsString(c: char) { c in ",}]:\n\r" }

  /** A quote before this text can close its string: blanks, then a structural character, a line end or nothing. */
  predicate CanClose(t: string) {
    t == [] || EndsString(t[0]) || (IsBlank(t[0]) && CanClose(t[1..]))
  }

  /** There are spaces and tabs, and behind them nothing, a comma, a bracket or brace that closes, a colon or a line end. */
  lemma {:induction false} CanCloseIff(t: string)
    ensures CanClose(t) <==> exists n :: 0 <= n <= |t| && Closer(t, n)
  {
    if t != [] {
      CanCloseIff(t[1..]);
      if n :| 0 <= n <= |t| - 1 && Closer(t[1..], n) && (t[0] == ' ' || t[0] == '\t') {
        assert forall i :: 1 <= i < |t| ==> t[i] == t[1..][i - 1];
        assert Closer(t, n + 1);
      }
      if n :| 0 <= n <= |t| && Closer(t, n) {
        if n > 0 {
          assert t[0] == ' ' || t[0] == '\t';
          assert forall i :: 0 <= i < |t| - 1 ==> t[1..][i] == t[i + 1];
          assert Closer(t[1..], n - 1);
        }
      }
      if CanClose(t) && !(t[0] == ' ' || t[0] == '\t') {
        assert Closer(t, 0);
      }
    } else {
      assert Closer(t, 0);
    }
  }

  predicate Closer(t: string, n: nat)
    requires n <= |t|
  {
    && (forall i :: 0 <= i < n ==> t[i] == ' ' || t[i] == '\t')
    && (n == |t| || t[n] == ',' || t[n] == '}' || t[n] == ']' || t[n] == ':' || t[n] == '\n' || t[n] == '\r')
  }

  // ----- The scan -----

  /** Rewrites `t`, read from inside a string or not. */
  function Scan(t: string, inString: bool): string
    decreases |t|
  {
    if t == [] then []
    else if !inString then [t[0]] + Scan(t[1..], t[0] == QUOTE)
    else if t[0] == BACKSLASH && |t| > 1 then t[..2] + Scan(t[2..], true)
    else if t[0] != QUOTE then [t[0]] + Scan(t[1..], true)
    else if CanClose(t[1..]) then [QUOTE] + Scan(t[1..], false)
    else [BACKSLASH, QUOTE] + Scan(t[1..], true)
  }

  method SkipBlanks(text: string, i: nat) returns (j: nat)
    requires i <= |text|
    ensures i <= j <= |text|
    ensures CanClose(text[i..]) <==> j == |text| || EndsString(text[j])
  {
    j := i;
    while j < |text| && IsBlank(text[j])
      invariant i <= j <= |text|
      invariant CanClose(text[i..]) == CanClose(text[j..])
    {
      assert text[j..][1..] == text[j + 1..];
      j := j + 1;
    }
  }

  /** One step of the scan: what it writes, how far it reads, and whether it is then inside a string. */
  ghost function Emit(t: string, inString: bool): (string, nat, bool)
    requires t != []
  {
    if !inString then ([t[0]], 1, t[0] == QUOTE)
    else if t[0] == BACKSLASH && |t| > 1 then (t[..2], 2, true)
    else if t[0] != QUOTE then ([t[0]], 1, true)
    else if CanClose(t[1..]) then ([QUOTE], 1, false)
    else ([BACKSLASH, QUOTE], 1, true)
  }

  lemma ScanStep(out: string, text: string, i: nat, inString: bool)
    requires i < |text|
    ensures
      var (emitted, n, next) := Emit(text[i..], inString);
      i + n <= |text| && out + Scan(text[i..], inString) == (out + emitted) + Scan(text[i + n..], next)
  {
    var t := text[i..];
    var (emitted, n, next) := Emit(t, inString);
    assert t[n..] == text[i + n..];
    assert Scan(t, inString) == emitted + Scan(t[n..], next);
  }

  method RepairJson(text: string) returns (out: string)
    ensures out == Scan(text, false)
  {
    out := [];
    var i, inString := 0, false;
    assert text[0..] == text;
    while i < |text|
      invariant 0 <= i <= |text|
      invariant out + Scan(text[i..], inString) == Scan(text, false)
    {
      ScanStep(out, text, i, inString);
      var c := text[i];
      assert text[i..][0] == c && text[i..][1..] == text[i + 1..];
      if !inString {
        inString := c == QUOTE;
        out := out + [c];
      } else if c == BACKSLASH && i + 1 < |text| {
        assert text[i..][..2] == text[i..i + 2];
        out := out + text[i..i + 2];
        i := i + 2;
        continue;
      } else if c == QUOTE {
        var j := SkipBlanks(text, i + 1);
        if j >= |text| || EndsString(text[j]) {
          inString := false;
          out := out + [c];
        } else {
          out := out + [BACKSLASH, QUOTE];
        }
      } else {
        out := out + [c];
      }
      i := i + 1;
    }
    assert text[|text|..] == [] && out + [] == out;
  }

  // ----- Where strings end -----

  /** Every unescaped quote that ends a string is followed by blanks and then something that may follow a string. */
  predicate WellClosed(t: string, inString: bool)
    decreases |t|
  {
    if t == [] then true
    else if !inString then WellClosed(t[1..], t[0] == QUOTE)
    else if t[0] == BACKSLASH && |t| > 1 then WellClosed(t[2..], true)
    else if t[0] != QUOTE then WellClosed(t[1..], true)
    else CanClose(t[1..]) && WellClosed(t[1..], false)
  }

  lemma {:induction false} ScanKeepsCanClose(t: string)
    ensures CanClose(t) ==> CanClose(Scan(t, false))
  {
    if t != [] && IsBlank(t[0]) {
      ScanKeepsCanClose(t[1..]);
      assert Scan(t, false)[1..] == Scan(t[1..], false);
    }
  }

  /** After the scan all strings end properly, whatever the text was. */
  lemma {:induction false} ScanIsWellClosed(t: string, inString: bool)
    ensures WellClosed(Scan(t, inString), inString)
    decreases |t|
  {
    if t != [] {
      var out := Scan(t, inString);
      if !inString {
        ScanIsWellClosed(t[1..], t[0] == QUOTE);
        assert out[1..] == Scan(t[1..], t[0] == QUOTE);
      } else if t[0] == BACKSLASH && |t| > 1 {
        ScanIsWellClosed(t[2..], true);
        assert out[2..] == Scan(t[2..], true);
      } else if t[0] != QUOTE {
        ScanIsWellClosed(t[1..], true);
        assert out[1..] == Scan(t[1..], true);
      } else if CanClose(t[1..]) {
        ScanIsWellClosed(t[1..], false);
        ScanKeepsCanClose(t[1..]);
        assert out[1..] == Scan(t[1..], false);
      } else {
        ScanIsWellClosed(t[1..], true);
        assert out[2..] == Scan(t[1..], true);
      }
    }
  }

  /** The scan leaves a text alone exactly when all its strings end properly already. */
  lemma {:induction false} ScanIsIdentityIff(t: string, inString: bool)
    ensures Scan(t, inString) == t <==> WellClosed(t, inString)
    ensures |Scan(t, inString)| >= |t|
    decreases |t|
  {
    if t != [] {
      var out := Scan(t, inString);
      if !inString {
        ScanIsIdentityIff(t[1..], t[0] == QUOTE);
        assert out[1..] == Scan(t[1..], t[0] == QUOTE);
      } else if t[0] == BACKSLASH && |t| > 1 {
        ScanIsIdentityIff(t[2..], true);
        assert out[2..] == Scan(t[2..], true);
        assert t == t[..2] + t[2..];
      } else if t[0] != QUOTE {
        ScanIsIdentityIff(t[1..], true);
        assert out[1..] == Scan(t[1..], true);
      } else {
        var closes := CanClose(t[1..]);
        ScanIsIdentityIff(t[1..], !closes);
        if closes {
          assert out[1..] == Scan(t[1..], false);
        }
      }
    }
  }

  /** Repairing twice is repairing once, for every text. */
  lemma ScanIsIdempotent(t: string)
    ensures Scan(Scan(t, false), false) == Scan(t, false)
  {
    ScanIsWellClosed(t, false);
    ScanIsIdentityIff(Scan(t, false), false);
  }

  // ----- What the scan adds -----

  /** For each character of the output, whether the scan put it there. */
  function Added(t: string, inString: bool): seq<bool>
    decreases |t|
  {
    if t == [] then []
    else if !inString then [false] + Added(t[1..], t[0] == QUOTE)
    else if t[0] == BACKSLASH && |t| > 1 then [false, false] + Added(t[2..], true)
    else if t[0] != QUOTE then [false] + Added(t[1..], true)
    else if CanClose(t[1..]) then [false] + Added(t[1..], false)
    else [true, false] + Added(t[1..], true)
  }

  function Remove(s: string, marks: seq<bool>): string
    requires |marks| == |s|
  {
    if s == [] then [] else (if marks[0] then [] else [s[0]]) + Remove(s[1..], marks[1..])
  }

  lemma {:induction false} RemoveAppend(s: string, marks: seq<bool>, s': string, marks': seq<bool>)
    requires |s| == |marks| && |s'| == |marks'|
    ensures Remove(s + s', marks + marks') == Remove(s, marks) + Remove(s', marks')
  {
    if s == [] {
      assert s + s' == s' && marks + marks' == marks';
    } else {
      assert (s + s')[1..] == s[1..] + s' && (marks + marks')[1..] == marks[1..] + marks';
      RemoveAppend(s[1..], marks[1..], s', marks');
    }
  }

  lemma {:induction false} RemoveNothing(s: string, marks: seq<bool>)
    requires |marks| == |s| && true !in marks
    ensures Remove(s, marks) == s
  {
    if s != [] {
      RemoveNothing(s[1..], marks[1..]);
    }
  }

  lemma AddedStep(head: string, marks: seq<bool>, kept: string, t: string, inString: bool)
    requires |head| == |marks| <= 2 && |Added(t, inString)| == |Scan(t, inString)|
    requires Remove(Scan(t, inString), Added(t, inString)) == t
    requires kept == Remove(head, marks)
    requires forall i :: 0 <= i < |head| && marks[i] ==> head[i] == BACKSLASH && i + 1 < |head| && head[i + 1] == QUOTE
    requires AddsOnlyEscapes(Scan(t, inString), Added(t, inString))
    ensures Remove(head + Scan(t, inString), marks + Added(t, inString)) == kept + t
    ensures AddsOnlyEscapes(head + Scan(t, inString), marks + Added(t, inString))
  {
    RemoveAppend(head, marks, Scan(t, inString), Added(t, inString));
  }

  /** Every added character is a backslash in front of a quote. */
  ghost predicate AddsOnlyEscapes(s: string, marks: seq<bool>) {
    && |marks| == |s|
    && forall i :: 0 <= i < |s| && marks[i] ==> s[i] == BACKSLASH && i + 1 < |s| && s[i + 1] == QUOTE
  }

  /** The scan only adds backslashes in front of quotes, and taking exactly those out restores the text. */
  lemma {:induction false} RemovingAddedRestores(t: string, inString: bool)
    ensures AddsOnlyEscapes(Scan(t, inString), Added(t, inString))
    ensures Remove(Scan(t, inString), Added(t, inString)) == t
    decreases |t|
  {
    if t == [] {
    } else if !inString {
      RemovingAddedRestores(t[1..], t[0] == QUOTE);
      AddedStep([t[0]], [false], [t[0]], t[1..], t[0] == QUOTE);
    } else if t[0] == BACKSLASH && |t| > 1 {
      RemovingAddedRestores(t[2..], true);
      RemoveNothing(t[..2], [false, false]);
      AddedStep(t[..2], [false, false], t[..2], t[2..], true);
    } else if t[0] != QUOTE {
      RemovingAddedRestores(t[1..], true);
      AddedStep([t[0]], [false], [t[0]], t[1..], true);
    } else if CanClose(t[1..]) {
      RemovingAddedRestores(t[1..], false);
      AddedStep([QUOTE], [false], [QUOTE], t[1..], false);
    } else {
      RemovingAddedRestores(t[1..], true);
      assert Remove([BACKSLASH, QUOTE], [true, false]) == [QUOTE];
      AddedStep([BACKSLASH, QUOTE], [true, false], [QUOTE], t[1..], true);
    }
  }

  // ----- JSON -----

  predicate IsSpace(w: string) {
    forall i :: 0 <= i < |w| ==> w[i] in " \t\n\r"
  }

  /** One character of a string as it is written. */
  datatype Item = Plain(c: char) | Escaped(c: char) | Hex(digits: string)

  predicate ValidItem(i: Item) {
    match i
    case Plain(c) => c != QUOTE && c != BACKSLASH && c >= ' '
    case Escaped(c) => c in "\"\\/bfnrt"
    case Hex(digits) => |digits| == 4 && forall k :: 0 <= k < 4 ==> digits[k] in "0123456789abcdefABCDEF"
  }

  /** Syntax trees with their white space. A literal is true, false, null or a number: text without quotes. */
  datatype Value =
    | Literal(text: string)
    | String(items: seq<Item>)
    | EmptyArray(space: string)
    | Array(elements: Elements)
    | EmptyObject(space: string)
    | Object(members: Members)

  datatype Elements =
    | LastElement(before: string, value: Value, after: string)
    | MoreElements(before: string, value: Value, after: string, rest: Elements)

  datatype Members =
    | LastMember(before: string, name: seq<Item>, colon: string, space: string, value: Value, after: string)
    | MoreMembers(before: string, name: seq<Item>, colon: string, space: string, value: Value, after: string, rest: Members)

  predicate ValidItems(items: seq<Item>) {
    forall i :: 0 <= i < |items| ==> ValidItem(items[i])
  }

  predicate Valid(v: Value) {
    match v
    case Literal(text) => QUOTE !in text
    case String(items) => ValidItems(items)
    case EmptyArray(space) => IsSpace(space)
    case Array(elements) => ValidElements(elements)
    case EmptyObject(space) => IsSpace(space)
    case Object(members) => ValidMembers(members)
  }

  predicate ValidElements(e: Elements) {
    IsSpace(e.before) && Valid(e.value) && IsSpace(e.after) && (e.MoreElements? ==> ValidElements(e.rest))
  }

  predicate ValidMembers(m: Members) {
    && IsSpace(m.before) && ValidItems(m.name) && IsSpace(m.colon) && IsSpace(m.space) && Valid(m.value) && IsSpace(m.after)
    && (m.MoreMembers? ==> ValidMembers(m.rest))
  }

  // The printers write a tree in front of the text that follows it.

  function PrintItem(i: Item, rest: string): string {
    match i
    case Plain(c) => [c] + rest
    case Escaped(c) => [BACKSLASH, c] + rest
    case Hex(digits) => [BACKSLASH, 'u'] + (digits + rest)
  }

  function PrintItems(items: seq<Item>, t: string): string {
    if items == [] then t else PrintItem(items[0], PrintItems(items[1..], t))
  }

  function PrintString(items: seq<Item>, t: string): string {
    [QUOTE] + PrintItems(items, [QUOTE] + t)
  }

  function Print(v: Value, t: string): string {
    match v
    case Literal(text) => text + t
    case String(items) => PrintString(items, t)
    case EmptyArray(space) => "[" + (space + ("]" + t))
    case Array(elements) => "[" + PrintElements(elements, "]" + t)
    case EmptyObject(space) => "{" + (space + ("}" + t))
    case Object(members) => "{" + PrintMembers(members, "}" + t)
  }

  function PrintElements(e: Elements, t: string): string {
    e.before + Print(e.value, e.after + if e.MoreElements? then "," + PrintElements(e.rest, t) else t)
  }

  function PrintMembers(m: Members, t: string): string {
    var rest := if m.MoreMembers? then "," + PrintMembers(m.rest, t) else t;
    m.before + PrintString(m.name, m.colon + (":" + (m.space + Print(m.value, m.after + rest))))
  }

  // ----- JSON is left alone -----

  /** Text that may follow a value: everything after it ends properly, and a string just before it may close. */
  predicate May(t: string) {
    CanClose(t) && WellClosed(t, false)
  }

  lemma {:induction false} QuoteFree(u: string, t: string)
    requires QUOTE !in u && WellClosed(t, false)
    ensures WellClosed(u + t, false)
  {
    if u == [] {
      assert u + t == t;
    } else {
      assert (u + t)[1..] == u[1..] + t;
      QuoteFree(u[1..], t);
    }
  }

  lemma {:induction false} SpaceMay(w: string, t: string)
    requires IsSpace(w) && May(t)
    ensures May(w + t)
  {
    if w == [] {
      assert w + t == t;
    } else {
      assert (w + t)[1..] == w[1..] + t;
      SpaceMay(w[1..], t);
    }
  }

  lemma MarkMay(c: char, t: string)
    requires EndsString(c) && WellClosed(t, false)
    ensures May([c] + t)
  {
    assert ([c] + t)[1..] == t;
  }

  lemma OpenMay(c: char, t: string)
    requires c != QUOTE && WellClosed(t, false)
    ensures WellClosed([c] + t, false)
  {
    assert ([c] + t)[1..] == t;
  }

  lemma {:induction false} HexStaysInside(d: string, t: string)
    requires (forall k :: 0 <= k < |d| ==> d[k] != QUOTE && d[k] != BACKSLASH) && WellClosed(t, true)
    ensures WellClosed(d + t, true)
  {
    if d == [] {
      assert d + t == t;
    } else {
      assert (d + t)[1..] == d[1..] + t;
      HexStaysInside(d[1..], t);
    }
  }

  lemma EscapeStaysInside(c: char, t: string)
    requires WellClosed(t, true)
    ensures WellClosed([BACKSLASH, c] + t, true)
  {
    assert ([BACKSLASH, c] + t)[2..] == t;
  }

  lemma ItemStaysInside(i: Item, rest: string)
    requires ValidItem(i) && WellClosed(rest, true)
    ensures WellClosed(PrintItem(i, rest), true)
  {
    match i
    case Plain(c) => HexStaysInside([c], rest);
    case Escaped(c) => EscapeStaysInside(c, rest);
    case Hex(digits) =>
      HexIsPlain(digits);
      HexStaysInside(digits, rest);
      EscapeStaysInside('u', digits + rest);
  }

  lemma {:induction false} ItemsStayInside(items: seq<Item>, t: string)
    requires ValidItems(items) && WellClosed(t, true)
    ensures WellClosed(PrintItems(items, t), true)
  {
    if items != [] {
      ItemsStayInside(items[1..], t);
      ItemStaysInside(items[0], PrintItems(items[1..], t));
    }
  }

  lemma StringIsClosed(items: seq<Item>, t: string)
    requires ValidItems(items) && May(t)
    ensures WellClosed(PrintString(items, t), false)
  {
    assert ([QUOTE] + t)[1..] == t;
    ItemsStayInside(items, [QUOTE] + t);
    assert PrintString(items, t)[1..] == PrintItems(items, [QUOTE] + t);
  }

  lemma {:induction false} ValueIsClosed(v: Value, t: string)
    requires Valid(v) && May(t)
    ensures WellClosed(Print(v, t), false)
  {
    match v {
      case Literal(text) => QuoteFree(text, t);
      case String(items) => StringIsClosed(items, t);
      case EmptyArray(space) =>
        MarkMay(']', t);
        SpaceMay(space, "]" + t);
        OpenMay('[', space + ("]" + t));
      case EmptyObject(space) =>
        MarkMay('}', t);
        SpaceMay(space, "}" + t);
        OpenMay('{', space + ("}" + t));
      case Array(elements) =>
        MarkMay(']', t);
        ElementsAreClosed(elements, "]" + t);
        OpenMay('[', PrintElements(elements, "]" + t));
      case Object(members) =>
        MarkMay('}', t);
        MembersAreClosed(members, "}" + t);
        OpenMay('{', PrintMembers(members, "}" + t));
    }
  }

  lemma {:induction false} ElementsAreClosed(e: Elements, t: string)
    requires ValidElements(e) && May(t)
    ensures WellClosed(PrintElements(e, t), false)
  {
    var rest := t;
    if e.MoreElements? {
      ElementsAreClosed(e.rest, t);
      MarkMay(',', PrintElements(e.rest, t));
      rest := "," + PrintElements(e.rest, t);
    }
    SpaceMay(e.after, rest);
    ValueIsClosed(e.value, e.after + rest);
    QuoteFree(e.before, Print(e.value, e.after + rest));
  }

  lemma {:induction false} MembersAreClosed(m: Members, t: string)
    requires ValidMembers(m) && May(t)
    ensures WellClosed(PrintMembers(m, t), false)
  {
    var rest := t;
    if m.MoreMembers? {
      MembersAreClosed(m.rest, t);
      MarkMay(',', PrintMembers(m.rest, t));
      rest := "," + PrintMembers(m.rest, t);
    }
    SpaceMay(m.after, rest);
    ValueIsClosed(m.value, m.after + rest);
    var value := m.space + Print(m.value, m.after + rest);
    QuoteFree(m.space, Print(m.value, m.after + rest));
    MarkMay(':', value);
    SpaceMay(m.colon, ":" + value);
    StringIsClosed(m.name, m.colon + (":" + value));
    QuoteFree(m.before, PrintString(m.name, m.colon + (":" + value)));
  }

  /** Every JSON text passes through the scan unchanged. */
  lemma JsonIsLeftAlone(before: string, v: Value, after: string)
    requires IsSpace(before) && Valid(v) && IsSpace(after)
    ensures Scan(before + Print(v, after), false) == before + Print(v, after)
  {
    SpaceMay(after, []);
    assert after + [] == after;
    ValueIsClosed(v, after);
    QuoteFree(before, Print(v, after));
    ScanIsIdentityIff(before + Print(v, after), false);
  }

  // ----- JSON with raw quotes in its strings is repaired -----

  /** What may be inside a string, or a raw quote that cannot be taken for the end of it. */
  ghost predicate RawItems(items: seq<Item>, t: string) {
    forall k :: 0 <= k < |items| ==>
      ValidItem(items[k]) || (items[k] == Plain('\"') && !CanClose(PrintItems(items[k + 1..], ['\"'] + t)))
  }

  ghost predicate Raw(v: Value, t: string) {
    match v
    case Literal(text) => QUOTE !in text
    case String(items) => RawItems(items, t)
    case EmptyArray(space) => IsSpace(space)
    case Array(elements) => RawElements(elements, "]" + t)
    case EmptyObject(space) => IsSpace(space)
    case Object(members) => RawMembers(members, "}" + t)
  }

  ghost predicate RawElements(e: Elements, t: string) {
    && IsSpace(e.before) && IsSpace(e.after)
    && Raw(e.value, e.after + if e.MoreElements? then "," + PrintElements(e.rest, t) else t)
    && (e.MoreElements? ==> RawElements(e.rest, t))
  }

  ghost predicate RawMembers(m: Members, t: string) {
    var rest := if m.MoreMembers? then "," + PrintMembers(m.rest, t) else t;
    && IsSpace(m.before) && IsSpace(m.colon) && IsSpace(m.space) && IsSpace(m.after)
    && RawItems(m.name, m.colon + (":" + (m.space + Print(m.value, m.after + rest))))
    && Raw(m.value, m.after + rest)
    && (m.MoreMembers? ==> RawMembers(m.rest, t))
  }

  /** The same tree with those quotes escaped. */
  function EscapeItems(items: seq<Item>): seq<Item> {
    if items == [] then []
    else [if items[0] == Plain('\"') then Escaped('\"') else items[0]] + EscapeItems(items[1..])
  }

  function Escape(v: Value): Value {
    match v
    case String(items) => String(EscapeItems(items))
    case Array(elements) => Array(EscapeElements(elements))
    case Object(members) => Object(EscapeMembers(members))
    case _ => v
  }

  function EscapeElements(e: Elements): Elements {
    match e
    case LastElement(before, value, after) => LastElement(before, Escape(value), after)
    case MoreElements(before, value, after, rest) => MoreElements(before, Escape(value), after, EscapeElements(rest))
  }

  function EscapeMembers(m: Members): Members {
    match m
    case LastMember(before, name, colon, space, value, after) =>
      LastMember(before, EscapeItems(name), colon, space, Escape(value), after)
    case MoreMembers(before, name, colon, space, value, after, rest) =>
      MoreMembers(before, EscapeItems(name), colon, space, Escape(value), after, EscapeMembers(rest))
  }

  lemma {:induction false} ScanOutside(u: string, t: string)
    requires QUOTE !in u
    ensures Scan(u + t, false) == u + Scan(t, false)
  {
    if u == [] {
      assert u + t == t;
    } else {
      assert (u + t)[1..] == u[1..] + t;
      ScanOutside(u[1..], t);
    }
  }

  lemma {:induction false} ScanPlain(d: string, t: string)
    requires forall k :: 0 <= k < |d| ==> d[k] != QUOTE && d[k] != BACKSLASH
    ensures Scan(d + t, true) == d + Scan(t, true)
  {
    if d == [] {
      assert d + t == t;
    } else {
      assert (d + t)[1..] == d[1..] + t;
      ScanPlain(d[1..], t);
    }
  }

  lemma ScanEscape(c: char, t: string)
    ensures Scan([BACKSLASH, c] + t, true) == [BACKSLASH, c] + Scan(t, true)
  {
    var u := [BACKSLASH, c] + t;
    assert u[..2] == [BACKSLASH, c] && u[2..] == t;
  }

  lemma ScanItem(i: Item, t: string)
    requires ValidItem(i)
    ensures Scan(PrintItem(i, t), true) == PrintItem(i, Scan(t, true))
  {
    match i
    case Plain(c) => ScanPlain([c], t);
    case Escaped(c) => ScanEscape(c, t);
    case Hex(digits) => ScanHex(digits, t);
  }

  lemma ScanHex(digits: string, t: string)
    requires ValidItem(Hex(digits))
    ensures Scan([BACKSLASH, 'u'] + (digits + t), true) == [BACKSLASH, 'u'] + (digits + Scan(t, true))
  {
    ScanEscape('u', digits + t);
    HexIsPlain(digits);
    ScanPlain(digits, t);
  }

  lemma HexIsPlain(digits: string)
    requires ValidItem(Hex(digits))
    ensures forall k :: 0 <= k < |digits| ==> digits[k] != QUOTE && digits[k] != BACKSLASH
  {
  }

  lemma ScanRawQuote(t: string)
    requires !CanClose(t)
    ensures Scan(PrintItem(Plain(QUOTE), t), true) == PrintItem(Escaped(QUOTE), Scan(t, true))
  {
    assert ([QUOTE] + t)[1..] == t;
  }

  lemma {:induction false} ScanItems(items: seq<Item>, t: string)
    requires RawItems(items, t)
    ensures Scan(PrintItems(items, [QUOTE] + t), true) == PrintItems(EscapeItems(items), Scan([QUOTE] + t, true))
  {
    if items != [] {
      var later := items[1..];
      assert forall k :: 0 <= k < |later| ==> later[k] == items[k + 1] && later[k + 1..] == items[k + 2..];
      ScanItems(later, t);
      if ValidItem(items[0]) {
        ScanItem(items[0], PrintItems(later, [QUOTE] + t));
      } else {
        ScanRawQuote(PrintItems(later, [QUOTE] + t));
      }
    }
  }

  lemma ScanString(items: seq<Item>, t: string)
    requires RawItems(items, t) && CanClose(t)
    ensures Scan(PrintString(items, t), false) == PrintString(EscapeItems(items), Scan(t, false))
  {
    var inside := PrintItems(items, [QUOTE] + t);
    assert ([QUOTE] + inside)[1..] == inside && ([QUOTE] + t)[1..] == t;
    ScanItems(items, t);
  }

  lemma {:induction false} SpaceCloses(w: string, t: string)
    requires IsSpace(w) && CanClose(t)
    ensures CanClose(w + t)
  {
    if w == [] {
      assert w + t == t;
    } else {
      assert (w + t)[1..] == w[1..] + t;
      SpaceCloses(w[1..], t);
    }
  }

  lemma ScanSpace(w: string, t: string)
    requires IsSpace(w)
    ensures Scan(w + t, false) == w + Scan(t, false)
  {
    assert QUOTE !in w;
    ScanOutside(w, t);
  }

  lemma {:induction false} ScanValue(v: Value, t: string)
    requires Raw(v, t) && CanClose(t)
    ensures Scan(Print(v, t), false) == Print(Escape(v), Scan(t, false))
  {
    match v {
      case Literal(text) => ScanOutside(text, t);
      case String(items) => ScanString(items, t);
      case EmptyArray(space) =>
        ScanOutside("[", space + ("]" + t));
        ScanSpace(space, "]" + t);
        ScanOutside("]", t);
      case EmptyObject(space) =>
        ScanOutside("{", space + ("}" + t));
        ScanSpace(space, "}" + t);
        ScanOutside("}", t);
      case Array(elements) =>
        ScanOutside("[", PrintElements(elements, "]" + t));
        ScanElements(elements, "]" + t);
        ScanOutside("]", t);
      case Object(members) =>
        ScanOutside("{", PrintMembers(members, "}" + t));
        ScanMembers(members, "}" + t);
        ScanOutside("}", t);
    }
  }

  lemma {:induction false} ScanElements(e: Elements, t: string)
    requires RawElements(e, t) && CanClose(t)
    ensures Scan(PrintElements(e, t), false) == PrintElements(EscapeElements(e), Scan(t, false))
  {
    var rest := t;
    if e.MoreElements? {
      rest := "," + PrintElements(e.rest, t);
      ScanElements(e.rest, t);
      ScanOutside(",", PrintElements(e.rest, t));
    }
    SpaceCloses(e.after, rest);
    ScanValue(e.value, e.after + rest);
    ScanSpace(e.after, rest);
    ScanSpace(e.before, Print(e.value, e.after + rest));
  }

  lemma {:induction false} ScanMembers(m: Members, t: string)
    requires RawMembers(m, t) && CanClose(t)
    ensures Scan(PrintMembers(m, t), false) == PrintMembers(EscapeMembers(m), Scan(t, false))
  {
    var rest := t;
    if m.MoreMembers? {
      rest := "," + PrintMembers(m.rest, t);
      ScanMembers(m.rest, t);
      ScanOutside(",", PrintMembers(m.rest, t));
    }
    SpaceCloses(m.after, rest);
    ScanValue(m.value, m.after + rest);
    ScanSpace(m.after, rest);
    var value := Print(m.value, m.after + rest);
    ScanSpace(m.space, value);
    ScanOutside(":", m.space + value);
    SpaceCloses(m.colon, ":" + (m.space + value));
    ScanString(m.name, m.colon + (":" + (m.space + value)));
    ScanSpace(m.colon, ":" + (m.space + value));
    ScanSpace(m.before, PrintString(m.name, m.colon + (":" + (m.space + value))));
  }

  lemma {:induction false} EscapedItemsAreValid(items: seq<Item>, t: string)
    requires RawItems(items, t)
    ensures ValidItems(EscapeItems(items))
  {
    if items != [] {
      var later := items[1..];
      assert forall k :: 0 <= k < |later| ==> later[k] == items[k + 1] && later[k + 1..] == items[k + 2..];
      EscapedItemsAreValid(later, t);
    }
  }

  lemma {:induction false} EscapedIsValid(v: Value, t: string)
    requires Raw(v, t)
    ensures Valid(Escape(v))
  {
    match v {
      case Literal(_) =>
      case EmptyArray(_) =>
      case EmptyObject(_) =>
      case String(items) => EscapedItemsAreValid(items, t);
      case Array(elements) => EscapedElementsAreValid(elements, "]" + t);
      case Object(members) => EscapedMembersAreValid(members, "}" + t);
    }
  }

  lemma {:induction false} EscapedElementsAreValid(e: Elements, t: string)
    requires RawElements(e, t)
    ensures ValidElements(EscapeElements(e))
  {
    EscapedIsValid(e.value, e.after + if e.MoreElements? then "," + PrintElements(e.rest, t) else t);
    if e.MoreElements? {
      EscapedElementsAreValid(e.rest, t);
    }
  }

  lemma {:induction false} EscapedMembersAreValid(m: Members, t: string)
    requires RawMembers(m, t)
    ensures ValidMembers(EscapeMembers(m))
  {
    var rest := if m.MoreMembers? then "," + PrintMembers(m.rest, t) else t;
    EscapedItemsAreValid(m.name, m.colon + (":" + (m.space + Print(m.value, m.after + rest))));
    EscapedIsValid(m.value, m.after + rest);
    if m.MoreMembers? {
      EscapedMembersAreValid(m.rest, t);
    }
  }

  /**
    What the scan is for. A text that is JSON but for raw quotes inside its strings, none of which could be taken for the
    end of its string, comes out as the same JSON with those quotes escaped.
   */
  lemma RawQuotesAreRepaired(before: string, v: Value, after: string)
    requires IsSpace(before) && Raw(v, after) && IsSpace(after)
    ensures Valid(Escape(v)) && Scan(before + Print(v, after), false) == before + Print(Escape(v), after)
  {
    EscapedIsValid(v, after);
    assert after + [] == after;
    SpaceCloses(after, []);
    ScanSpace(after, []);
    ScanValue(v, after);
    ScanSpace(before, Print(v, after));
  }
}
