/**
  The live insight panel (forum_agent/insights.py): what a refresh puts on it, what the operator
  changes, and what may be shown as approved.

  Items are values. The source lets one item stand in a section twice as one object; the copies
  are proved equal, so nothing depends on it here. The model's answers, the transcript and new
  identifiers are inputs.
 */
module Insights {
  import opened Common

  type Id = nat

  // ----- Grounding -----

  /** Which characters count and what they fold to; both depend on Unicode tables. */
  datatype Alphabet = Alphabet(counts: char -> bool, fold: char -> string)

  function Norm(a: Alphabet, text: string): string {
    if text == [] then [] else (if a.counts(text[0]) then a.fold(text[0]) else []) + Norm(a, text[1..])
  }

  predicate OccursAt(q: string, t: string, i: nat) {
    i <= |t| - |q| && t[i..i + |q|] == q
  }

  predicate Occurs(q: string, t: string) {
    exists i | 0 <= i <= |t| :: OccursAt(q, t, i)
  }

  const MIN_QUOTE := 4

  predicate Grounded(a: Alphabet, quote: string, tnorm: string) {
    |Norm(a, quote)| >= MIN_QUOTE && Occurs(Norm(a, quote), tnorm)
  }

  lemma {:induction false} NormAppend(a: Alphabet, s: string, t: string)
    ensures Norm(a, s + t) == Norm(a, s) + Norm(a, t)
  {
    if s == [] {
      assert s + t == t;
    } else {
      assert (s + t)[1..] == s[1..] + t;
      NormAppend(a, s[1..], t);
    }
  }

  /** A long enough verbatim quote is grounded, wherever it stands; so is one that differs in characters that do not count. */
  lemma VerbatimQuoteIsGrounded(a: Alphabet, before: string, said: string, after: string, quote: string)
    requires Norm(a, quote) == Norm(a, said) && |Norm(a, said)| >= 4
    ensures Grounded(a, quote, Norm(a, before + said + after))
  {
    NormAppend(a, before + said, after);
    NormAppend(a, before, said);
    var t := Norm(a, before + said + after);
    var i := |Norm(a, before)|;
    assert t[i..i + |Norm(a, said)|] == Norm(a, said);
    assert OccursAt(Norm(a, quote), t, i);
  }

  /** A quote is grounded when at least four of its folded characters count and they stand in the transcript as one piece. */
  lemma GroundedIff(a: Alphabet, quote: string, tnorm: string)
    ensures Grounded(a, quote, tnorm) <==> |Norm(a, quote)| >= 4 && exists before, after :: tnorm == before + Norm(a, quote) + after
  {
    var q := Norm(a, quote);
    if i :| 0 <= i <= |tnorm| && OccursAt(q, tnorm, i) {
      assert tnorm == tnorm[..i] + q + tnorm[i + |q|..];
    }
    if before, after :| tnorm == before + q + after {
      assert tnorm[|before|..|before| + |q|] == q;
      assert OccursAt(q, tnorm, |before|);
    }
  }

  /** What is compared: the folded forms of the characters that count, in order. */
  lemma NormIs(a: Alphabet, c: char, text: string)
    ensures Norm(a, []) == []
    ensures Norm(a, text + [c]) == Norm(a, text) + if a.counts(c) then a.fold(c) else []
  {
    NormAppend(a, text, [c]);
    assert [c][1..] == [];
    var folded := if a.counts(c) then a.fold(c) else [];
    assert folded + [] == folded;
  }

  // ----- The panel -----

  datatype Kind = SummaryPoints | NextSteps | EmergingConsensus | Tensions | OpenQuestions

  const KINDS := [SummaryPoints, NextSteps, EmergingConsensus, Tensions, OpenQuestions]

  function Number(k: Kind): (j: nat)
    ensures j < |KINDS| && KINDS[j] == k
  {
    match k case SummaryPoints => 0 case NextSteps => 1 case EmergingConsensus => 2 case Tensions => 3 case OpenQuestions => 4
  }

  function MaxItems(k: Kind): nat { if k.SummaryPoints? then 6 else 4 }

  datatype Status = Approved | Draft | Hidden

  datatype Item = Item(id: Id, zh: string, en: string, quote: string, grounded: bool, status: Status)

  /** One entry of the model's answer, with the identifier a new item made of it would get. */
  datatype Suggestion = Malformed | Suggestion(zh: string, en: string, quote: string, id: Id)

  datatype Entry = Entry(zh: string, en: string)

  datatype Section = Section(items: seq<Item>, log: seq<Entry>)

  datatype Panel = Panel(sections: map<Kind, Section>, hidden: seq<string>)

  const EMPTY := Panel(map[], [])

  function At(p: Panel, k: Kind): Section {
    if k in p.sections then p.sections[k] else Section([], [])
  }

  // ----- Refresh -----

  /** The items by text; of several with one text the last. */
  function ByText(items: seq<Item>): map<string, Item> {
    if items == [] then map[]
    else
      var last := items[|items| - 1];
      ByText(items[..|items| - 1])[last.zh := last]
  }

  /** What a refresh looks at besides the answer. */
  datatype Context = Context(alphabet: Alphabet, tnorm: string, hidden: set<string>, autoApprove: bool)

  predicate IsGrounded(c: Context, quote: string) { Grounded(c.alphabet, quote, c.tnorm) }

  function NewItem(c: Context, s: Suggestion): Item
    requires s.Suggestion?
  {
    var grounded := IsGrounded(c, s.quote);
    Item(s.id, s.zh, s.en, s.quote, grounded, if c.autoApprove && grounded then Approved else Draft)
  }

  predicate Usable(c: Context, s: Suggestion) {
    s.Suggestion? && s.zh != "" && s.zh !in c.hidden
  }

  /** An item whose own quote has left the transcript takes the suggestion's quote, if that one is there. */
  function Requoted(c: Context, s: Suggestion, prev: map<string, Item>): map<string, Item> {
    if Usable(c, s) && s.zh in prev && !IsGrounded(c, prev[s.zh].quote) && IsGrounded(c, s.quote)
    then prev[s.zh := prev[s.zh].(quote := s.quote)]
    else prev
  }

  /** The new section before it is cut to size: an item with a suggested text stays while its quote is in the transcript. */
  function Snapshot(c: Context, offered: seq<Suggestion>, prev: map<string, Item>): seq<Item>
    decreases |offered|
  {
    if offered == [] then []
    else
      var s := offered[0];
      var now := Requoted(c, s, prev);
      var rest := Snapshot(c, offered[1..], now);
      if !Usable(c, s) then rest
      else if s.zh !in now then [NewItem(c, s)] + rest
      else if IsGrounded(c, now[s.zh].quote) then [now[s.zh]] + rest
      else rest
  }

  function Cut(items: seq<Item>, n: nat): seq<Item> {
    if |items| <= n then items else items[..n]
  }

  predicate Logged(log: seq<Entry>, zh: string) {
    exists i :: 0 <= i < |log| && log[i].zh == zh
  }

  function LogApproved(log: seq<Entry>, item: Item): seq<Entry> {
    if Logged(log, item.zh) then log else log + [Entry(item.zh, item.en)]
  }

  function LogAll(log: seq<Entry>, items: seq<Item>): seq<Entry>
    decreases |items|
  {
    if items == [] then log else LogAll(LogApproved(log, items[0]), items[1..])
  }

  function RefreshSection(c: Context, s: Section, offered: seq<Suggestion>, size: nat): Section {
    var items := Cut(Snapshot(c, offered, ByText(s.items)), size);
    Section(items, if c.autoApprove then LogAll(s.log, items) else s.log)
  }

  type Answer = Kind -> seq<Suggestion>

  function ContextOf(p: Panel, a: Alphabet, transcript: string, autoApprove: bool): Context {
    Context(a, Norm(a, transcript), (set z | z in p.hidden), autoApprove)
  }

  function Refreshed(c: Context, p: Panel, answer: Answer, k: Kind): Section {
    RefreshSection(c, At(p, k), answer(k), MaxItems(k))
  }

  function Refresh(p: Panel, a: Alphabet, transcript: string, autoApprove: bool, answer: Answer): Panel {
    var c := ContextOf(p, a, transcript, autoApprove);
    p.(sections := map k | k in KINDS :: Refreshed(c, p, answer, k))
  }

  // ----- The operator -----

  datatype Action = Approve | Hide | Demote | Edit(zh: string, en: string) | Unknown

  function Without(log: seq<Entry>, zh: string): seq<Entry> {
    if log == [] then [] else (if log[0].zh == zh then [] else [log[0]]) + Without(log[1..], zh)
  }

  function Lift(hidden: seq<string>, zh: string): seq<string> {
    if hidden == [] then [] else (if hidden[0] == zh then [] else [hidden[0]]) + Lift(hidden[1..], zh)
  }

  function OrKept(text: string, kept: string): string { if text == "" then kept else text }

  /** What an action makes of one item, its section's log and the hidden texts. */
  function ActOn(a: Action, it: Item, log: seq<Entry>, hidden: seq<string>): (Item, seq<Entry>, seq<string>) {
    match a
    case Edit(zh, en) =>
      var it' := it.(zh := OrKept(zh, it.zh), en := OrKept(en, it.en), status := Approved);
      (it', LogApproved(Without(log, it.zh), it'), hidden)
    case Approve => (it.(status := Approved), LogApproved(log, it), Lift(hidden, it.zh))
    case Hide => (it.(status := Hidden), Without(log, it.zh), hidden + [it.zh])
    case Demote => (it.(status := Draft), Without(log, it.zh), Lift(hidden, it.zh))
    case Unknown => (it, log, hidden)
  }

  /** Every item with the identifier, from the front. */
  function ActInSection(a: Action, id: Id, items: seq<Item>, log: seq<Entry>, hidden: seq<string>): (Section, seq<string>) {
    if items == [] then (Section([], log), hidden)
    else if items[0].id != id then
      var (s, h) := ActInSection(a, id, items[1..], log, hidden);
      (s.(items := [items[0]] + s.items), h)
    else
      var (it, log', hidden') := ActOn(a, items[0], log, hidden);
      var (s, h) := ActInSection(a, id, items[1..], log', hidden');
      (s.(items := [it] + s.items), h)
  }

  /** The sections from number `i` on. */
  function SetFrom(p: Panel, i: nat, id: Id, a: Action): Panel
    requires i <= |KINDS|
    decreases |KINDS| - i
  {
    if i == |KINDS| then p
    else
      var (s, hidden) := ActInSection(a, id, At(p, KINDS[i]).items, At(p, KINDS[i]).log, p.hidden);
      SetFrom(Panel(p.sections[KINDS[i] := s], hidden), i + 1, id, a)
  }

  function SetItem(p: Panel, id: Id, a: Action): Panel { SetFrom(p, 0, id, a) }

  // ----- After a refresh -----

  ghost predicate ByOwnText(prev: map<string, Item>) {
    forall z :: z in prev ==> prev[z].zh == z
  }

  lemma {:induction false} ByTextFinds(items: seq<Item>)
    ensures ByOwnText(ByText(items))
    ensures forall z :: z in ByText(items) ==> ByText(items)[z] in items
  {
    if items != [] {
      ByTextFinds(items[..|items| - 1]);
    }
  }

  /** Nothing hidden is shown, and nothing approved is without its quote in the transcript. */
  ghost predicate Clean(c: Context, it: Item) {
    it.zh !in c.hidden && (it.status.Approved? ==> IsGrounded(c, it.quote))
  }

  /** The item as it was on the panel, but for its quote. */
  ghost predicate CarriedFrom(it: Item, before: Item) {
    it == before.(quote := it.quote)
  }

  ghost predicate Comes(c: Context, it: Item, offered: seq<Suggestion>, prev: map<string, Item>) {
    || (it.zh in prev && CarriedFrom(it, prev[it.zh]) && IsGrounded(c, it.quote))
    || exists i :: 0 <= i < |offered| && offered[i].Suggestion? && it == NewItem(c, offered[i]) && it.zh !in prev
  }

  lemma ComesLater(c: Context, it: Item, offered: seq<Suggestion>, prev: map<string, Item>, prev': map<string, Item>)
    requires offered != [] && Comes(c, it, offered[1..], prev')
    requires prev'.Keys == prev.Keys && forall z :: z in prev ==> CarriedFrom(prev'[z], prev[z])
    ensures Comes(c, it, offered, prev)
  {
    if !(it.zh in prev' && CarriedFrom(it, prev'[it.zh]) && IsGrounded(c, it.quote)) {
      var i :| 0 <= i < |offered| - 1 && offered[1..][i].Suggestion? && it == NewItem(c, offered[1..][i]) && it.zh !in prev';
      assert offered[i + 1] == offered[1..][i];
    }
  }

  /** Where the items of a new section come from: a carried item has a current quote, a new one comes from the answer. */
  lemma {:induction false} SnapshotComesFrom(c: Context, offered: seq<Suggestion>, prev: map<string, Item>)
    requires ByOwnText(prev)
    ensures forall it :: it in Snapshot(c, offered, prev) ==> it.zh !in c.hidden && Comes(c, it, offered, prev)
    decreases |offered|
  {
    if offered != [] {
      var rest, now := offered[1..], Requoted(c, offered[0], prev);
      SnapshotComesFrom(c, rest, now);
      forall it | it in Snapshot(c, offered, prev)
        ensures it.zh !in c.hidden && Comes(c, it, offered, prev)
      {
        if it in Snapshot(c, rest, now) {
          ComesLater(c, it, offered, prev, now);
        }
      }
    }
  }

  lemma {:induction false} CarriedUnchanged(c: Context, offered: seq<Suggestion>, prev: map<string, Item>, it: Item)
    requires ByOwnText(prev) && it in Snapshot(c, offered, prev) && it.zh in prev && IsGrounded(c, prev[it.zh].quote)
    ensures it == prev[it.zh]
    decreases |offered|
  {
    var rest, now := offered[1..], Requoted(c, offered[0], prev);
    if it in Snapshot(c, rest, now) {
      CarriedUnchanged(c, rest, now, it);
    }
  }

  /** Two copies of a carried item are the same item, so it does not matter that the source keeps one object for both. */
  lemma {:induction false} CopiesAgree(c: Context, offered: seq<Suggestion>, prev: map<string, Item>, it: Item, copy: Item)
    requires ByOwnText(prev) && it.zh in prev && copy.zh == it.zh
    requires it in Snapshot(c, offered, prev) && copy in Snapshot(c, offered, prev)
    ensures copy == it
    decreases |offered|
  {
    var rest, now := offered[1..], Requoted(c, offered[0], prev);
    if IsGrounded(c, now[it.zh].quote) {
      if it in Snapshot(c, rest, now) {
        CarriedUnchanged(c, rest, now, it);
      }
      if copy in Snapshot(c, rest, now) {
        CarriedUnchanged(c, rest, now, copy);
      }
    } else {
      CopiesAgree(c, rest, now, it, copy);
    }
  }

  lemma SectionIsClean(c: Context, s: Section, offered: seq<Suggestion>, size: nat)
    ensures
      var items := RefreshSection(c, s, offered, size).items;
      |items| <= size && forall it :: it in items ==> Clean(c, it)
  {
    ByTextFinds(s.items);
    SnapshotComesFrom(c, offered, ByText(s.items));
  }

  /** After a refresh every section keeps its size, shows nothing hidden, and approves nothing without its quote. */
  lemma RefreshIsClean(p: Panel, a: Alphabet, transcript: string, autoApprove: bool, answer: Answer, k: Kind, it: Item)
    ensures |At(Refresh(p, a, transcript, autoApprove, answer), k).items| <= if k.SummaryPoints? then 6 else 4
    ensures it in At(Refresh(p, a, transcript, autoApprove, answer), k).items ==>
              it.zh !in p.hidden && (it.status.Approved? ==> Grounded(a, it.quote, Norm(a, transcript)))
  {
    SectionIsClean(ContextOf(p, a, transcript, autoApprove), At(p, k), answer(k), MaxItems(k));
  }

  // ----- What a refresh shows, field by field -----

  /** The item as it was, with this quote. */
  predicate IsKept(it: Item, before: Item, quote: string) {
    it == Item(before.id, before.zh, before.en, quote, before.grounded, before.status)
  }

  /** A new item has what was suggested; it is approved at once only if that is wanted and its quote is in the transcript. */
  predicate IsNew(c: Context, it: Item, s: Suggestion) {
    && s.Suggestion? && it.id == s.id && it.zh == s.zh && it.en == s.en && it.quote == s.quote
    && it.grounded == Grounded(c.alphabet, s.quote, c.tnorm)
    && it.status == if c.autoApprove && Grounded(c.alphabet, s.quote, c.tnorm) then Approved else Draft
  }

  /** The quote an item goes on with: its own while that is in the transcript, otherwise the first suggested for its text that is. */
  ghost predicate IsCurrentQuote(c: Context, before: Item, offered: seq<Suggestion>, quote: string) {
    if Grounded(c.alphabet, before.quote, c.tnorm) then quote == before.quote
    else exists i :: 0 <= i < |offered| && FirstQuote(c, offered, before.zh, i) && quote == offered[i].quote
  }

  ghost predicate FirstQuote(c: Context, offered: seq<Suggestion>, zh: string, i: nat)
    requires i < |offered|
  {
    Quotes(c, offered[i], zh) && forall j :: 0 <= j < i ==> !Quotes(c, offered[j], zh)
  }

  predicate Quotes(c: Context, s: Suggestion, zh: string) {
    s.Suggestion? && s.zh == zh && Grounded(c.alphabet, s.quote, c.tnorm)
  }

  lemma {:induction false} ShownTextIsUsable(c: Context, offered: seq<Suggestion>, prev: map<string, Item>, it: Item)
    requires ByOwnText(prev) && it in Snapshot(c, offered, prev)
    ensures it.zh != "" && it.zh !in c.hidden
    decreases |offered|
  {
    var rest, now := offered[1..], Requoted(c, offered[0], prev);
    if it in Snapshot(c, rest, now) {
      ShownTextIsUsable(c, rest, now, it);
    }
  }

  lemma FirstQuoteLater(c: Context, offered: seq<Suggestion>, before: Item, quote: string)
    requires offered != [] && !Grounded(c.alphabet, before.quote, c.tnorm) && !Quotes(c, offered[0], before.zh)
    requires IsCurrentQuote(c, before, offered[1..], quote)
    ensures IsCurrentQuote(c, before, offered, quote)
  {
    var tail := offered[1..];
    var i :| 0 <= i < |tail| && FirstQuote(c, tail, before.zh, i) && quote == tail[i].quote;
    assert offered[i + 1] == tail[i];
    forall j | 0 <= j < i + 1
      ensures !Quotes(c, offered[j], before.zh)
    {
      assert j > 0 ==> offered[j] == tail[j - 1];
    }
    assert FirstQuote(c, offered, before.zh, i + 1);
  }

  lemma {:induction false} KeptQuote(c: Context, offered: seq<Suggestion>, prev: map<string, Item>, it: Item)
    requires ByOwnText(prev) && it in Snapshot(c, offered, prev) && it.zh in prev
    ensures IsCurrentQuote(c, prev[it.zh], offered, it.quote)
    decreases |offered|
  {
    var s, rest := offered[0], offered[1..];
    var before, now := prev[it.zh], Requoted(c, s, prev);
    ShownTextIsUsable(c, offered, prev, it);
    if IsGrounded(c, before.quote) {
      CarriedUnchanged(c, offered, prev, it);
    } else if Quotes(c, s, it.zh) {
      if it in Snapshot(c, rest, now) {
        CarriedUnchanged(c, rest, now, it);
      }
      assert FirstQuote(c, offered, before.zh, 0);
    } else {
      KeptQuote(c, rest, now, it);
      FirstQuoteLater(c, offered, before, it.quote);
    }
  }

  /** Item `m` is the last of the section with this text. */
  ghost predicate IsLast(items: seq<Item>, m: nat, zh: string) {
    m < |items| && items[m].zh == zh && forall n :: m < n < |items| ==> items[n].zh != zh
  }

  /** `it` is the last item with this text. */
  ghost predicate LastIs(items: seq<Item>, zh: string, it: Item) {
    exists m: nat :: IsLast(items, m, zh) && items[m] == it
  }

  lemma {:induction false} ByTextIsLast(items: seq<Item>, zh: string)
    ensures zh in ByText(items) <==> HasText(items, zh)
    ensures zh in ByText(items) ==> LastIs(items, zh, ByText(items)[zh])
  {
    if items != [] {
      var last := |items| - 1;
      var most := items[..last];
      ByTextIsLast(most, zh);
      LastStep(items, last, zh);
      assert ByText(items) == ByText(most)[items[last].zh := items[last]];
    }
  }

  lemma LastText(items: seq<Item>, most: seq<Item>, it: Item, zh: string)
    requires items == most + [it]
    ensures HasText(items, zh) <==> it.zh == zh || HasText(most, zh)
  {
    assert items[|most|] == it && forall n :: 0 <= n < |most| ==> items[n] == most[n];
    if n :| 0 <= n < |most| && most[n].zh == zh {
      assert items[n].zh == zh;
    }
  }

  lemma LastStep(items: seq<Item>, last: nat, zh: string)
    requires |items| == last + 1
    ensures HasText(items, zh) <==> items[last].zh == zh || HasText(items[..last], zh)
    ensures items[last].zh == zh ==> LastIs(items, zh, items[last])
    ensures forall it :: LastIs(items[..last], zh, it) && items[last].zh != zh ==> LastIs(items, zh, it)
  {
    var most := items[..last];
    LastText(items, most, items[last], zh);
    if items[last].zh == zh {
      assert IsLast(items, last, zh);
    } else {
      forall it | LastIs(most, zh, it)
        ensures LastIs(items, zh, it)
      {
        StillLast(items, most, last, zh, it);
      }
    }
  }

  lemma StillLast(items: seq<Item>, most: seq<Item>, last: nat, zh: string, it: Item)
    requires |items| == last + 1 && most == items[..last] && items[last].zh != zh && LastIs(most, zh, it)
    ensures LastIs(items, zh, it)
  {
    var m: nat :| IsLast(most, m, zh) && most[m] == it;
    assert forall n :: m < n < last ==> items[n] == most[n];
    assert IsLast(items, m, zh);
  }

  /**
    Each item a refresh shows is either the last that had its text, unchanged but for a quote that has left the
    transcript, or, when none had, a new one made of a suggestion.
   */
  lemma RefreshedItem(p: Panel, a: Alphabet, transcript: string, autoApprove: bool, answer: Answer, k: Kind, it: Item)
    requires it in At(Refresh(p, a, transcript, autoApprove, answer), k).items
    ensures
      var c, was, offered := ContextOf(p, a, transcript, autoApprove), At(p, k).items, answer(k);
      if HasText(was, it.zh)
      then exists before :: LastIs(was, it.zh, before) && IsKept(it, before, it.quote) && IsCurrentQuote(c, before, offered, it.quote)
      else exists i :: 0 <= i < |offered| && IsNew(c, it, offered[i])
  {
    var c, was, offered := ContextOf(p, a, transcript, autoApprove), At(p, k).items, answer(k);
    var prev := ByText(was);
    ByTextFinds(was);
    ByTextIsLast(was, it.zh);
    assert it in Snapshot(c, offered, prev);
    SnapshotComesFrom(c, offered, prev);
    if it.zh in prev {
      KeptQuote(c, offered, prev, it);
    }
  }

  // ----- Runs -----

  datatype Op =
    | DoRefresh(transcript: string, autoApprove: bool, answer: Answer)
    | DoSet(id: Id, action: Action)
    | DoReset

  function Apply(p: Panel, a: Alphabet, op: Op): Panel {
    match op
    case DoRefresh(transcript, autoApprove, answer) => Refresh(p, a, transcript, autoApprove, answer)
    case DoSet(id, action) => SetItem(p, id, action)
    case DoReset => EMPTY
  }

  function Run(p: Panel, a: Alphabet, ops: seq<Op>): Panel {
    if ops == [] then p else Apply(Run(p, a, ops[..|ops| - 1]), a, ops[|ops| - 1])
  }

  /** Of these identifiers and those the operator approves or edits, the ones since the last reset. */
  function Vouched(ids: set<Id>, ops: seq<Op>): set<Id> {
    if ops == [] then ids
    else
      var before := Vouched(ids, ops[..|ops| - 1]);
      match ops[|ops| - 1]
      case DoReset => {}
      case DoSet(id, action) => if action.Approve? || action.Edit? then before + {id} else before
      case DoRefresh(_, _, _) => before
  }

  ghost predicate VouchesFor(ops: seq<Op>, i: nat, id: Id)
    requires i < |ops|
  {
    && ops[i].DoSet? && ops[i].id == id && (ops[i].action.Approve? || ops[i].action.Edit?)
    && NoResetFrom(ops, i + 1)
  }

  ghost predicate NoResetFrom(ops: seq<Op>, i: nat) {
    forall j :: i <= j < |ops| ==> !ops[j].DoReset?
  }

  lemma VouchStep(ops: seq<Op>, last: nat, id: Id)
    requires |ops| == last + 1
    ensures NoResetFrom(ops, 0) <==> NoResetFrom(ops[..last], 0) && !ops[last].DoReset?
    ensures forall i: nat :: i < last ==> (VouchesFor(ops, i, id) <==> VouchesFor(ops[..last], i, id) && !ops[last].DoReset?)
  {
    var before := ops[..last];
    assert forall j :: 0 <= j < last ==> before[j] == ops[j];
  }

  /** Vouched for is who was from the beginning, or was approved or edited, and no reset has come since. */
  lemma {:induction false} VouchedIff(ids: set<Id>, ops: seq<Op>, id: Id)
    ensures id in Vouched(ids, ops) <==> (id in ids && NoResetFrom(ops, 0)) || exists i: nat :: i < |ops| && VouchesFor(ops, i, id)
  {
    if ops != [] {
      var last := |ops| - 1;
      VouchedIff(ids, ops[..last], id);
      VouchStep(ops, last, id);
      var vouches := VouchesFor(ops, last, id);
      assert id in Vouched(ids, ops) <==> (id in Vouched(ids, ops[..last]) && !ops[last].DoReset?) || vouches;
      if i: nat :| i < last && VouchesFor(ops[..last], i, id) {
        assert !ops[last].DoReset? ==> VouchesFor(ops, i, id);
      }
      if i: nat :| i < |ops| && VouchesFor(ops, i, id) {
        assert i < last ==> VouchesFor(ops[..last], i, id);
      }
    }
  }

  /** Items made without a quote in the transcript are approved only where someone vouched. */
  ghost predicate SectionVouched(s: Section, vouched: set<Id>) {
    forall it :: it in s.items && it.status.Approved? && !it.grounded ==> it.id in vouched
  }

  ghost predicate AllVouched(p: Panel, vouched: set<Id>) {
    forall k :: SectionVouched(At(p, k), vouched)
  }

  lemma RefreshVouched(c: Context, s: Section, offered: seq<Suggestion>, size: nat, vouched: set<Id>)
    requires SectionVouched(s, vouched)
    ensures SectionVouched(RefreshSection(c, s, offered, size), vouched)
  {
    var prev := ByText(s.items);
    ByTextFinds(s.items);
    SnapshotComesFrom(c, offered, prev);
    forall it | it in Snapshot(c, offered, prev) && it.status.Approved? && !it.grounded
      ensures it.id in vouched
    {
      if it.zh in prev {
        assert prev[it.zh] in s.items;
      }
    }
  }

  lemma {:induction false} ActVouched(a: Action, id: Id, items: seq<Item>, log: seq<Entry>, hidden: seq<string>, vouched: set<Id>)
    requires SectionVouched(Section(items, log), vouched)
    ensures SectionVouched(ActInSection(a, id, items, log, hidden).0, if a.Approve? || a.Edit? then vouched + {id} else vouched)
    decreases |items|
  {
    if items != [] {
      var (it, log', hidden') := if items[0].id == id then ActOn(a, items[0], log, hidden) else (items[0], log, hidden);
      ActVouched(a, id, items[1..], log', hidden', vouched);
      assert items[0] in items;
    }
  }

  lemma {:induction false} SetVouched(p: Panel, i: nat, id: Id, a: Action, vouched: set<Id>)
    requires i <= |KINDS|
    requires AllVouched(p, vouched)
    ensures AllVouched(SetFrom(p, i, id, a), if a.Approve? || a.Edit? then vouched + {id} else vouched)
    decreases |KINDS| - i
  {
    if i < |KINDS| {
      var s := At(p, KINDS[i]);
      var now := if a.Approve? || a.Edit? then vouched + {id} else vouched;
      ActVouched(a, id, s.items, s.log, p.hidden, vouched);
      var (s', hidden) := ActInSection(a, id, s.items, s.log, p.hidden);
      var p' := Panel(p.sections[KINDS[i] := s'], hidden);
      forall k ensures SectionVouched(At(p', k), now) {
        assert SectionVouched(At(p, k), vouched);
      }
      SetVouched(p', i + 1, id, a, now);
    }
  }

  lemma RefreshAllVouched(p: Panel, a: Alphabet, op: Op, vouched: set<Id>)
    requires op.DoRefresh? && AllVouched(p, vouched)
    ensures AllVouched(Apply(p, a, op), vouched)
  {
    var c := ContextOf(p, a, op.transcript, op.autoApprove);
    forall k
      ensures SectionVouched(At(Apply(p, a, op), k), vouched)
    {
      assert SectionVouched(At(p, k), vouched);
      RefreshVouched(c, At(p, k), op.answer(k), MaxItems(k), vouched);
    }
  }

  /** In every run an item made without a grounded quote is approved only after the operator approved or edited it. */
  lemma {:induction false} ApprovedUngroundedIsVouched(p: Panel, ids: set<Id>, a: Alphabet, ops: seq<Op>)
    requires AllVouched(p, ids)
    ensures AllVouched(Run(p, a, ops), Vouched(ids, ops))
  {
    if ops != [] {
      var before, op := ops[..|ops| - 1], ops[|ops| - 1];
      ApprovedUngroundedIsVouched(p, ids, a, before);
      if op.DoSet? {
        SetVouched(Run(p, a, before), 0, op.id, op.action, Vouched(ids, before));
      } else if op.DoRefresh? {
        RefreshAllVouched(Run(p, a, before), a, op, Vouched(ids, before));
      }
    }
  }

  // ----- What an action makes of the items -----

  /** What an action makes of an item with the identifier it names. */
  predicate IsActed(a: Action, before: Item, it: Item) {
    && it.id == before.id && it.quote == before.quote && it.grounded == before.grounded
    && match a
       case Approve => it.zh == before.zh && it.en == before.en && it.status == Approved
       case Hide => it.zh == before.zh && it.en == before.en && it.status == Hidden
       case Demote => it.zh == before.zh && it.en == before.en && it.status == Draft
       case Edit(zh, en) =>
         && it.zh == (if zh == "" then before.zh else zh) && it.en == (if en == "" then before.en else en)
         && it.status == Approved
       case Unknown => it.zh == before.zh && it.en == before.en && it.status == before.status
  }

  /** Item by item, in order: those with the identifier as the action says, the others as they were. */
  ghost predicate ActedOn(a: Action, id: Id, before: seq<Item>, items: seq<Item>) {
    && |items| == |before|
    && forall n :: 0 <= n < |items| ==> if before[n].id == id then IsActed(a, before[n], items[n]) else items[n] == before[n]
  }

  lemma {:induction false} SectionIsActedOn(a: Action, id: Id, items: seq<Item>, log: seq<Entry>, hidden: seq<string>)
    ensures ActedOn(a, id, items, ActInSection(a, id, items, log, hidden).0.items)
    decreases |items|
  {
    if items != [] {
      var (it, log', hidden') := if items[0].id == id then ActOn(a, items[0], log, hidden) else (items[0], log, hidden);
      SectionIsActedOn(a, id, items[1..], log', hidden');
      assert items == [items[0]] + items[1..];
    }
  }

  lemma {:induction false} SetFromActs(p: Panel, i: nat, id: Id, a: Action, k: Kind)
    requires i <= |KINDS|
    ensures Number(k) < i ==> At(SetFrom(p, i, id, a), k) == At(p, k)
    ensures Number(k) >= i ==> ActedOn(a, id, At(p, k).items, At(SetFrom(p, i, id, a), k).items)
    decreases |KINDS| - i
  {
    if i < |KINDS| {
      var s := At(p, KINDS[i]);
      var (s', hidden) := ActInSection(a, id, s.items, s.log, p.hidden);
      SectionIsActedOn(a, id, s.items, s.log, p.hidden);
      var p' := Panel(p.sections[KINDS[i] := s'], hidden);
      assert Number(k) == i <==> KINDS[i] == k;
      assert At(p', k) == if Number(k) == i then s' else At(p, k);
      SetFromActs(p', i + 1, id, a, k);
    }
  }

  /** An operator action changes the items with its identifier, each as it says, and nothing else of the sections' items. */
  lemma SetItemActs(p: Panel, id: Id, a: Action, k: Kind)
    ensures ActedOn(a, id, At(p, k).items, At(SetItem(p, id, a), k).items)
  {
    SetFromActs(p, 0, id, a, k);
  }

  // ----- The entries of the log -----

  /** Every entry is an old one or has the two texts of an item with the identifier, which stands approved. */
  ghost predicate EntriesComeFrom(id: Id, log: seq<Entry>, items: seq<Item>, log': seq<Entry>) {
    forall e :: e in log' ==>
      e in log || exists n :: 0 <= n < |items| && items[n].id == id && items[n].status.Approved? && e == Entry(items[n].zh, items[n].en)
  }

  lemma {:induction false} WithoutIsFewer(log: seq<Entry>, zh: string, e: Entry)
    ensures e in Without(log, zh) <==> e in log && e.zh != zh
  {
    if log != [] {
      WithoutIsFewer(log[1..], zh, e);
      assert log == [log[0]] + log[1..];
    }
  }

  lemma EntryInFront(id: Id, it: Item, items: seq<Item>, log: seq<Entry>, mid: seq<Entry>, log': seq<Entry>)
    requires forall e :: e in mid ==> e in log || (it.id == id && it.status.Approved? && e == Entry(it.zh, it.en))
    requires EntriesComeFrom(id, mid, items, log')
    ensures EntriesComeFrom(id, log, [it] + items, log')
  {
    var all := [it] + items;
    assert all[0] == it && forall n :: 0 <= n < |items| ==> all[n + 1] == items[n];
  }

  lemma ActOnEntries(a: Action, it: Item, log: seq<Entry>, hidden: seq<string>)
    ensures
      var (it', log', _) := ActOn(a, it, log, hidden);
      forall e :: e in log' ==> e in log || (it'.status.Approved? && e == Entry(it'.zh, it'.en))
  {
    forall e
      ensures e in Without(log, it.zh) ==> e in log
    {
      WithoutIsFewer(log, it.zh, e);
    }
  }

  lemma {:induction false} SectionEntries(a: Action, id: Id, items: seq<Item>, log: seq<Entry>, hidden: seq<string>)
    ensures
      var s := ActInSection(a, id, items, log, hidden).0;
      EntriesComeFrom(id, log, s.items, s.log)
    decreases |items|
  {
    if items != [] {
      var (it, log', hidden') := if items[0].id == id then ActOn(a, items[0], log, hidden) else (items[0], log, hidden);
      ActOnEntries(a, items[0], log, hidden);
      SectionEntries(a, id, items[1..], log', hidden');
      var rest := ActInSection(a, id, items[1..], log', hidden').0;
      EntryInFront(id, it, rest.items, log, log', rest.log);
    }
  }

  lemma {:induction false} SetFromEntries(p: Panel, i: nat, id: Id, a: Action, k: Kind)
    requires i <= |KINDS|
    ensures Number(k) < i ==> At(SetFrom(p, i, id, a), k) == At(p, k)
    ensures Number(k) >= i ==>
              EntriesComeFrom(id, At(p, k).log, At(SetFrom(p, i, id, a), k).items, At(SetFrom(p, i, id, a), k).log)
    decreases |KINDS| - i
  {
    if i < |KINDS| {
      var s := At(p, KINDS[i]);
      var (s', hidden) := ActInSection(a, id, s.items, s.log, p.hidden);
      SectionEntries(a, id, s.items, s.log, p.hidden);
      var p' := Panel(p.sections[KINDS[i] := s'], hidden);
      assert Number(k) == i <==> KINDS[i] == k;
      assert At(p', k) == if Number(k) == i then s' else At(p, k);
      SetFromEntries(p', i + 1, id, a, k);
    }
  }

  /** An entry an operator action adds has both texts of an item it approved or edited. */
  lemma SetItemEntries(p: Panel, id: Id, a: Action, k: Kind)
    ensures EntriesComeFrom(id, At(p, k).log, At(SetItem(p, id, a), k).items, At(SetItem(p, id, a), k).log)
  {
    SetFromEntries(p, 0, id, a, k);
  }

  // ----- Suppression -----

  /** The panel has an item with this identifier and this text. */
  ghost predicate Shows(p: Panel, i: nat, id: Id, zh: string) {
    exists j, n :: i <= j < |KINDS| && 0 <= n < |At(p, KINDS[j]).items|
                   && At(p, KINDS[j]).items[n].id == id && At(p, KINDS[j]).items[n].zh == zh
  }

  ghost predicate Has(items: seq<Item>, id: Id, zh: string) {
    exists n :: 0 <= n < |items| && items[n].id == id && items[n].zh == zh
  }

  lemma {:induction false} LiftRemoves(hidden: seq<string>, zh: string, z: string)
    ensures z in Lift(hidden, zh) <==> z in hidden && z != zh
  {
    if hidden != [] {
      LiftRemoves(hidden[1..], zh, z);
    }
  }

  /** Whether `z` is hidden after the action, given whether it was and whether an item it meets has that text. */
  predicate HiddenAfter(a: Action, was: bool, met: bool) {
    match a
    case Edit(_, _) => was
    case Unknown => was
    case Hide => was || met
    case Approve => was && !met
    case Demote => was && !met
  }

  lemma ActOnHidden(a: Action, it: Item, log: seq<Entry>, hidden: seq<string>, z: string)
    ensures z in ActOn(a, it, log, hidden).2 <==> HiddenAfter(a, z in hidden, it.zh == z)
  {
    LiftRemoves(hidden, it.zh, z);
  }

  lemma HasStep(items: seq<Item>, id: Id, z: string)
    requires items != []
    ensures Has(items, id, z) <==> (items[0].id == id && items[0].zh == z) || Has(items[1..], id, z)
  {
    assert forall n :: 0 <= n < |items| - 1 ==> items[1..][n] == items[n + 1];
    if Has(items, id, z) {
      var n :| 0 <= n < |items| && items[n].id == id && items[n].zh == z;
      assert n > 0 ==> items[1..][n - 1] == items[n];
    }
  }

  lemma {:induction false} ActInSectionHidden(a: Action, id: Id, items: seq<Item>, log: seq<Entry>, hidden: seq<string>, z: string)
    ensures z in ActInSection(a, id, items, log, hidden).1 <==> HiddenAfter(a, z in hidden, Has(items, id, z))
    decreases |items|
  {
    if items != [] {
      HasStep(items, id, z);
      if items[0].id == id {
        var (it, log', hidden') := ActOn(a, items[0], log, hidden);
        ActOnHidden(a, items[0], log, hidden, z);
        ActInSectionHidden(a, id, items[1..], log', hidden', z);
      } else {
        ActInSectionHidden(a, id, items[1..], log, hidden, z);
      }
    }
  }

  lemma ShowsStep(p: Panel, i: nat, id: Id, z: string)
    requires i < |KINDS|
    ensures Shows(p, i, id, z) <==> Has(At(p, KINDS[i]).items, id, z) || Shows(p, i + 1, id, z)
  {
  }

  /** Sections change one at a time, so the later ones still show what they did. */
  lemma ShowsUnchanged(p: Panel, p': Panel, i: nat, id: Id, z: string)
    requires forall j :: i <= j < |KINDS| ==> At(p', KINDS[j]) == At(p, KINDS[j])
    ensures Shows(p', i, id, z) <==> Shows(p, i, id, z)
  {
  }

  lemma {:induction false} SetFromHidden(p: Panel, i: nat, id: Id, a: Action, z: string)
    requires i <= |KINDS|
    ensures z in SetFrom(p, i, id, a).hidden <==> HiddenAfter(a, z in p.hidden, Shows(p, i, id, z))
    decreases |KINDS| - i
  {
    if i < |KINDS| {
      var s := At(p, KINDS[i]);
      var (s', hidden) := ActInSection(a, id, s.items, s.log, p.hidden);
      var p' := Panel(p.sections[KINDS[i] := s'], hidden);
      ActInSectionHidden(a, id, s.items, s.log, p.hidden, z);
      ShowsStep(p, i, id, z);
      ShowsUnchanged(p, p', i + 1, id, z);
      SetFromHidden(p', i + 1, id, a, z);
    }
  }

  /**
    A text is hidden after an operator action exactly when it was hidden already and no item with
    that text was approved or demoted, or when an item with that text was hidden.
   */
  lemma SetItemHides(p: Panel, id: Id, a: Action, z: string)
    ensures z in SetItem(p, id, a).hidden <==> HiddenAfter(a, z in p.hidden, Shows(p, 0, id, z))
  {
    SetFromHidden(p, 0, id, a, z);
  }

  /** The operator takes the suppression of `z` back, or a new meeting begins. */
  ghost predicate Lifts(p: Panel, op: Op, z: string) {
    op.DoReset? || (op.DoSet? && (op.action.Approve? || op.action.Demote?) && Shows(p, 0, op.id, z))
  }

  ghost predicate NeverLifted(p: Panel, a: Alphabet, ops: seq<Op>, z: string) {
    forall i :: 0 <= i < |ops| ==> !Lifts(Run(p, a, ops[..i]), ops[i], z)
  }

  /** Until it is lifted a hidden text stays suppressed, and no refresh shows it, however often it is suggested. */
  lemma {:induction false} SuppressedUntilLifted(p: Panel, a: Alphabet, ops: seq<Op>, z: string)
    requires z in p.hidden && NeverLifted(p, a, ops, z)
    ensures z in Run(p, a, ops).hidden
    ensures ops != [] && ops[|ops| - 1].DoRefresh? ==>
              forall k, it :: it in At(Run(p, a, ops), k).items ==> it.zh != z
  {
    if ops != [] {
      var before, op := ops[..|ops| - 1], ops[|ops| - 1];
      assert forall i :: 0 <= i < |before| ==> before[..i] == ops[..i];
      SuppressedUntilLifted(p, a, before, z);
      var q := Run(p, a, before);
      match op {
        case DoReset =>
        case DoSet(id, action) => SetItemHides(q, id, action, z);
        case DoRefresh(transcript, autoApprove, answer) =>
          forall k, it | it in At(Run(p, a, ops), k).items
            ensures it.zh != z
          {
            RefreshIsClean(q, a, transcript, autoApprove, answer, k, it);
          }
      }
    }
  }

  // ----- The minutes log -----

  lemma {:induction false} LogAllLogs(log: seq<Entry>, items: seq<Item>)
    ensures log <= LogAll(log, items)
    ensures forall it :: it in items ==> Logged(LogAll(log, items), it.zh)
    decreases |items|
  {
    if items != [] {
      var next := LogApproved(log, items[0]);
      LogAllLogs(next, items[1..]);
      assert Logged(next, items[0].zh) by {
        assert !Logged(log, items[0].zh) ==> next[|log|].zh == items[0].zh;
      }
      var i :| 0 <= i < |next| && next[i].zh == items[0].zh;
      assert LogAll(log, items)[i] == next[i];
    }
  }

  /** One entry for each text. */
  ghost predicate NoTwins(log: seq<Entry>) {
    forall i, j :: 0 <= i < j < |log| ==> log[i].zh != log[j].zh
  }

  lemma {:induction false} WithoutRemoves(log: seq<Entry>, zh: string, z: string)
    ensures Logged(Without(log, zh), z) <==> Logged(log, z) && z != zh
    decreases |log|
  {
    if log != [] {
      WithoutRemoves(log[1..], zh, z);
      assert log == [log[0]] + log[1..];
      LoggedInFront(log[0], log[1..], z);
      LoggedInFront(log[0], Without(log[1..], zh), z);
      assert [] + Without(log[1..], zh) == Without(log[1..], zh);
    }
  }

  lemma {:induction false} WithoutKeepsNoTwins(log: seq<Entry>, zh: string)
    requires NoTwins(log)
    ensures NoTwins(Without(log, zh))
    decreases |log|
  {
    if log != [] {
      assert log == [log[0]] + log[1..];
      TwinsInFront(log[0], log[1..]);
      WithoutKeepsNoTwins(log[1..], zh);
      WithoutRemoves(log[1..], zh, log[0].zh);
      TwinsInFront(log[0], Without(log[1..], zh));
      assert [] + Without(log[1..], zh) == Without(log[1..], zh);
    }
  }

  lemma LoggedInFront(e: Entry, log: seq<Entry>, z: string)
    ensures Logged([e] + log, z) <==> e.zh == z || Logged(log, z)
  {
    var longer := [e] + log;
    assert longer[0] == e && forall i :: 0 <= i < |log| ==> longer[i + 1] == log[i];
    if i :| 0 <= i < |longer| && longer[i].zh == z && i > 0 {
      assert log[i - 1].zh == z;
    }
  }

  lemma TwinsInFront(e: Entry, log: seq<Entry>)
    ensures NoTwins([e] + log) <==> NoTwins(log) && !Logged(log, e.zh)
  {
    var longer := [e] + log;
    assert longer[0] == e && forall i :: 0 <= i < |log| ==> longer[i + 1] == log[i];
    if NoTwins(log) && !Logged(log, e.zh) {
      forall i, j | 0 <= i < j < |longer|
        ensures longer[i].zh != longer[j].zh
      {
        assert longer[j] == log[j - 1] && (i > 0 ==> longer[i] == log[i - 1]);
      }
    }
    if NoTwins(longer) {
      forall i, j | 0 <= i < j < |log|
        ensures log[i].zh != log[j].zh
      {
        assert longer[i + 1].zh != longer[j + 1].zh;
      }
    }
  }

  lemma LogApprovedAdds(log: seq<Entry>, it: Item, z: string)
    ensures Logged(LogApproved(log, it), z) <==> Logged(log, z) || z == it.zh
    ensures NoTwins(log) ==> NoTwins(LogApproved(log, it))
  {
    var longer := log + [Entry(it.zh, it.en)];
    assert longer[|log|].zh == it.zh && forall i :: 0 <= i < |log| ==> longer[i] == log[i];
    if i :| 0 <= i < |longer| && longer[i].zh == z && i < |log| {
      assert log[i].zh == z;
    }
  }

  /** What one action does to the log, told by texts: hiding and demoting take the item's text out, approving and editing put it in. */
  lemma ActOnLogs(a: Action, it: Item, log: seq<Entry>, hidden: seq<string>, z: string)
    ensures
      var (it', log', _) := ActOn(a, it, log, hidden);
      && (NoTwins(log) ==> NoTwins(log'))
      && (Logged(log', z) <==>
            match a
            case Edit(_, _) => z == it'.zh || (Logged(log, z) && z != it.zh)
            case Approve => z == it.zh || Logged(log, z)
            case Hide => Logged(log, z) && z != it.zh
            case Demote => Logged(log, z) && z != it.zh
            case Unknown => Logged(log, z))
  {
    WithoutRemoves(log, it.zh, z);
    if NoTwins(log) {
      WithoutKeepsNoTwins(log, it.zh);
    }
    LogApprovedAdds(log, it, z);
    if a.Edit? {
      LogApprovedAdds(Without(log, it.zh), ActOn(a, it, log, hidden).0, z);
    }
  }

  /** After an item is hidden or demoted its text is out of its section's log, and no other text is affected. */
  lemma {:induction false} HiddenLeavesTheLog(a: Action, id: Id, items: seq<Item>, log: seq<Entry>, hidden: seq<string>, z: string)
    requires a.Hide? || a.Demote?
    ensures Logged(ActInSection(a, id, items, log, hidden).0.log, z) <==> Logged(log, z) && !Has(items, id, z)
    decreases |items|
  {
    if items != [] {
      HasStep(items, id, z);
      if items[0].id == id {
        var (_, log', hidden') := ActOn(a, items[0], log, hidden);
        ActOnLogs(a, items[0], log, hidden, z);
        HiddenLeavesTheLog(a, id, items[1..], log', hidden', z);
      } else {
        HiddenLeavesTheLog(a, id, items[1..], log, hidden, z);
      }
    }
  }

  /** In this log `y` stands in front of `z`. */
  ghost predicate Before(log: seq<Entry>, y: string, z: string) {
    exists i, j :: 0 <= i < j < |log| && log[i].zh == y && log[j].zh == z
  }

  /** `y` is logged, and `z` only behind it. */
  ghost predicate InOrder(log: seq<Entry>, y: string, z: string) {
    Logged(log, y) && (Logged(log, z) ==> Before(log, y, z))
  }

  lemma InFrontShifts(e: Entry, log: seq<Entry>, longer: seq<Entry>)
    requires longer == [e] + log
    ensures |longer| == |log| + 1 && longer[0] == e
    ensures forall i :: 0 <= i < |log| ==> longer[i + 1] == log[i]
    ensures forall i :: 1 <= i < |longer| ==> longer[i] == log[i - 1]
  {
  }

  lemma BeforeLater(e: Entry, log: seq<Entry>, longer: seq<Entry>, y: string, z: string)
    requires longer == [e] + log && Before(log, y, z)
    ensures Before(longer, y, z)
  {
    InFrontShifts(e, log, longer);
    var i, j :| 0 <= i < j < |log| && log[i].zh == y && log[j].zh == z;
    assert longer[i + 1].zh == y && longer[j + 1].zh == z;
  }

  lemma BeforeFirst(e: Entry, log: seq<Entry>, longer: seq<Entry>, y: string, z: string)
    requires longer == [e] + log && e.zh == y && Logged(log, z)
    ensures Before(longer, y, z)
  {
    InFrontShifts(e, log, longer);
    var j :| 0 <= j < |log| && log[j].zh == z;
    assert longer[0].zh == y && longer[j + 1].zh == z;
  }

  lemma BeforeWas(e: Entry, log: seq<Entry>, longer: seq<Entry>, y: string, z: string)
    requires longer == [e] + log && Before(longer, y, z)
    ensures (e.zh == y && Logged(log, z)) || Before(log, y, z)
  {
    InFrontShifts(e, log, longer);
    var i, j :| 0 <= i < j < |longer| && longer[i].zh == y && longer[j].zh == z;
    assert log[j - 1].zh == z;
    if i > 0 {
      assert log[i - 1].zh == y;
    }
  }

  lemma BeforeInFront(e: Entry, log: seq<Entry>, y: string, z: string)
    ensures Before([e] + log, y, z) <==> (e.zh == y && Logged(log, z)) || Before(log, y, z)
  {
    var longer := [e] + log;
    if Before(longer, y, z) {
      BeforeWas(e, log, longer, y, z);
    } else if Before(log, y, z) {
      BeforeLater(e, log, longer, y, z);
    } else if e.zh == y && Logged(log, z) {
      BeforeFirst(e, log, longer, y, z);
    }
  }

  lemma {:induction false} WithoutKeepsBefore(log: seq<Entry>, x: string, y: string, z: string)
    requires x != y && x != z && Before(log, y, z)
    ensures Before(Without(log, x), y, z)
  {
    var e, rest := log[0], log[1..];
    var left := Without(rest, x);
    assert log == [e] + rest;
    BeforeInFront(e, rest, y, z);
    WithoutRemoves(rest, x, z);
    BeforeInFront(e, left, y, z);
    WithoutStep(log, x, left);
    if Before(rest, y, z) {
      WithoutKeepsBefore(rest, x, y, z);
    }
  }

  lemma WithoutStep(log: seq<Entry>, x: string, left: seq<Entry>)
    requires log != [] && left == Without(log[1..], x)
    ensures Without(log, x) == if log[0].zh == x then left else [log[0]] + left
  {
    assert [] + left == left;
  }

  lemma WithoutKeepsInOrder(log: seq<Entry>, x: string, y: string, z: string)
    requires x != y && InOrder(log, y, z)
    ensures InOrder(Without(log, x), y, z)
  {
    WithoutRemoves(log, x, y);
    WithoutRemoves(log, x, z);
    if x != z && Logged(log, z) {
      WithoutKeepsBefore(log, x, y, z);
    }
  }

  lemma PrefixKeepsBefore(log: seq<Entry>, longer: seq<Entry>, y: string, z: string)
    requires log <= longer
    ensures Before(log, y, z) ==> Before(longer, y, z)
    ensures Logged(log, y) ==> Logged(longer, y)
  {
    if Before(log, y, z) {
      var i, j :| 0 <= i < j < |log| && log[i].zh == y && log[j].zh == z;
      assert longer[i].zh == y && longer[j].zh == z;
    }
    if Logged(log, y) {
      var i :| 0 <= i < |log| && log[i].zh == y;
      assert longer[i].zh == y;
    }
  }

  lemma LogApprovedKeepsInOrder(log: seq<Entry>, it: Item, y: string, z: string)
    requires InOrder(log, y, z)
    ensures InOrder(LogApproved(log, it), y, z)
  {
    var longer := LogApproved(log, it);
    PrefixKeepsBefore(log, longer, y, z);
    LogApprovedAdds(log, it, z);
    if !Logged(log, z) && Logged(longer, z) {
      var i :| 0 <= i < |log| && log[i].zh == y;
      assert longer[i].zh == y && longer[|log|].zh == z;
    }
  }

  lemma ActOnKeepsInOrder(a: Action, it: Item, log: seq<Entry>, hidden: seq<string>, y: string, z: string)
    requires it.zh != y && InOrder(log, y, z)
    ensures InOrder(ActOn(a, it, log, hidden).1, y, z)
  {
    WithoutKeepsInOrder(log, it.zh, y, z);
    LogApprovedKeepsInOrder(log, it, y, z);
    LogApprovedKeepsInOrder(Without(log, it.zh), ActOn(a, it, log, hidden).0, y, z);
  }

  lemma {:induction false} SectionKeepsInOrder(a: Action, id: Id, items: seq<Item>, log: seq<Entry>, hidden: seq<string>, y: string, z: string)
    requires !Has(items, id, y) && InOrder(log, y, z)
    ensures InOrder(ActInSection(a, id, items, log, hidden).0.log, y, z)
    decreases |items|
  {
    if items != [] {
      HasStep(items, id, y);
      var (it, log', hidden') := if items[0].id == id then ActOn(a, items[0], log, hidden) else (items[0], log, hidden);
      if items[0].id == id {
        ActOnKeepsInOrder(a, items[0], log, hidden, y, z);
      }
      SectionKeepsInOrder(a, id, items[1..], log', hidden', y, z);
    }
  }

  lemma {:induction false} SetFromKeepsInOrder(p: Panel, i: nat, id: Id, a: Action, k: Kind, y: string, z: string)
    requires i <= |KINDS|
    requires !Has(At(p, k).items, id, y) && InOrder(At(p, k).log, y, z)
    ensures InOrder(At(SetFrom(p, i, id, a), k).log, y, z)
    decreases |KINDS| - i
  {
    if i < |KINDS| {
      var s := At(p, KINDS[i]);
      var (s', hidden) := ActInSection(a, id, s.items, s.log, p.hidden);
      var p' := Panel(p.sections[KINDS[i] := s'], hidden);
      if KINDS[i] == k {
        SectionKeepsInOrder(a, id, s.items, s.log, p.hidden, y, z);
        NoMoreSections(p', i + 1, id, a, k);
      } else {
        assert At(p', k) == At(p, k);
        SetFromKeepsInOrder(p', i + 1, id, a, k, y, z);
      }
    }
  }

  /** A section is left alone once its turn is over. */
  lemma NoMoreSections(p: Panel, i: nat, id: Id, a: Action, k: Kind)
    requires Number(k) < i <= |KINDS|
    ensures At(SetFrom(p, i, id, a), k) == At(p, k)
  {
    SetFromActs(p, i, id, a, k);
  }

  lemma {:induction false} LogAllKeepsInOrder(log: seq<Entry>, items: seq<Item>, y: string, z: string)
    requires InOrder(log, y, z)
    ensures InOrder(LogAll(log, items), y, z)
    decreases |items|
  {
    if items != [] {
      LogApprovedKeepsInOrder(log, items[0], y, z);
      LogAllKeepsInOrder(LogApproved(log, items[0]), items[1..], y, z);
    }
  }

  /**
    The log is kept in the order of approval: behind a text that no operator action touches everything that is logged
    later is put, and stays, whatever else is refreshed, approved, edited, hidden or demoted.
   */
  lemma LogKeepsItsOrder(p: Panel, a: Alphabet, op: Op, k: Kind, y: string, z: string)
    requires InOrder(At(p, k).log, y, z) && !op.DoReset?
    requires op.DoSet? ==> !Has(At(p, k).items, op.id, y)
    ensures InOrder(At(Apply(p, a, op), k).log, y, z)
  {
    match op
    case DoSet(id, action) => SetFromKeepsInOrder(p, 0, id, action, k, y, z);
    case DoRefresh(_, _, _) => LogAllKeepsInOrder(At(p, k).log, At(Apply(p, a, op), k).items, y, z);
  }

  lemma {:induction false} LogAllEntries(log: seq<Entry>, items: seq<Item>, e: Entry)
    ensures e in LogAll(log, items) ==> e in log || exists n :: 0 <= n < |items| && e == Entry(items[n].zh, items[n].en)
    decreases |items|
  {
    if items != [] {
      LogAllEntries(LogApproved(log, items[0]), items[1..], e);
      assert forall n :: 0 <= n < |items| - 1 ==> items[1..][n] == items[n + 1];
    }
  }

  /** What automatic approval logs has both texts of an item that is shown. */
  lemma RefreshEntries(p: Panel, a: Alphabet, transcript: string, autoApprove: bool, answer: Answer, k: Kind, e: Entry)
    ensures
      var s := At(Refresh(p, a, transcript, autoApprove, answer), k);
      e in s.log ==> e in At(p, k).log || (autoApprove && exists n :: 0 <= n < |s.items| && e == Entry(s.items[n].zh, s.items[n].en))
  {
    LogAllEntries(At(p, k).log, At(Refresh(p, a, transcript, autoApprove, answer), k).items, e);
  }

  // ----- How a text comes into the log, and leaves it -----

  ghost predicate HasId(items: seq<Item>, id: Id) {
    exists n :: 0 <= n < |items| && items[n].id == id
  }

  ghost predicate HasText(items: seq<Item>, z: string) {
    exists n :: 0 <= n < |items| && items[n].zh == z
  }

  /** The operator stands for the text: an item with it is approved, or an item is edited to it. */
  ghost predicate Signs(a: Action, id: Id, items: seq<Item>, z: string) {
    match a
    case Approve => Has(items, id, z)
    case Edit(zh, _) => if zh == "" then Has(items, id, z) else z == zh && HasId(items, id)
    case _ => false
  }

  /** The operator takes the text out: an item with it is hidden or demoted, or edited to another text. */
  ghost predicate Strikes(a: Action, id: Id, items: seq<Item>, z: string) {
    match a
    case Edit(zh, _) => zh != "" && z != zh && Has(items, id, z)
    case Hide => Has(items, id, z)
    case Demote => Has(items, id, z)
    case _ => false
  }

  lemma HasIdStep(items: seq<Item>, id: Id)
    requires items != []
    ensures HasId(items, id) <==> items[0].id == id || HasId(items[1..], id)
  {
    assert forall n :: 0 <= n < |items| - 1 ==> items[1..][n] == items[n + 1];
    if HasId(items, id) {
      var n :| 0 <= n < |items| && items[n].id == id;
      assert n > 0 ==> items[1..][n - 1] == items[n];
    }
  }

  lemma {:induction false} SectionLogs(a: Action, id: Id, items: seq<Item>, log: seq<Entry>, hidden: seq<string>, z: string)
    ensures Logged(ActInSection(a, id, items, log, hidden).0.log, z) <==>
              Signs(a, id, items, z) || (Logged(log, z) && !Strikes(a, id, items, z))
    decreases |items|
  {
    if items != [] {
      HasStep(items, id, z);
      HasIdStep(items, id);
      var (it, log', hidden') := if items[0].id == id then ActOn(a, items[0], log, hidden) else (items[0], log, hidden);
      ActOnLogs(a, items[0], log, hidden, z);
      SectionLogs(a, id, items[1..], log', hidden', z);
    }
  }

  lemma {:induction false} SetFromLogs(p: Panel, i: nat, id: Id, a: Action, k: Kind, z: string)
    requires i <= |KINDS|
    ensures Number(k) < i ==> At(SetFrom(p, i, id, a), k) == At(p, k)
    ensures Number(k) >= i ==>
              (Logged(At(SetFrom(p, i, id, a), k).log, z) <==>
                 Signs(a, id, At(p, k).items, z) || (Logged(At(p, k).log, z) && !Strikes(a, id, At(p, k).items, z)))
    decreases |KINDS| - i
  {
    if i < |KINDS| {
      var s := At(p, KINDS[i]);
      var (s', hidden) := ActInSection(a, id, s.items, s.log, p.hidden);
      SectionLogs(a, id, s.items, s.log, p.hidden, z);
      var p' := Panel(p.sections[KINDS[i] := s'], hidden);
      assert Number(k) == i <==> KINDS[i] == k;
      assert At(p', k) == if Number(k) == i then s' else At(p, k);
      SetFromLogs(p', i + 1, id, a, k, z);
    }
  }

  lemma HasTextStep(items: seq<Item>, z: string)
    requires items != []
    ensures HasText(items, z) <==> items[0].zh == z || HasText(items[1..], z)
  {
    assert forall n :: 0 <= n < |items| - 1 ==> items[1..][n] == items[n + 1];
    if HasText(items, z) {
      var n :| 0 <= n < |items| && items[n].zh == z;
      assert n > 0 ==> items[1..][n - 1] == items[n];
    }
  }

  lemma {:induction false} LogAllLogged(log: seq<Entry>, items: seq<Item>, z: string)
    ensures Logged(LogAll(log, items), z) <==> Logged(log, z) || HasText(items, z)
    decreases |items|
  {
    if items != [] {
      LogApprovedAdds(log, items[0], z);
      LogAllLogged(LogApproved(log, items[0]), items[1..], z);
      HasTextStep(items, z);
    }
  }

  /** With automatic approval a refresh logs all it shows. */
  ghost predicate AutoLogs(p: Panel, a: Alphabet, op: Op, k: Kind, z: string) {
    op.DoRefresh? && op.autoApprove && HasText(At(Apply(p, a, op), k).items, z)
  }

  ghost predicate Enters(p: Panel, a: Alphabet, op: Op, k: Kind, z: string) {
    (op.DoSet? && Signs(op.action, op.id, At(p, k).items, z)) || AutoLogs(p, a, op, k, z)
  }

  ghost predicate Leaves(p: Panel, op: Op, k: Kind, z: string) {
    op.DoReset? || (op.DoSet? && Strikes(op.action, op.id, At(p, k).items, z))
  }

  lemma StepLogs(p: Panel, a: Alphabet, op: Op, k: Kind, z: string)
    ensures Logged(At(Apply(p, a, op), k).log, z) <==> Enters(p, a, op, k, z) || (Logged(At(p, k).log, z) && !Leaves(p, op, k, z))
  {
    match op
    case DoReset =>
    case DoSet(id, action) => SetFromLogs(p, 0, id, action, k, z);
    case DoRefresh(_, _, _) => LogAllLogged(At(p, k).log, At(Apply(p, a, op), k).items, z);
  }

  ghost predicate EntersAt(a: Alphabet, ops: seq<Op>, i: nat, k: Kind, z: string)
    requires i < |ops|
  {
    Enters(Run(EMPTY, a, ops[..i]), a, ops[i], k, z)
  }

  ghost predicate LeavesAt(a: Alphabet, ops: seq<Op>, i: nat, k: Kind, z: string)
    requires i < |ops|
  {
    Leaves(Run(EMPTY, a, ops[..i]), ops[i], k, z)
  }

  lemma StepsOfPrefix(a: Alphabet, ops: seq<Op>, n: nat, i: nat, k: Kind, z: string)
    requires i < n <= |ops|
    ensures EntersAt(a, ops[..n], i, k, z) <==> EntersAt(a, ops, i, k, z)
    ensures LeavesAt(a, ops[..n], i, k, z) <==> LeavesAt(a, ops, i, k, z)
  {
    assert ops[..n][..i] == ops[..i];
  }

  datatype Mark = Mark(enters: bool, leaves: bool)

  /** What each step of a run from the empty panel does to the text. */
  ghost function Marks(a: Alphabet, ops: seq<Op>, k: Kind, z: string): (marks: seq<Mark>)
    ensures |marks| == |ops|
    ensures forall i :: 0 <= i < |ops| ==> marks[i] == Mark(EntersAt(a, ops, i, k, z), LeavesAt(a, ops, i, k, z))
  {
    seq(|ops|, i requires 0 <= i < |ops| => Mark(EntersAt(a, ops, i, k, z), LeavesAt(a, ops, i, k, z)))
  }

  /** A step brings the text in, and no later step takes it out. */
  ghost predicate Stands(marks: seq<Mark>) {
    exists i :: 0 <= i < |marks| && marks[i].enters && forall j :: i < j < |marks| ==> !marks[j].leaves
  }

  lemma StandsStep(marks: seq<Mark>, mark: Mark)
    ensures Stands(marks + [mark]) <==> mark.enters || (Stands(marks) && !mark.leaves)
  {
    var longer := marks + [mark];
    assert longer[|marks|] == mark;
    if Stands(marks) && !mark.leaves {
      var i :| 0 <= i < |marks| && marks[i].enters && forall j :: i < j < |marks| ==> !marks[j].leaves;
      assert longer[i].enters;
    }
    if Stands(longer) && !mark.enters {
      var i :| 0 <= i < |longer| && longer[i].enters && forall j :: i < j < |longer| ==> !longer[j].leaves;
      assert marks[i].enters && forall j :: i < j < |marks| ==> longer[j] == marks[j];
    }
  }

  lemma MarksOfPrefix(a: Alphabet, ops: seq<Op>, m: nat, i: nat, k: Kind, z: string)
    requires i < m <= |ops|
    ensures Marks(a, ops[..m], k, z)[i] == Marks(a, ops, k, z)[i]
  {
    StepsOfPrefix(a, ops, m, i, k, z);
  }

  lemma OneMore(marks: seq<Mark>, longer: seq<Mark>)
    requires |longer| == |marks| + 1 && forall i :: 0 <= i < |marks| ==> longer[i] == marks[i]
    ensures longer == marks + [longer[|marks|]]
  {
  }

  lemma MarksStep(a: Alphabet, ops: seq<Op>, m: nat, k: Kind, z: string)
    requires |ops| == m + 1
    ensures Marks(a, ops, k, z) == Marks(a, ops[..m], k, z) + [Mark(EntersAt(a, ops, m, k, z), LeavesAt(a, ops, m, k, z))]
  {
    var marks, longer := Marks(a, ops[..m], k, z), Marks(a, ops, k, z);
    forall i | 0 <= i < m
      ensures longer[i] == marks[i]
    {
      MarksOfPrefix(a, ops, m, i, k, z);
    }
    OneMore(marks, longer);
  }

  /**
    Over every run, a text is in a section's log for the minutes exactly when some step brought it
    in and none has taken it out since.
   */
  lemma {:induction false} LoggedIff(a: Alphabet, ops: seq<Op>, k: Kind, z: string)
    ensures Logged(At(Run(EMPTY, a, ops), k).log, z) <==> Stands(Marks(a, ops, k, z))
  {
    if ops != [] {
      var m := |ops| - 1;
      LoggedIff(a, ops[..m], k, z);
      StepLogs(Run(EMPTY, a, ops[..m]), a, ops[m], k, z);
      MarksStep(a, ops, m, k, z);
      StandsStep(Marks(a, ops[..m], k, z), Mark(EntersAt(a, ops, m, k, z), LeavesAt(a, ops, m, k, z)));
    }
  }

  /** Without automatic approval every logged text was approved, or written, by the operator, and has not been taken out since. */
  lemma LoggedTextsAreSigned(a: Alphabet, ops: seq<Op>, k: Kind, z: string) returns (i: nat)
    requires forall j :: 0 <= j < |ops| && ops[j].DoRefresh? ==> !ops[j].autoApprove
    requires Logged(At(Run(EMPTY, a, ops), k).log, z)
    ensures i < |ops| && ops[i].DoSet? && Signs(ops[i].action, ops[i].id, At(Run(EMPTY, a, ops[..i]), k).items, z)
    ensures forall j :: i < j < |ops| ==> !LeavesAt(a, ops, j, k, z)
  {
    LoggedIff(a, ops, k, z);
    var marks := Marks(a, ops, k, z);
    i :| 0 <= i < |marks| && marks[i].enters && forall j :: i < j < |marks| ==> !marks[j].leaves;
    forall j | i < j < |ops|
      ensures !LeavesAt(a, ops, j, k, z)
    {
      assert !marks[j].leaves;
    }
  }

  /** No item with this text is approved. */
  ghost predicate NoneApproved(items: seq<Item>, z: string) {
    forall n :: 0 <= n < |items| && items[n].zh == z ==> !items[n].status.Approved?
  }

  /** The section has newly logged a text that it does not show as approved. */
  ghost predicate LogsUnapproved(was: Section, now: Section, z: string) {
    Logged(now.log, z) && !Logged(was.log, z) && NoneApproved(now.items, z)
  }

  /** Up to suggestion `i` one of its text comes with a quote from the transcript. */
  ghost predicate Quoted(c: Context, offered: seq<Suggestion>, i: nat)
    requires i < |offered| && offered[i].Suggestion?
  {
    exists j :: 0 <= j <= i && offered[j].Suggestion? && offered[j].zh == offered[i].zh && IsGrounded(c, offered[j].quote)
  }

  /** Suggestion `i` puts an item on the panel: a new one, or one that was there and has a current quote by then. */
  ghost predicate Kept(c: Context, offered: seq<Suggestion>, prev: map<string, Item>, i: nat)
    requires i < |offered|
  {
    && Usable(c, offered[i])
    && (offered[i].zh in prev ==> IsGrounded(c, prev[offered[i].zh].quote) || Quoted(c, offered, i))
  }

  /** How many of the first `i` suggestions do. */
  ghost function Place(c: Context, offered: seq<Suggestion>, prev: map<string, Item>, i: nat): nat
    requires i <= |offered|
  {
    if i == 0 then 0 else Place(c, offered, prev, i - 1) + if Kept(c, offered, prev, i - 1) then 1 else 0
  }

  lemma KeptTail(c: Context, offered: seq<Suggestion>, prev: map<string, Item>, i: nat, next: nat)
    requires next == i + 1 < |offered|
    ensures Kept(c, offered[1..], Requoted(c, offered[0], prev), i) <==> Kept(c, offered, prev, next)
  {
    var tail, now := offered[1..], Requoted(c, offered[0], prev);
    assert tail[i] == offered[next];
    if Usable(c, offered[next]) && offered[next].zh in prev {
      if Quoted(c, tail, i) {
        var j :| 0 <= j <= i && tail[j].Suggestion? && tail[j].zh == tail[i].zh && IsGrounded(c, tail[j].quote);
        assert offered[j + 1] == tail[j];
      }
      if Quoted(c, offered, next) {
        var j :| 0 <= j <= next && offered[j].Suggestion? && offered[j].zh == offered[next].zh && IsGrounded(c, offered[j].quote);
        assert j > 0 ==> tail[j - 1] == offered[j];
      }
    }
  }

  lemma {:induction false} PlaceTail(c: Context, offered: seq<Suggestion>, prev: map<string, Item>, i: nat, next: nat)
    requires next == i + 1 <= |offered|
    ensures Place(c, offered, prev, next)
            == (if Kept(c, offered, prev, 0) then 1 else 0) + Place(c, offered[1..], Requoted(c, offered[0], prev), i)
    decreases i
  {
    if i > 0 {
      var m := i - 1;
      PlaceTail(c, offered, prev, m, i);
      KeptTail(c, offered, prev, m, i);
    }
  }

  /** The first suggestion is kept just when the section begins with its item. */
  lemma HeadKept(c: Context, offered: seq<Suggestion>, prev: map<string, Item>)
    requires offered != [] && ByOwnText(prev)
    ensures
      var now := Requoted(c, offered[0], prev);
      var rest := Snapshot(c, offered[1..], now);
      && ByOwnText(now) && now.Keys == prev.Keys
      && if Kept(c, offered, prev, 0)
         then exists it :: Snapshot(c, offered, prev) == [it] + rest && it.zh == offered[0].zh
                           && (it.zh !in prev ==> it == NewItem(c, offered[0]))
         else Snapshot(c, offered, prev) == rest
  {
    var s, now := offered[0], Requoted(c, offered[0], prev);
    var rest := Snapshot(c, offered[1..], now);
    if Usable(c, s) {
      assert Quoted(c, offered, 0) <==> IsGrounded(c, s.quote);
      if s.zh !in prev {
        assert Snapshot(c, offered, prev) == [NewItem(c, s)] + rest && NewItem(c, s).zh == s.zh;
      } else if Kept(c, offered, prev, 0) {
        assert Snapshot(c, offered, prev) == [now[s.zh]] + rest && now[s.zh].zh == s.zh;
      }
    }
  }

  /** A kept suggestion has its item at its place. */
  ghost predicate HasItem(c: Context, offered: seq<Suggestion>, prev: map<string, Item>, i: nat, items: seq<Item>)
    requires i < |offered| && Kept(c, offered, prev, i)
  {
    var p := Place(c, offered, prev, i);
    p < |items| && items[p].zh == offered[i].zh && (offered[i].zh !in prev ==> items[p] == NewItem(c, offered[i]))
  }

  lemma {:induction false} KeptHasItem(c: Context, offered: seq<Suggestion>, prev: map<string, Item>, i: nat)
    requires ByOwnText(prev) && i < |offered| && Kept(c, offered, prev, i)
    ensures HasItem(c, offered, prev, i, Snapshot(c, offered, prev))
    decreases i
  {
    HeadKept(c, offered, prev);
    if i > 0 {
      var m := i - 1;
      KeptTail(c, offered, prev, m, i);
      PlaceTail(c, offered, prev, m, i);
      KeptHasItem(c, offered[1..], Requoted(c, offered[0], prev), m);
    }
  }

  /** And every item comes from a kept suggestion. */
  lemma {:induction false} ItemIsKept(c: Context, offered: seq<Suggestion>, prev: map<string, Item>, p: nat) returns (i: nat)
    requires ByOwnText(prev) && p < |Snapshot(c, offered, prev)|
    ensures i < |offered| && Kept(c, offered, prev, i) && Place(c, offered, prev, i) == p
    decreases |offered|
  {
    HeadKept(c, offered, prev);
    var head := Kept(c, offered, prev, 0);
    if head && p == 0 {
      i := 0;
    } else {
      var m := ItemIsKept(c, offered[1..], Requoted(c, offered[0], prev), if head then p - 1 else p);
      i := m + 1;
      KeptTail(c, offered, prev, m, i);
      PlaceTail(c, offered, prev, m, i);
    }
  }

  /** A suggestion of this text puts an item on the panel, and within its size. */
  ghost predicate ShownBy(c: Context, offered: seq<Suggestion>, prev: map<string, Item>, size: nat, z: string, i: nat) {
    i < |offered| && Kept(c, offered, prev, i) && Place(c, offered, prev, i) < size && offered[i].zh == z
  }

  /** Which texts a refreshed section shows, from the items it had, the answer and the transcript. */
  lemma ShownIff(c: Context, offered: seq<Suggestion>, prev: map<string, Item>, size: nat, z: string)
    requires ByOwnText(prev)
    ensures HasText(Cut(Snapshot(c, offered, prev), size), z) <==> exists i: nat :: ShownBy(c, offered, prev, size, z, i)
  {
    var items := Cut(Snapshot(c, offered, prev), size);
    if HasText(items, z) {
      var p :| 0 <= p < |items| && items[p].zh == z;
      var i := ItemIsKept(c, offered, prev, p);
      KeptHasItem(c, offered, prev, i);
      assert ShownBy(c, offered, prev, size, z, i);
    }
    forall i: nat | ShownBy(c, offered, prev, size, z, i)
      ensures HasText(items, z)
    {
      KeptHasItem(c, offered, prev, i);
      assert items[Place(c, offered, prev, i)].zh == z;
    }
  }

  lemma {:induction false} SnapshotLength(c: Context, offered: seq<Suggestion>, prev: map<string, Item>)
    requires ByOwnText(prev)
    ensures |Snapshot(c, offered, prev)| == Place(c, offered, prev, |offered|)
    decreases |offered|
  {
    if offered != [] {
      var n := |offered| - 1;
      HeadKept(c, offered, prev);
      PlaceTail(c, offered, prev, n, |offered|);
      SnapshotLength(c, offered[1..], Requoted(c, offered[0], prev));
    }
  }

  /** After a refresh the summary shows the first six items of its suggestions and every other section the first four. */
  lemma RefreshShowsIff(p: Panel, a: Alphabet, transcript: string, autoApprove: bool, answer: Answer, k: Kind, z: string)
    ensures
      var c, offered, prev := ContextOf(p, a, transcript, autoApprove), answer(k), ByText(At(p, k).items);
      var items, size := At(Refresh(p, a, transcript, autoApprove, answer), k).items, if k.SummaryPoints? then 6 else 4;
      && |items| == Min(Place(c, offered, prev, |offered|), size)
      && (HasText(items, z) <==> exists i: nat :: ShownBy(c, offered, prev, size, z, i))
  {
    var c, offered, prev := ContextOf(p, a, transcript, autoApprove), answer(k), ByText(At(p, k).items);
    ByTextFinds(At(p, k).items);
    SnapshotLength(c, offered, prev);
    ShownIff(c, offered, prev, if k.SummaryPoints? then 6 else 4, z);
  }

  /**
    Which of them stay unapproved under automatic approval: what was on the panel unapproved, and
    what is new and comes, wherever it is shown, without a quote from the transcript.
   */
  ghost predicate StaysDraft(c: Context, offered: seq<Suggestion>, prev: map<string, Item>, size: nat, z: string) {
    if z in prev then !prev[z].status.Approved?
    else forall i: nat :: ShownBy(c, offered, prev, size, z, i) ==> !IsGrounded(c, offered[i].quote)
  }

  lemma StaysDraftIff(c: Context, offered: seq<Suggestion>, prev: map<string, Item>, size: nat, z: string)
    requires c.autoApprove && ByOwnText(prev) && HasText(Cut(Snapshot(c, offered, prev), size), z)
    ensures StaysDraft(c, offered, prev, size, z) <==> NoneApproved(Cut(Snapshot(c, offered, prev), size), z)
  {
    var items := Cut(Snapshot(c, offered, prev), size);
    SnapshotComesFrom(c, offered, prev);
    if z in prev {
      forall n | 0 <= n < |items| && items[n].zh == z
        ensures items[n].status == prev[z].status
      {
        assert items[n] in Snapshot(c, offered, prev);
      }
    } else {
      NewDraftsIff(c, offered, prev, size, z);
    }
  }

  lemma NewDraftsIff(c: Context, offered: seq<Suggestion>, prev: map<string, Item>, size: nat, z: string)
    requires c.autoApprove && ByOwnText(prev) && z !in prev
    ensures StaysDraft(c, offered, prev, size, z) <==> NoneApproved(Cut(Snapshot(c, offered, prev), size), z)
  {
    var items := Cut(Snapshot(c, offered, prev), size);
    forall n | 0 <= n < |items| && items[n].zh == z
      ensures exists i: nat :: ShownBy(c, offered, prev, size, z, i) && items[n] == NewItem(c, offered[i])
    {
      var i := ItemIsKept(c, offered, prev, n);
      KeptHasItem(c, offered, prev, i);
      assert ShownBy(c, offered, prev, size, z, i);
    }
    forall i: nat | ShownBy(c, offered, prev, size, z, i)
      ensures exists n :: 0 <= n < |items| && items[n].zh == z && items[n] == NewItem(c, offered[i])
    {
      KeptHasItem(c, offered, prev, i);
      assert items[Place(c, offered, prev, i)] == NewItem(c, offered[i]);
    }
  }

  lemma SectionLogsDraftIff(c: Context, was: Section, offered: seq<Suggestion>, prev: map<string, Item>, size: nat, z: string)
    requires prev == ByText(was.items)
    ensures
      LogsUnapproved(was, RefreshSection(c, was, offered, size), z) <==>
        && c.autoApprove && !Logged(was.log, z)
        && (exists i: nat :: ShownBy(c, offered, prev, size, z, i)) && StaysDraft(c, offered, prev, size, z)
  {
    var items := Cut(Snapshot(c, offered, prev), size);
    ByTextFinds(was.items);
    LogAllLogged(was.log, items, z);
    ShownIff(c, offered, prev, size, z);
    if c.autoApprove && HasText(items, z) {
      StaysDraftIff(c, offered, prev, size, z);
    }
  }

  /**
    With automatic approval that is not so. A refresh logs a text that its section does not show
    as approved exactly when automatic approval is on, the text was not in the log, one of its
    suggestions is shown, and it stays a draft. All of this is told by the old section, the answer
    and the transcript.
   */
  lemma DraftIsLoggedIff(p: Panel, a: Alphabet, transcript: string, autoApprove: bool, answer: Answer, k: Kind, z: string)
    ensures
      var c, was, offered := ContextOf(p, a, transcript, autoApprove), At(p, k), answer(k);
      var prev := ByText(was.items);
      LogsUnapproved(was, At(Refresh(p, a, transcript, autoApprove, answer), k), z) <==>
        && autoApprove && !Logged(was.log, z)
        && (exists i: nat :: ShownBy(c, offered, prev, MaxItems(k), z, i)) && StaysDraft(c, offered, prev, MaxItems(k), z)
  {
    var c, was, offered := ContextOf(p, a, transcript, autoApprove), At(p, k), answer(k);
    assert At(Refresh(p, a, transcript, autoApprove, answer), k) == RefreshSection(c, was, offered, MaxItems(k));
    SectionLogsDraftIff(c, was, offered, ByText(was.items), MaxItems(k), z);
  }

  /** Item by item: under automatic approval the drafts are the items made without a quote in the transcript, and those kept as drafts. */
  lemma DraftIff(c: Context, s: Section, offered: seq<Suggestion>, size: nat, it: Item)
    requires c.autoApprove && it in RefreshSection(c, s, offered, size).items
    ensures
      var prev := ByText(s.items);
      !it.status.Approved? <==> if it.zh in prev then !prev[it.zh].status.Approved? else !IsGrounded(c, it.quote)
  {
    ByTextFinds(s.items);
    SnapshotComesFrom(c, offered, ByText(s.items));
  }

  /** Whatever the transcript, a point suggested without a quote stands as a draft and in the log at once, and nobody approved it. */
  lemma UngroundedDraftIsLogged(a: Alphabet, transcript: string, zh: string) returns (op: Op)
    requires zh != ""
    ensures op.DoRefresh? && Vouched({}, [op]) == {}
    ensures
      var s := At(Run(EMPTY, a, [op]), SummaryPoints);
      && |s.items| == 1 && s.items[0].zh == zh && s.items[0].status.Draft? && !s.items[0].grounded
      && Logged(s.log, zh)
  {
    var answer := (k: Kind) => if k.SummaryPoints? then [Suggestion(zh, [], [], 0)] else [];
    op := DoRefresh(transcript, true, answer);
    var c := ContextOf(EMPTY, a, transcript, true);
    assert answer(SummaryPoints)[1..] == [];
    assert Snapshot(c, answer(SummaryPoints), map[]) == [NewItem(c, answer(SummaryPoints)[0])];
    assert [op][..0] == [] && Run(EMPTY, a, [op]) == Apply(EMPTY, a, op);
    LogAllLogged([], At(Apply(EMPTY, a, op), SummaryPoints).items, zh);
  }

  ghost predicate NoTwinsAnywhere(p: Panel) {
    forall k :: NoTwins(At(p, k).log)
  }

  lemma {:induction false} LogAllKeepsNoTwins(log: seq<Entry>, items: seq<Item>)
    requires NoTwins(log)
    ensures NoTwins(LogAll(log, items))
    decreases |items|
  {
    if items != [] {
      LogApprovedAdds(log, items[0], "");
      LogAllKeepsNoTwins(LogApproved(log, items[0]), items[1..]);
    }
  }

  lemma {:induction false} ActKeepsNoTwins(a: Action, id: Id, items: seq<Item>, log: seq<Entry>, hidden: seq<string>)
    requires NoTwins(log)
    ensures NoTwins(ActInSection(a, id, items, log, hidden).0.log)
    decreases |items|
  {
    if items != [] {
      var (it, log', hidden') := if items[0].id == id then ActOn(a, items[0], log, hidden) else (items[0], log, hidden);
      ActOnLogs(a, items[0], log, hidden, "");
      ActKeepsNoTwins(a, id, items[1..], log', hidden');
    }
  }

  lemma {:induction false} SetKeepsNoTwins(p: Panel, i: nat, id: Id, a: Action)
    requires i <= |KINDS| && NoTwinsAnywhere(p)
    ensures NoTwinsAnywhere(SetFrom(p, i, id, a))
    decreases |KINDS| - i
  {
    if i < |KINDS| {
      var s := At(p, KINDS[i]);
      ActKeepsNoTwins(a, id, s.items, s.log, p.hidden);
      var (s', hidden) := ActInSection(a, id, s.items, s.log, p.hidden);
      var p' := Panel(p.sections[KINDS[i] := s'], hidden);
      forall k ensures NoTwins(At(p', k).log) {
        assert NoTwins(At(p, k).log);
      }
      SetKeepsNoTwins(p', i + 1, id, a);
    }
  }

  /** In every run each section's log has one entry for each text. */
  lemma {:induction false} LogsHaveNoTwins(p: Panel, a: Alphabet, ops: seq<Op>)
    requires NoTwinsAnywhere(p)
    ensures NoTwinsAnywhere(Run(p, a, ops))
  {
    if ops != [] {
      var before, op := ops[..|ops| - 1], ops[|ops| - 1];
      LogsHaveNoTwins(p, a, before);
      var q := Run(p, a, before);
      match op {
        case DoReset =>
        case DoSet(id, action) => SetKeepsNoTwins(q, 0, id, action);
        case DoRefresh(transcript, autoApprove, answer) =>
          forall k ensures NoTwins(At(Run(p, a, ops), k).log) {
            assert NoTwins(At(q, k).log);
            LogAllKeepsNoTwins(At(q, k).log, At(Run(p, a, ops), k).items);
          }
      }
    }
  }

  // ----- Answers that come late -----

  /** A refresh has read the generation and asks the model, or its answer has passed the check for it. */
  datatype Stage = Asking(generation: nat) | Passed(generation: nat)

  /** `meeting` counts the resets, for the properties only. */
  datatype Engine = Engine(panel: Panel, generation: nat, meeting: nat, refreshes: map<nat, Stage>)

  datatype Event =
    | Begin(r: nat)
    | Check(r: nat)                         // one lock region; an answer of an earlier generation goes to the archive
    | Put(r: nat, refresh: Op)              // the next lock region
    | Operate(id: Id, action: Action)
    | Reset
    | StopAuto

  predicate Bumps(e: Event) { e.Reset? || e.StopAuto? }

  predicate Concerns(e: Event, r: nat) { (e.Begin? || e.Check? || e.Put?) && e.r == r }

  function EngineNext(e: Engine, a: Alphabet, ev: Event): Option<Engine> {
    match ev
    case Begin(r) => if r in e.refreshes then None else Some(e.(refreshes := e.refreshes[r := Asking(e.generation)]))
    case Check(r) =>
      if r !in e.refreshes || !e.refreshes[r].Asking? then None
      else if e.refreshes[r].generation != e.generation then Some(e.(refreshes := e.refreshes - {r}))
      else Some(e.(refreshes := e.refreshes[r := Passed(e.generation)]))
    case Put(r, refresh) =>
      if r !in e.refreshes || !e.refreshes[r].Passed? || !refresh.DoRefresh? then None
      else Some(e.(panel := Apply(e.panel, a, refresh), refreshes := e.refreshes - {r}))
    case Operate(id, action) => Some(e.(panel := SetItem(e.panel, id, action)))
    case Reset => Some(e.(panel := EMPTY, generation := e.generation + 1, meeting := e.meeting + 1))
    case StopAuto => Some(e.(generation := e.generation + 1))
  }

  function EngineRun(e: Engine, a: Alphabet, evs: seq<Event>): Option<Engine> {
    if evs == [] then Some(e)
    else
      var before := EngineRun(e, a, evs[..|evs| - 1]);
      if before.None? then None else EngineNext(before.value, a, evs[|evs| - 1])
  }

  ghost predicate NoBump(evs: seq<Event>) {
    forall i :: 0 <= i < |evs| ==> !Bumps(evs[i])
  }

  ghost predicate NoReset(evs: seq<Event>) {
    forall i :: 0 <= i < |evs| ==> !evs[i].Reset?
  }

  ghost predicate NoneConcerns(evs: seq<Event>, r: nat) {
    forall i :: 0 <= i < |evs| ==> !Concerns(evs[i], r)
  }

  /** What others do leaves a refresh where it is, and counts every reset and stop. */
  lemma {:induction false} OthersLeaveAlone(e: Engine, a: Alphabet, r: nat, evs: seq<Event>)
    requires r in e.refreshes && EngineRun(e, a, evs).Some? && NoneConcerns(evs, r)
    ensures
      var e' := EngineRun(e, a, evs).value;
      && r in e'.refreshes && e'.refreshes[r] == e.refreshes[r]
      && e'.generation >= e.generation && (e'.generation == e.generation <==> NoBump(evs))
      && e'.meeting >= e.meeting && (e'.meeting == e.meeting <==> NoReset(evs))
  {
    if evs != [] {
      var before, last := evs[..|evs| - 1], evs[|evs| - 1];
      OthersLeaveAlone(e, a, r, before);
      assert evs == before + [last];
      assert NoBump(evs) <==> NoBump(before) && !Bumps(last);
      assert NoReset(evs) <==> NoReset(before) && !last.Reset?;
    }
  }

  /**
    The check and the change it guards are two lock regions. Whatever the others do while the
    answer is `awaited` and then until it is `late`: the check lets it through exactly when no reset
    and no stop came before, an answer let through is always put on the panel, and that is the
    panel of the meeting it was asked in exactly when no reset came between the check and the put.
   */
  lemma AnswerMeetsItsMeetingIff(e: Engine, a: Alphabet, r: nat, awaited: seq<Event>, late: seq<Event>, refresh: Op)
    requires r !in e.refreshes && refresh.DoRefresh? && NoneConcerns(awaited, r) && NoneConcerns(late, r)
    requires EngineRun(EngineNext(e, a, Begin(r)).value, a, awaited).Some?
    ensures
      var asked := EngineRun(EngineNext(e, a, Begin(r)).value, a, awaited).value;
      && EngineNext(asked, a, Check(r)).Some?
      && var checked := EngineNext(asked, a, Check(r)).value;
         && (r in checked.refreshes <==> NoBump(awaited))
         && (r in checked.refreshes && EngineRun(checked, a, late).Some? ==>
               var now := EngineRun(checked, a, late).value;
               && EngineNext(now, a, Put(r, refresh)).Some?
               && EngineNext(now, a, Put(r, refresh)).value.panel == Apply(now.panel, a, refresh)
               && (now.meeting == e.meeting <==> NoReset(late)))
  {
    var begun := EngineNext(e, a, Begin(r)).value;
    OthersLeaveAlone(begun, a, r, awaited);
    var checked := EngineNext(EngineRun(begun, a, awaited).value, a, Check(r)).value;
    if r in checked.refreshes && EngineRun(checked, a, late).Some? {
      assert NoReset(awaited);
      OthersLeaveAlone(checked, a, r, late);
    }
  }

  lemma EngineThen(e: Engine, a: Alphabet, evs: seq<Event>, ev: Event) returns (longer: seq<Event>)
    requires EngineRun(e, a, evs).Some?
    ensures longer == evs + [ev] && EngineRun(e, a, longer) == EngineNext(EngineRun(e, a, evs).value, a, ev)
  {
    longer := evs + [ev];
    assert longer[..|longer| - 1] == evs;
  }

  /** A refresh nobody comes between puts its answer on the panel and is over. */
  lemma RefreshGoesThrough(e: Engine, a: Alphabet, r: nat, refresh: Op)
    requires r !in e.refreshes && refresh.DoRefresh?
    ensures EngineRun(e, a, [Begin(r), Check(r), Put(r, refresh)]) == Some(e.(panel := Apply(e.panel, a, refresh)))
    ensures EngineNext(e, a, Check(r)) == None && EngineNext(e, a, Put(r, refresh)) == None
  {
    var begun := EngineThen(e, a, [], Begin(r));
    var checked := EngineThen(e, a, begun, Check(r));
    var put := EngineThen(e, a, checked, Put(r, refresh));
    assert put == [Begin(r), Check(r), Put(r, refresh)];
    assert e.refreshes[r := Asking(e.generation)][r := Passed(e.generation)] - {r} == e.refreshes;
  }

  /** One that another reset or stop overtook is not put, and leaves the panel alone; a refresh begins once. */
  lemma StaleRefreshIsDropped(e: Engine, a: Alphabet, r: nat)
    requires r in e.refreshes
    ensures e.refreshes[r].Asking? && e.refreshes[r].generation != e.generation ==>
              EngineNext(e, a, Check(r)) == Some(e.(refreshes := e.refreshes - {r}))
    ensures EngineNext(e, a, Begin(r)) == None
  {
  }

  /** What the operator, a new session and a stop do to the engine. */
  lemma OthersTakeEffect(e: Engine, a: Alphabet, id: Id, action: Action)
    ensures EngineNext(e, a, Operate(id, action)) == Some(e.(panel := SetItem(e.panel, id, action)))
    ensures EngineNext(e, a, Reset) == Some(Engine(Panel(map[], []), e.generation + 1, e.meeting + 1, e.refreshes))
    ensures EngineNext(e, a, StopAuto) == Some(Engine(e.panel, e.generation + 1, e.meeting, e.refreshes))
  {
  }

  /** So an old meeting's answer can come to stand on the panel of a new one that nobody has refreshed. */
  lemma StaleAnswerReachesNewMeeting(a: Alphabet, transcript: string, zh: string) returns (evs: seq<Event>)
    requires zh != ""
    ensures EngineRun(Engine(EMPTY, 0, 0, map[]), a, evs).Some?
    ensures
      var e := EngineRun(Engine(EMPTY, 0, 0, map[]), a, evs).value;
      && |evs| == 4 && evs[2] == Reset && (forall i :: 3 <= i < |evs| ==> !evs[i].Begin?) && e.meeting == 1
      && |At(e.panel, SummaryPoints).items| == 1 && At(e.panel, SummaryPoints).items[0].zh == zh
  {
    var e := Engine(EMPTY, 0, 0, map[]);
    var answer := (k: Kind) => if k.SummaryPoints? then [Suggestion(zh, [], [], 0)] else [];
    evs := EngineThen(e, a, [], Begin(0));
    evs := EngineThen(e, a, evs, Check(0));
    evs := EngineThen(e, a, evs, Reset);
    evs := EngineThen(e, a, evs, Put(0, DoRefresh(transcript, false, answer)));
    var c := ContextOf(EMPTY, a, transcript, false);
    assert answer(SummaryPoints)[1..] == [];
    assert Snapshot(c, answer(SummaryPoints), map[]) == [NewItem(c, answer(SummaryPoints)[0])];
  }

  // ----- The engine in place -----

  method IndexByText(was: seq<Item>) returns (prev: map<string, Item>)
    ensures prev == ByText(was)
  {
    prev := map[];
    for i := 0 to |was|
      invariant prev == ByText(was[..i])
    {
      assert was[..i + 1][..i] == was[..i];
      prev := prev[was[i].zh := was[i]];
    }
    assert was[..|was|] == was;
  }

  method NewItems(c: Context, offered: seq<Suggestion>, was: seq<Item>) returns (items: seq<Item>)
    ensures items == Snapshot(c, offered, ByText(was))
  {
    var prev := IndexByText(was);
    items := [];
    for i := 0 to |offered|
      invariant items + Snapshot(c, offered[i..], prev) == Snapshot(c, offered, ByText(was))
    {
      var s := offered[i];
      assert offered[i..][1..] == offered[i + 1..];
      if s.Malformed? || s.zh == "" || s.zh in c.hidden {
        continue;
      }
      var grounded := IsGrounded(c, s.quote);
      if s.zh in prev {
        var kept := prev[s.zh];
        var keptOk := IsGrounded(c, kept.quote);
        if !(keptOk || grounded) {
          continue;
        }
        if grounded && !keptOk {
          prev := prev[s.zh := kept.(quote := s.quote)];
        }
        items := items + [prev[s.zh]];
        continue;
      }
      items := items + [Item(s.id, s.zh, s.en, s.quote, grounded, if c.autoApprove && grounded then Approved else Draft)];
    }
  }

  method NewLog(log: seq<Entry>, items: seq<Item>) returns (log': seq<Entry>)
    ensures log' == LogAll(log, items)
  {
    log' := log;
    for i := 0 to |items|
      invariant LogAll(log', items[i..]) == LogAll(log, items)
    {
      assert items[i..][1..] == items[i + 1..];
      log' := LogApproved(log', items[i]);
    }
  }

  method NewSection(c: Context, was: Section, offered: seq<Suggestion>, size: nat) returns (section: Section)
    ensures section == RefreshSection(c, was, offered, size)
  {
    var items := NewItems(c, offered, was.items);
    items := Cut(items, size);
    var log := was.log;
    if c.autoApprove {
      log := NewLog(log, items);
    }
    section := Section(items, log);
  }

  ghost function InFront(front: seq<Item>, r: (Section, seq<string>)): (Section, seq<string>) {
    (r.0.(items := front + r.0.items), r.1)
  }

  /** What acting on the first item leaves to do. */
  lemma ActStep(a: Action, id: Id, front: seq<Item>, items: seq<Item>, log: seq<Entry>, hidden: seq<string>)
    requires items != []
    ensures
      var (it, log', hidden') := if items[0].id == id then ActOn(a, items[0], log, hidden) else (items[0], log, hidden);
      InFront(front, ActInSection(a, id, items, log, hidden))
      == InFront(front + [it], ActInSection(a, id, items[1..], log', hidden'))
  {
    var (it, log', hidden') := if items[0].id == id then ActOn(a, items[0], log, hidden) else (items[0], log, hidden);
    var rest := ActInSection(a, id, items[1..], log', hidden').0.items;
    assert front + ([it] + rest) == (front + [it]) + rest;
  }

  method ActOnItems(a: Action, id: Id, section: Section, hidden: seq<string>) returns (section': Section, hidden': seq<string>)
    ensures (section', hidden') == ActInSection(a, id, section.items, section.log, hidden)
  {
    var items, log := [], section.log;
    hidden' := hidden;
    ghost var whole := ActInSection(a, id, section.items, log, hidden);
    assert section.items[0..] == section.items && [] + whole.0.items == whole.0.items;
    for i := 0 to |section.items|
      invariant InFront(items, ActInSection(a, id, section.items[i..], log, hidden')) == whole
    {
      var it := section.items[i];
      ActStep(a, id, items, section.items[i..], log, hidden');
      assert section.items[i..][1..] == section.items[i + 1..];
      if it.id == id {
        var (it', log', hidden1) := ActOn(a, it, log, hidden');
        it, log, hidden' := it', log', hidden1;
      }
      items := items + [it];
    }
    assert items + [] == items;
    section' := Section(items, log);
  }

  /** Sections written one by one, for every kind, are the whole refreshed panel. */
  lemma AllSections(sections: map<Kind, Section>, c: Context, p: Panel, answer: Answer)
    requires forall j :: 0 <= j < |KINDS| ==> KINDS[j] in sections && sections[KINDS[j]] == Refreshed(c, p, answer, KINDS[j])
    ensures sections == map k | k in KINDS :: Refreshed(c, p, answer, k)
  {
    forall k: Kind
      ensures k in sections && k in KINDS && sections[k] == Refreshed(c, p, answer, k)
    {
      assert KINDS[Number(k)] == k;
    }
  }

  class InsightEngine {
    var sections: map<Kind, Section>
    var hidden: seq<string>
    var generation: nat
    var autoApprove: bool

    function View(): Panel
      reads this
    {
      Panel(sections, hidden)
    }

    constructor (autoApprove: bool)
      ensures View() == EMPTY && generation == 0 && this.autoApprove == autoApprove
    {
      sections, hidden, generation := map[], [], 0;
      this.autoApprove := autoApprove;
    }

    method ResetPanel()
      modifies this
      ensures View() == EMPTY && generation == old(generation) + 1 && autoApprove == old(autoApprove)
    {
      generation := generation + 1;
      sections, hidden := map[], [];
    }

    method StopAuto()
      modifies this
      ensures View() == old(View()) && generation == old(generation) + 1 && autoApprove == old(autoApprove)
    {
      generation := generation + 1;
    }

    method PutAnswer(a: Alphabet, transcript: string, answer: Answer)
      modifies this
      ensures View() == Refresh(old(View()), a, transcript, autoApprove, answer)
      ensures generation == old(generation) && autoApprove == old(autoApprove)
    {
      ghost var before := View();
      var c := ContextOf(View(), a, transcript, autoApprove);
      for i := 0 to |KINDS|
        invariant hidden == before.hidden && generation == old(generation) && autoApprove == old(autoApprove)
        invariant forall j :: 0 <= j < i ==> KINDS[j] in sections && sections[KINDS[j]] == Refreshed(c, before, answer, KINDS[j])
        invariant forall j :: i <= j < |KINDS| ==> At(View(), KINDS[j]) == At(before, KINDS[j])
      {
        var k := KINDS[i];
        var section := NewSection(c, At(View(), k), answer(k), MaxItems(k));
        sections := sections[k := section];
      }
      AllSections(sections, c, before, answer);
    }

    method Set(id: Id, action: Action)
      modifies this
      ensures View() == SetItem(old(View()), id, action)
      ensures generation == old(generation) && autoApprove == old(autoApprove)
    {
      for i := 0 to |KINDS|
        invariant SetFrom(View(), i, id, action) == SetItem(old(View()), id, action)
        invariant generation == old(generation) && autoApprove == old(autoApprove)
      {
        var section, hidden' := ActOnItems(action, id, At(View(), KINDS[i]), hidden);
        sections, hidden := sections[KINDS[i] := section], hidden';
      }
    }
  }
}
