/**
  The operator's "session so far" view (forum_agent/sofar.py, build): the approved points of a
  session by topic phase, from the append-only history of insight snapshots.

  A line of the history is a snapshot, or nothing when it does not decode.
 */
module SoFar {
  import opened Common

  const KIND_COUNT := 5

  datatype Point = Point(zh: string, en: string)

  datatype Item = Item(zh: string, en: string, approved: bool)

  /** The convergence line, when it was taken, and the items by kind. */
  datatype Snapshot = Snapshot(title: string, updated: nat, items: seq<seq<Item>>)

  type Line = Option<Snapshot>

  datatype Phase = Phase(title: string, start: nat, rows: seq<seq<Point>>)

  /** The phases so far, and the texts already placed. */
  datatype View = View(phases: seq<Phase>, seen: set<string>)

  const NOTHING := View([], {})
  const NO_ROWS: seq<seq<Point>> := [[], [], [], [], []]

  function ItemsAt(s: Snapshot, k: nat): seq<Item> {
    if k < |s.items| then s.items[k] else []
  }

  predicate StartsPhase(phases: seq<Phase>, title: string) {
    phases == [] || (title != "" && title != phases[|phases| - 1].title)
  }

  function Open(v: View, s: Snapshot): View {
    if StartsPhase(v.phases, s.title) then v.(phases := v.phases + [Phase(s.title, s.updated, NO_ROWS)]) else v
  }

  /** New points go to the front of their row in the last phase. */
  function Place(phases: seq<Phase>, k: nat, p: Point): seq<Phase>
    requires phases != [] && k < |phases[|phases| - 1].rows|
  {
    var last := phases[|phases| - 1];
    phases[..|phases| - 1] + [last.(rows := last.rows[k := [p] + last.rows[k]])]
  }

  predicate Surfaces(it: Item) { it.approved && it.zh != "" }

  predicate Ready(v: View) {
    v.phases != [] && |v.phases[|v.phases| - 1].rows| == KIND_COUNT
  }

  function AddItem(v: View, k: nat, it: Item): (v': View)
    requires Ready(v) && k < KIND_COUNT
    ensures Ready(v')
  {
    if Surfaces(it) && it.zh !in v.seen then View(Place(v.phases, k, Point(it.zh, it.en)), v.seen + {it.zh}) else v
  }

  function AddItems(v: View, k: nat, items: seq<Item>): (v': View)
    requires Ready(v) && k < KIND_COUNT
    ensures Ready(v')
  {
    if items == [] then v else AddItem(AddItems(v, k, items[..|items| - 1]), k, items[|items| - 1])
  }

  /** The items of the first `k` kinds. */
  function AddKinds(v: View, s: Snapshot, k: nat): (v': View)
    requires Ready(v) && k <= KIND_COUNT
    ensures Ready(v')
  {
    if k == 0 then v else AddItems(AddKinds(v, s, k - 1), k - 1, ItemsAt(s, k - 1))
  }

  ghost predicate Sound(v: View) {
    && (forall p :: 0 <= p < |v.phases| ==> |v.phases[p].rows| == KIND_COUNT)
    && (v.phases == [] ==> v.seen == {})
    && AllTexts(v.phases) == multiset(v.seen)
  }

  function Step(v: View, line: Line): View
    requires v.phases == [] || Ready(v)
  {
    if line.None? then v else AddKinds(Open(v, line.value), line.value, KIND_COUNT)
  }

  function Phases(lines: seq<Line>): (v: View)
    ensures v.phases == [] || Ready(v)
  {
    if lines == [] then NOTHING else Step(Phases(lines[..|lines| - 1]), lines[|lines| - 1])
  }

  // ----- Every point once -----

  function Texts(points: seq<Point>): multiset<string> {
    if points == [] then multiset{} else multiset{points[0].zh} + Texts(points[1..])
  }

  /** The texts of the first `n` rows. */
  function RowTexts(rows: seq<seq<Point>>, n: nat): multiset<string>
    requires n <= |rows|
  {
    if n == 0 then multiset{} else RowTexts(rows, n - 1) + Texts(rows[n - 1])
  }

  function PhaseTexts(p: Phase): multiset<string> { RowTexts(p.rows, |p.rows|) }

  function AllTexts(phases: seq<Phase>): multiset<string> {
    if phases == [] then multiset{} else AllTexts(phases[..|phases| - 1]) + PhaseTexts(phases[|phases| - 1])
  }

  lemma TextsInFront(p: Point, points: seq<Point>)
    ensures Texts([p] + points) == multiset{p.zh} + Texts(points)
  {
    assert ([p] + points)[1..] == points;
  }

  lemma {:induction false} RowGrows(rows: seq<seq<Point>>, longer: seq<seq<Point>>, k: nat, p: Point, n: nat)
    requires k < |rows| && n <= |rows| && longer == rows[k := [p] + rows[k]]
    ensures RowTexts(longer, n) == if k < n then RowTexts(rows, n) + multiset{p.zh} else RowTexts(rows, n)
  {
    if n > 0 {
      RowGrows(rows, longer, k, p, n - 1);
      if k == n - 1 {
        TextsInFront(p, rows[k]);
      }
    }
  }

  lemma {:induction false} NoPointsNoTexts(rows: seq<seq<Point>>, n: nat)
    requires n <= |rows|
    ensures RowTexts(rows, n) == multiset{} <==> forall k :: 0 <= k < n ==> rows[k] == []
  {
    if n > 0 {
      NoPointsNoTexts(rows, n - 1);
      assert rows[n - 1] != [] ==> rows[n - 1][0].zh in Texts(rows[n - 1]);
    }
  }

  lemma PlaceAdds(phases: seq<Phase>, k: nat, p: Point)
    requires phases != [] && k < |phases[|phases| - 1].rows|
    ensures AllTexts(Place(phases, k, p)) == AllTexts(phases) + multiset{p.zh}
    ensures PhaseTexts(Place(phases, k, p)[|phases| - 1]) == PhaseTexts(phases[|phases| - 1]) + multiset{p.zh}
  {
    var rows := phases[|phases| - 1].rows;
    RowGrows(rows, rows[k := [p] + rows[k]], k, p, |rows|);
    assert Place(phases, k, p)[..|phases| - 1] == phases[..|phases| - 1];
  }

  /** What later lines leave of earlier phases: they stay, in place, and only the last of them can gain points. */
  ghost predicate Grows(v: View, v': View) {
    && |v.phases| <= |v'.phases| && v.seen <= v'.seen
    && forall p :: 0 <= p < |v.phases| ==> PhaseTexts(v.phases[p]) <= PhaseTexts(v'.phases[p])
  }

  /** All that is new is in the last phase. */
  ghost predicate NewInLast(v: View, v': View) {
    forall zh :: zh in v'.seen && zh !in v.seen ==> v'.phases != [] && zh in PhaseTexts(v'.phases[|v'.phases| - 1])
  }

  /** Points are added to the last phase only, and none is taken away. */
  ghost predicate Adds(v: View, v': View) {
    |v'.phases| == |v.phases| && Grows(v, v') && NewInLast(v, v')
  }

  lemma AddsTransitive(u: View, v: View, w: View)
    requires Adds(u, v) && Adds(v, w)
    ensures Adds(u, w)
  {
    forall p | 0 <= p < |u.phases|
      ensures PhaseTexts(u.phases[p]) <= PhaseTexts(w.phases[p])
    {
      assert PhaseTexts(u.phases[p]) <= PhaseTexts(v.phases[p]) <= PhaseTexts(w.phases[p]);
    }
    forall zh | zh in w.seen && zh !in u.seen
      ensures w.phases != [] && zh in PhaseTexts(w.phases[|w.phases| - 1])
    {
      if zh in v.seen {
        assert PhaseTexts(v.phases[|v.phases| - 1]) <= PhaseTexts(w.phases[|w.phases| - 1]);
      }
    }
  }

  lemma AddItemSound(v: View, k: nat, it: Item)
    requires Sound(v) && Ready(v) && k < KIND_COUNT
    ensures Sound(AddItem(v, k, it)) && AddItem(v, k, it).seen == v.seen + if Surfaces(it) then {it.zh} else {}
  {
    if Surfaces(it) && it.zh !in v.seen {
      PlaceAdds(v.phases, k, Point(it.zh, it.en));
    }
  }

  /** One more text in the last phase. */
  lemma AddsOne(v: View, v': View, zh: string)
    requires v.phases != [] && |v'.phases| == |v.phases| && v'.seen == v.seen + {zh}
    requires forall p :: 0 <= p < |v.phases| - 1 ==> v'.phases[p] == v.phases[p]
    requires PhaseTexts(v'.phases[|v.phases| - 1]) == PhaseTexts(v.phases[|v.phases| - 1]) + multiset{zh}
    ensures Adds(v, v')
  {
  }

  lemma PlaceKeeps(phases: seq<Phase>, k: nat, p: Point)
    requires phases != [] && k < |phases[|phases| - 1].rows|
    ensures |Place(phases, k, p)| == |phases|
    ensures forall i :: 0 <= i < |phases| - 1 ==> Place(phases, k, p)[i] == phases[i]
  {
  }

  lemma AddItemAdds(v: View, k: nat, it: Item)
    requires Ready(v) && k < KIND_COUNT
    ensures Adds(v, AddItem(v, k, it))
  {
    if Surfaces(it) && it.zh !in v.seen {
      var p := Point(it.zh, it.en);
      PlaceAdds(v.phases, k, p);
      PlaceKeeps(v.phases, k, p);
      AddsOne(v, View(Place(v.phases, k, p), v.seen + {it.zh}), it.zh);
    }
  }

  /** The texts of the surfacing items. */
  function Surfacing(items: seq<Item>): set<string> {
    set i | 0 <= i < |items| && Surfaces(items[i]) :: items[i].zh
  }

  lemma SurfacingStep(items: seq<Item>, it: Item)
    ensures Surfacing(items + [it]) == Surfacing(items) + if Surfaces(it) then {it.zh} else {}
  {
    var longer := items + [it];
    assert longer[|items|] == it && forall i :: 0 <= i < |items| ==> longer[i] == items[i];
  }

  lemma {:induction false} AddItemsAdds(v: View, k: nat, items: seq<Item>)
    requires Ready(v) && k < KIND_COUNT
    ensures Adds(v, AddItems(v, k, items))
  {
    if items != [] {
      var mid := AddItems(v, k, items[..|items| - 1]);
      AddItemsAdds(v, k, items[..|items| - 1]);
      AddItemAdds(mid, k, items[|items| - 1]);
      AddsTransitive(v, mid, AddItem(mid, k, items[|items| - 1]));
    }
  }

  lemma {:induction false} AddItemsSound(v: View, k: nat, items: seq<Item>)
    requires Sound(v) && Ready(v) && k < KIND_COUNT
    ensures Sound(AddItems(v, k, items)) && AddItems(v, k, items).seen == v.seen + Surfacing(items)
  {
    if items != [] {
      var before, it := items[..|items| - 1], items[|items| - 1];
      AddItemsSound(v, k, before);
      AddItemSound(AddItems(v, k, before), k, it);
      SurfacingStep(before, it);
      assert items == before + [it];
    }
  }

  function SurfacingUpTo(s: Snapshot, k: nat): set<string> {
    if k == 0 then {} else SurfacingUpTo(s, k - 1) + Surfacing(ItemsAt(s, k - 1))
  }

  lemma AddsNothing(v: View)
    ensures Adds(v, v)
  {
  }

  lemma AddKindsStep(v: View, s: Snapshot, k: nat, next: nat)
    requires Ready(v) && next == k + 1 <= KIND_COUNT && Adds(v, AddKinds(v, s, k))
    ensures Adds(v, AddKinds(v, s, next))
  {
    var mid := AddKinds(v, s, k);
    var end := AddItems(mid, k, ItemsAt(s, k));
    AddItemsAdds(mid, k, ItemsAt(s, k));
    AddsTransitive(v, mid, end);
  }

  lemma {:induction false} AddKindsAdds(v: View, s: Snapshot, k: nat)
    requires Ready(v) && k <= KIND_COUNT
    ensures Adds(v, AddKinds(v, s, k))
  {
    if k == 0 {
      AddsNothing(v);
    } else {
      var before := k - 1;
      AddKindsAdds(v, s, before);
      AddKindsStep(v, s, before, k);
    }
  }

  lemma {:induction false} AddKindsSound(v: View, s: Snapshot, k: nat)
    requires Sound(v) && Ready(v) && k <= KIND_COUNT
    ensures Sound(AddKinds(v, s, k)) && AddKinds(v, s, k).seen == v.seen + SurfacingUpTo(s, k)
  {
    if k > 0 {
      AddKindsSound(v, s, k - 1);
      AddKindSound(v, s, k - 1, k);
    }
  }

  lemma AddKindSound(v: View, s: Snapshot, k: nat, next: nat)
    requires Ready(v) && next == k + 1 <= KIND_COUNT
    requires Sound(AddKinds(v, s, k)) && AddKinds(v, s, k).seen == v.seen + SurfacingUpTo(s, k)
    ensures Sound(AddKinds(v, s, next)) && AddKinds(v, s, next).seen == v.seen + SurfacingUpTo(s, next)
  {
    var mid, items := AddKinds(v, s, k), ItemsAt(s, k);
    AddItemsSound(mid, k, items);
    assert v.seen + (SurfacingUpTo(s, k) + Surfacing(items)) == (v.seen + SurfacingUpTo(s, k)) + Surfacing(items);
  }

  /** The approved texts of a line. */
  function Approved(line: Line): set<string> {
    if line.None? then {} else SurfacingUpTo(line.value, KIND_COUNT)
  }

  lemma OpenSound(v: View, s: Snapshot)
    requires Sound(v)
    ensures Sound(Open(v, s)) && Ready(Open(v, s)) && Grows(v, Open(v, s)) && Open(v, s).seen == v.seen
  {
    if StartsPhase(v.phases, s.title) {
      var longer := Open(v, s).phases;
      assert longer[..|longer| - 1] == v.phases;
      NoPointsNoTexts(NO_ROWS, |NO_ROWS|);
    }
  }

  lemma GrowsThenAdds(v: View, begun: View, end: View)
    requires Grows(v, begun) && begun.seen == v.seen && Adds(begun, end)
    ensures Grows(v, end) && NewInLast(v, end)
  {
    forall p | 0 <= p < |v.phases|
      ensures PhaseTexts(v.phases[p]) <= PhaseTexts(end.phases[p])
    {
      assert PhaseTexts(v.phases[p]) <= PhaseTexts(begun.phases[p]) <= PhaseTexts(end.phases[p]);
    }
  }

  lemma SnapshotGrows(v: View, s: Snapshot, k: nat)
    requires Sound(v) && k <= KIND_COUNT
    ensures Ready(Open(v, s))
    ensures
      var end := AddKinds(Open(v, s), s, k);
      Sound(end) && Grows(v, end) && NewInLast(v, end) && end.seen == v.seen + SurfacingUpTo(s, k)
  {
    OpenSound(v, s);
    var begun := Open(v, s);
    var end := AddKinds(begun, s, k);
    AddKindsSound(begun, s, k);
    AddKindsAdds(begun, s, k);
    GrowsThenAdds(v, begun, end);
  }

  lemma StepGrows(v: View, line: Line)
    requires Sound(v)
    ensures Sound(Step(v, line)) && Grows(v, Step(v, line)) && NewInLast(v, Step(v, line))
    ensures Step(v, line).seen == v.seen + Approved(line)
  {
    if line.Some? {
      SnapshotGrows(v, line.value, KIND_COUNT);
    }
  }

  /** The approved texts of the whole history. */
  function ApprovedIn(lines: seq<Line>): set<string> {
    if lines == [] then {} else ApprovedIn(lines[..|lines| - 1]) + Approved(lines[|lines| - 1])
  }

  /** Every approved text of the session is in exactly one place, and nothing else is anywhere. */
  lemma {:induction false} EveryPointOnce(lines: seq<Line>)
    ensures Sound(Phases(lines))
    ensures AllTexts(Phases(lines).phases) == multiset(ApprovedIn(lines))
    ensures Phases(lines).seen == ApprovedIn(lines)
  {
    if lines != [] {
      EveryPointOnce(lines[..|lines| - 1]);
      StepGrows(Phases(lines[..|lines| - 1]), lines[|lines| - 1]);
    }
  }

  lemma {:induction false} LaterLinesGrow(lines: seq<Line>, i: nat)
    requires i <= |lines|
    ensures Grows(Phases(lines[..i]), Phases(lines))
  {
    if i == |lines| {
      assert lines[..i] == lines;
    } else {
      var before := lines[..|lines| - 1];
      assert before[..i] == lines[..i];
      LaterLinesGrow(before, i);
      EveryPointOnce(before);
      StepGrows(Phases(before), lines[|lines| - 1]);
    }
  }

  /** And that place is in the phase that was current when the text was first approved. */
  lemma PointIsInItsFirstPhase(lines: seq<Line>, i: nat, zh: string)
    requires i < |lines| && zh in Approved(lines[i]) && zh !in ApprovedIn(lines[..i])
    ensures
      var now := Phases(lines[..i + 1]).phases;
      now != [] && |now| <= |Phases(lines).phases| && PhaseTexts(Phases(lines).phases[|now| - 1])[zh] == 1
  {
    var first := lines[..i + 1];
    assert first[..i] == lines[..i];
    FirstApproval(first, i, zh);
    LaterLinesGrow(lines, i + 1);
    EveryPointOnce(lines);
    StaysHome(Phases(first), Phases(lines), zh);
  }

  /** A text new with the last line is in the last phase. */
  lemma FirstApproval(lines: seq<Line>, i: nat, zh: string)
    requires |lines| == i + 1 && zh in Approved(lines[i]) && zh !in ApprovedIn(lines[..i])
    ensures
      var now := Phases(lines).phases;
      now != [] && zh in PhaseTexts(now[|now| - 1])
  {
    EveryPointOnce(lines[..i]);
    StepGrows(Phases(lines[..i]), lines[i]);
    IsInLast(Phases(lines[..i]), Step(Phases(lines[..i]), lines[i]), zh);
  }

  lemma IsInLast(v: View, v': View, zh: string)
    requires NewInLast(v, v') && zh in v'.seen && zh !in v.seen
    ensures v'.phases != [] && zh in PhaseTexts(v'.phases[|v'.phases| - 1])
  {
  }

  /** A text of the last phase then is there once for good. */
  lemma StaysHome(now: View, end: View, zh: string)
    requires Grows(now, end) && AllTexts(end.phases) == multiset(end.seen)
    requires now.phases != [] && zh in PhaseTexts(now.phases[|now.phases| - 1])
    ensures PhaseTexts(end.phases[|now.phases| - 1])[zh] == 1
  {
    OnePhaseIsLess(end.phases, |now.phases| - 1);
    assert PhaseTexts(now.phases[|now.phases| - 1]) <= PhaseTexts(end.phases[|now.phases| - 1]);
  }

  lemma {:induction false} OnePhaseIsLess(phases: seq<Phase>, p: nat)
    requires p < |phases|
    ensures PhaseTexts(phases[p]) <= AllTexts(phases)
  {
    if p < |phases| - 1 {
      OnePhaseIsLess(phases[..|phases| - 1], p);
    }
  }

  function Decoded(lines: seq<Line>): seq<Line> {
    if lines == [] then []
    else Decoded(lines[..|lines| - 1]) + if lines[|lines| - 1].Some? then [lines[|lines| - 1]] else []
  }

  /** A torn line changes nothing. */
  lemma {:induction false} TornLinesDoNotMatter(lines: seq<Line>)
    ensures Phases(Decoded(lines)) == Phases(lines)
  {
    if lines != [] {
      var before := Decoded(lines[..|lines| - 1]);
      TornLinesDoNotMatter(lines[..|lines| - 1]);
      if lines[|lines| - 1].Some? {
        assert Decoded(lines)[..|before|] == before;
      } else {
        assert Decoded(lines) == before;
      }
    }
  }

  // ----- What one line adds -----

  ghost predicate Descends(at: seq<nat>) {
    forall a, b :: 0 <= a < b < |at| ==> at[b] < at[a]
  }

  ghost predicate Covers(at: seq<nat>, n: nat, wanted: nat -> bool) {
    forall j: nat :: j in at <==> j < n && wanted(j)
  }

  /** The wanted positions below `n`, from the last to the first. */
  ghost predicate Backwards(at: seq<nat>, n: nat, wanted: nat -> bool) {
    Descends(at) && Covers(at, n, wanted)
  }

  /** Item `j` is approved, has a text, and is the first of its text that is not seen yet. */
  predicate IsFirst(items: seq<Item>, seen: set<string>, j: nat) {
    && j < |items| && items[j].approved && items[j].zh != "" && items[j].zh !in seen
    && forall i :: 0 <= i < j && items[i].approved ==> items[i].zh != items[j].zh
  }

  function FirstOf(items: seq<Item>, seen: set<string>): nat -> bool {
    (j: nat) => IsFirst(items, seen, j)
  }

  /** The points of the items at these positions. */
  ghost predicate PointsAt(points: seq<Point>, items: seq<Item>, at: seq<nat>) {
    && |points| == |at|
    && forall a :: 0 <= a < |at| ==> at[a] < |items| && points[a] == Point(items[at[a]].zh, items[at[a]].en)
  }

  /** These points are new: those of the first approved items of texts not seen, the last item first. */
  ghost predicate AreNew(points: seq<Point>, items: seq<Item>, seen: set<string>) {
    exists at :: Backwards(at, |items|, FirstOf(items, seen)) && PointsAt(points, items, at)
  }

  lemma NoneAreNew(seen: set<string>)
    ensures AreNew([], [], seen)
  {
    var none: seq<nat> := [];
    assert Backwards(none, 0, FirstOf([], seen)) && PointsAt([], [], none);
  }

  lemma DescendsInFront(at: seq<nat>, n: nat)
    requires Descends(at) && forall j: nat :: j in at ==> j < n
    ensures Descends([n] + at)
  {
    var longer := [n] + at;
    forall a, b | 0 <= a < b < |longer|
      ensures longer[b] < longer[a]
    {
      assert longer[b] == at[b - 1] && at[b - 1] in at;
      if a > 0 {
        assert longer[a] == at[a - 1];
      }
    }
  }

  lemma InFront(at: seq<nat>, n: nat, j: nat)
    ensures j in [n] + at <==> j == n || j in at
  {
  }

  /** One more position is left out or goes to the front. */
  lemma BackwardsSkips(at: seq<nat>, n: nat, next: nat, wanted: nat -> bool, wanted': nat -> bool)
    requires Backwards(at, n, wanted) && next == n + 1 && !wanted'(n) && forall j: nat :: j < n ==> wanted'(j) == wanted(j)
    ensures Backwards(at, next, wanted')
  {
  }

  lemma BackwardsTakes(at: seq<nat>, n: nat, next: nat, wanted: nat -> bool, wanted': nat -> bool)
    requires Backwards(at, n, wanted) && next == n + 1 && wanted'(n) && forall j: nat :: j < n ==> wanted'(j) == wanted(j)
    ensures Backwards([n] + at, next, wanted')
  {
    DescendsInFront(at, n);
    forall j: nat
      ensures j in [n] + at <==> j < next && wanted'(j)
    {
      InFront(at, n, j);
    }
  }

  lemma FirstStep(items: seq<Item>, longer: seq<Item>, it: Item, seen: set<string>)
    requires longer == items + [it]
    ensures forall j: nat :: j < |items| ==> IsFirst(longer, seen, j) == IsFirst(items, seen, j)
    ensures IsFirst(longer, seen, |items|) <==> it.approved && it.zh != "" && it.zh !in seen && it.zh !in Surfacing(items)
  {
    assert longer[|items|] == it && forall j :: 0 <= j < |items| ==> longer[j] == items[j];
  }

  lemma PointsStep(points: seq<Point>, items: seq<Item>, longer: seq<Item>, it: Item, at: seq<nat>)
    requires PointsAt(points, items, at) && longer == items + [it]
    ensures PointsAt(points, longer, at)
    ensures PointsAt([Point(it.zh, it.en)] + points, longer, [|items|] + at)
  {
    assert longer[|items|] == it && forall j :: 0 <= j < |items| ==> longer[j] == items[j];
  }

  lemma NewAre(points: seq<Point>, items: seq<Item>, seen: set<string>, at: seq<nat>)
    requires Backwards(at, |items|, FirstOf(items, seen)) && PointsAt(points, items, at)
    ensures AreNew(points, items, seen)
  {
  }

  lemma OneMoreIsNew(points: seq<Point>, items: seq<Item>, it: Item, seen: set<string>)
    requires AreNew(points, items, seen)
    ensures
      var first := it.approved && it.zh != "" && it.zh !in seen && it.zh !in Surfacing(items);
      AreNew(if first then [Point(it.zh, it.en)] + points else points, items + [it], seen)
  {
    var at :| Backwards(at, |items|, FirstOf(items, seen)) && PointsAt(points, items, at);
    var longer, n := items + [it], |items|;
    FirstStep(items, longer, it, seen);
    PointsStep(points, items, longer, it, at);
    if FirstOf(longer, seen)(n) {
      BackwardsTakes(at, n, |longer|, FirstOf(items, seen), FirstOf(longer, seen));
      NewAre([Point(it.zh, it.en)] + points, longer, seen, [n] + at);
    } else {
      BackwardsSkips(at, n, |longer|, FirstOf(items, seen), FirstOf(longer, seen));
      NewAre(points, longer, seen, at);
    }
  }

  /** Only row `k` of the last phase changes, and gets these points in front. */
  ghost predicate InRow(before: seq<Phase>, after: seq<Phase>, k: nat, points: seq<Point>)
    requires before != [] && k < |before[|before| - 1].rows|
  {
    var last := |before| - 1;
    && |after| == |before| && after[..last] == before[..last]
    && after[last] == before[last].(rows := before[last].rows[k := points + before[last].rows[k]])
  }

  lemma PlaceInRow(before: seq<Phase>, after: seq<Phase>, k: nat, points: seq<Point>, p: Point)
    requires before != [] && k < |before[|before| - 1].rows| && InRow(before, after, k, points)
    ensures InRow(before, Place(after, k, p), k, [p] + points)
  {
    var last := |before| - 1;
    var rows, row := before[last].rows, points + before[last].rows[k];
    assert rows[k := row][k := [p] + row] == rows[k := [p] + row];
    assert [p] + (points + before[last].rows[k]) == ([p] + points) + before[last].rows[k];
    assert Place(after, k, p)[..last] == after[..last];
  }

  /** What the items of one kind add. */
  lemma {:induction false} ItemsAreAdded(v: View, k: nat, items: seq<Item>) returns (points: seq<Point>)
    requires Ready(v) && k < KIND_COUNT
    ensures AreNew(points, items, v.seen) && InRow(v.phases, AddItems(v, k, items).phases, k, points)
    ensures AddItems(v, k, items).seen == v.seen + Surfacing(items)
  {
    if items == [] {
      points := [];
      NoneAreNew(v.seen);
      var rows := v.phases[|v.phases| - 1].rows;
      assert [] + rows[k] == rows[k] && rows[k := rows[k]] == rows;
    } else {
      var last := |items| - 1;
      var most, it := items[..last], items[last];
      assert items == most + [it];
      points := ItemsAreAdded(v, k, most);
      points := ItemIsAdded(v, k, most, it, AddItems(v, k, most), points);
    }
  }

  lemma ItemIsAdded(v: View, k: nat, most: seq<Item>, it: Item, mid: View, points: seq<Point>) returns (more: seq<Point>)
    requires Ready(v) && k < KIND_COUNT && Ready(mid)
    requires AreNew(points, most, v.seen) && InRow(v.phases, mid.phases, k, points) && mid.seen == v.seen + Surfacing(most)
    ensures AreNew(more, most + [it], v.seen) && InRow(v.phases, AddItem(mid, k, it).phases, k, more)
    ensures AddItem(mid, k, it).seen == v.seen + Surfacing(most + [it])
  {
    OneMoreIsNew(points, most, it, v.seen);
    SurfacingStep(most, it);
    SeenStep(v.seen, Surfacing(most), it.zh);
    if Surfaces(it) && it.zh !in mid.seen {
      PlaceInRow(v.phases, mid.phases, k, points, Point(it.zh, it.en));
      more := [Point(it.zh, it.en)] + points;
    } else {
      more := points;
    }
  }

  lemma SeenStep(seen: set<string>, more: set<string>, zh: string)
    ensures seen + more + {zh} == seen + (more + {zh})
    ensures zh in seen + more ==> seen + (more + {zh}) == seen + more
    ensures seen + (more + {}) == seen + more
  {
  }

  /** Row `k` of a line's phase: the new points of kind `k`, in front of what was there. */
  ghost predicate RowIs(row: seq<Point>, before: seq<Point>, s: Snapshot, k: nat, seen: set<string>) {
    exists points :: AreNew(points, ItemsAt(s, k), seen + SurfacingUpTo(s, k)) && row == points + before
  }

  /** The rows of the first `n` kinds have their new points, the others are as they were. */
  ghost predicate RowsAre(before: seq<Phase>, after: seq<Phase>, s: Snapshot, n: nat, seen: set<string>)
    requires before != [] && |before[|before| - 1].rows| == KIND_COUNT && n <= KIND_COUNT
  {
    var last := |before| - 1;
    && |after| == |before| && after[..last] == before[..last]
    && after[last].title == before[last].title && after[last].start == before[last].start && |after[last].rows| == KIND_COUNT
    && (forall k :: 0 <= k < n ==> RowIs(after[last].rows[k], before[last].rows[k], s, k, seen))
    && (forall k :: n <= k < KIND_COUNT ==> after[last].rows[k] == before[last].rows[k])
  }

  lemma RowsStep(before: seq<Phase>, mid: seq<Phase>, after: seq<Phase>, s: Snapshot, n: nat, next: nat, seen: set<string>, points: seq<Point>)
    requires before != [] && |before[|before| - 1].rows| == KIND_COUNT && next == n + 1 <= KIND_COUNT
    requires RowsAre(before, mid, s, n, seen) && InRow(mid, after, n, points)
    requires AreNew(points, ItemsAt(s, n), seen + SurfacingUpTo(s, n))
    ensures RowsAre(before, after, s, next, seen)
  {
    var last := |before| - 1;
    forall k | 0 <= k < next
      ensures RowIs(after[last].rows[k], before[last].rows[k], s, k, seen)
    {
      if k < n {
        assert after[last].rows[k] == mid[last].rows[k];
      }
    }
  }

  lemma {:induction false} KindsAreAdded(v: View, s: Snapshot, n: nat)
    requires Ready(v) && n <= KIND_COUNT
    ensures RowsAre(v.phases, AddKinds(v, s, n).phases, s, n, v.seen)
    ensures AddKinds(v, s, n).seen == v.seen + SurfacingUpTo(s, n)
  {
    if n > 0 {
      var m := n - 1;
      KindsAreAdded(v, s, m);
      var mid := AddKinds(v, s, m);
      var points := ItemsAreAdded(mid, m, ItemsAt(s, m));
      RowsStep(v.phases, mid.phases, AddKinds(v, s, n).phases, s, m, n, v.seen, points);
    }
  }

  /**
    What a line does to the page. It begins a phase, with its own title and time and five empty rows, when there is none or when
    it has a title that is not the last one's; and then each of its kinds puts its new points, the last one first, in front of
    its own row of the last phase. Earlier phases stay as they are.
   */
  lemma LineOutcome(v: View, s: Snapshot)
    requires v.phases == [] || Ready(v)
    ensures
      var begins := v.phases == [] || (s.title != "" && s.title != v.phases[|v.phases| - 1].title);
      var begun := if begins then v.phases + [Phase(s.title, s.updated, [[], [], [], [], []])] else v.phases;
      RowsAre(begun, Step(v, Some(s)).phases, s, 5, v.seen)
  {
    KindsAreAdded(Open(v, s), s, KIND_COUNT);
  }

  // ----- What is shown -----

  predicate HasPoints(p: Phase) {
    exists k :: 0 <= k < |p.rows| && p.rows[k] != []
  }

  const TITLE_LENGTH := 24

  function FirstText(rows: seq<seq<Point>>): string {
    if rows == [] then "" else if rows[0] != [] then rows[0][0].zh else FirstText(rows[1..])
  }

  /** A phase without a convergence line goes by its first point. */
  function Titled(p: Phase): Phase {
    if p.title != "" then p
    else
      var first := FirstText(p.rows);
      p.(title := if |first| <= TITLE_LENGTH then first else first[..TITLE_LENGTH])
  }

  /** The phases with points, titled, the latest first. */
  function Shown(phases: seq<Phase>): seq<Phase> {
    if phases == [] then []
    else
      var last := phases[|phases| - 1];
      (if HasPoints(last) then [Titled(last)] else []) + Shown(phases[..|phases| - 1])
  }

  lemma {:induction false} AllTextsInFront(p: Phase, phases: seq<Phase>)
    ensures AllTexts([p] + phases) == PhaseTexts(p) + AllTexts(phases)
  {
    var longer := [p] + phases;
    if phases == [] {
      assert longer[..0] == [] && longer[0] == p;
    } else {
      var before := phases[..|phases| - 1];
      AllTextsInFront(p, before);
      assert longer[..|longer| - 1] == [p] + before && longer[|longer| - 1] == phases[|phases| - 1];
    }
  }

  /** Leaving out empty phases, titling and turning the order around lose and add no point. */
  lemma {:induction false} ShownKeepsTexts(phases: seq<Phase>)
    ensures AllTexts(Shown(phases)) == AllTexts(phases)
  {
    if phases != [] {
      var last := phases[|phases| - 1];
      ShownKeepsTexts(phases[..|phases| - 1]);
      NoPointsNoTexts(last.rows, |last.rows|);
      if HasPoints(last) {
        AllTextsInFront(Titled(last), Shown(phases[..|phases| - 1]));
      } else {
        assert Shown(phases) == Shown(phases[..|phases| - 1]);
      }
    }
  }

  /** A phase keeps its title, its time and its rows; only without a title it goes by the first 24 characters of its first point. */
  lemma TitledIs(p: Phase)
    ensures Titled(p).start == p.start && Titled(p).rows == p.rows
    ensures p.title != "" ==> Titled(p).title == p.title
    ensures p.title == "" && HasPoints(p) ==>
              exists k :: 0 <= k < |p.rows| && p.rows[k] != [] && (forall j :: 0 <= j < k ==> p.rows[j] == [])
                          && Titled(p).title == Front(p.rows[k][0].zh)
  {
    if p.title == "" && HasPoints(p) {
      var k := FirstTextIs(p.rows);
    }
  }

  function Front(text: string): (front: string)
    ensures front <= text && |front| == if |text| <= 24 then |text| else 24
  {
    if |text| <= 24 then text else text[..24]
  }

  lemma {:induction false} FirstTextIs(rows: seq<seq<Point>>) returns (k: nat)
    requires exists k :: 0 <= k < |rows| && rows[k] != []
    ensures k < |rows| && rows[k] != [] && (forall j :: 0 <= j < k ==> rows[j] == []) && FirstText(rows) == rows[k][0].zh
  {
    if rows[0] != [] {
      k := 0;
    } else {
      var tail := rows[1..];
      var i :| 0 <= i < |rows| && rows[i] != [];
      assert tail[i - 1] == rows[i];
      k := FirstTextIs(tail);
      k := k + 1;
      assert forall j :: 1 <= j < k ==> rows[j] == tail[j - 1];
    }
  }

  function WithPoints(phases: seq<Phase>): nat -> bool {
    (i: nat) => i < |phases| && PhaseTexts(phases[i]) != multiset{}
  }

  /** The page has the phases with points, titled, from the last to the first. */
  ghost predicate IsPage(page: seq<Phase>, phases: seq<Phase>) {
    exists at :: Backwards(at, |phases|, WithPoints(phases)) && TitledAt(page, phases, at)
  }

  ghost predicate TitledAt(page: seq<Phase>, phases: seq<Phase>, at: seq<nat>) {
    |page| == |at| && forall a :: 0 <= a < |at| ==> at[a] < |phases| && page[a] == Titled(phases[at[a]])
  }

  lemma PageStep(page: seq<Phase>, most: seq<Phase>, phases: seq<Phase>, last: nat)
    requires IsPage(page, most) && |phases| == last + 1 && most == phases[..last]
    ensures IsPage((if HasPoints(phases[last]) then [Titled(phases[last])] else []) + page, phases)
  {
    var at :| Backwards(at, last, WithPoints(most)) && TitledAt(page, most, at);
    SameWithPoints(most, phases, last);
    TitledStep(page, most, phases, last, at);
    if HasPoints(phases[last]) {
      BackwardsTakes(at, last, |phases|, WithPoints(most), WithPoints(phases));
      PageIs([Titled(phases[last])] + page, phases, [last] + at);
    } else {
      BackwardsSkips(at, last, |phases|, WithPoints(most), WithPoints(phases));
      assert [] + page == page;
      PageIs(page, phases, at);
    }
  }

  lemma PageIs(page: seq<Phase>, phases: seq<Phase>, at: seq<nat>)
    requires Backwards(at, |phases|, WithPoints(phases)) && TitledAt(page, phases, at)
    ensures IsPage(page, phases)
  {
  }

  lemma SameWithPoints(most: seq<Phase>, phases: seq<Phase>, last: nat)
    requires |phases| == last + 1 && most == phases[..last]
    ensures forall i: nat :: i < last ==> WithPoints(phases)(i) == WithPoints(most)(i)
    ensures WithPoints(phases)(last) == HasPoints(phases[last])
  {
    NoPointsNoTexts(phases[last].rows, |phases[last].rows|);
  }

  lemma TitledStep(page: seq<Phase>, most: seq<Phase>, phases: seq<Phase>, last: nat, at: seq<nat>)
    requires TitledAt(page, most, at) && |phases| == last + 1 && most == phases[..last]
    ensures TitledAt(page, phases, at) && TitledAt([Titled(phases[last])] + page, phases, [last] + at)
  {
  }

  lemma {:induction false} ShownIsPage(phases: seq<Phase>)
    ensures IsPage(Shown(phases), phases)
  {
    if phases == [] {
      var none: seq<nat> := [];
      assert Backwards(none, 0, WithPoints([])) && TitledAt([], [], none);
    } else {
      var last := |phases| - 1;
      ShownIsPage(phases[..last]);
      PageStep(Shown(phases[..last]), phases[..last], phases, last);
    }
  }

  /** The page shows every approved text of the session once, whatever lines are torn. */
  lemma EveryPointIsShownOnce(lines: seq<Line>)
    ensures AllTexts(Shown(Phases(lines).phases)) == multiset(ApprovedIn(lines))
    ensures Shown(Phases(lines).phases) == Shown(Phases(Decoded(lines)).phases)
  {
    ShownKeepsTexts(Phases(lines).phases);
    EveryPointOnce(lines);
    TornLinesDoNotMatter(lines);
  }

  // ----- Building the page -----

  method AddRow(v: View, k: nat, items: seq<Item>) returns (v': View)
    requires Ready(v) && k < KIND_COUNT
    ensures Ready(v') && v' == AddItems(v, k, items)
  {
    v' := v;
    for i := 0 to |items|
      invariant Ready(v') && v' == AddItems(v, k, items[..i])
    {
      assert items[..i + 1][..i] == items[..i];
      var it := items[i];
      if it.approved && it.zh != "" && it.zh !in v'.seen {
        v' := View(Place(v'.phases, k, Point(it.zh, it.en)), v'.seen + {it.zh});
      }
    }
    assert items[..|items|] == items;
  }

  method AddLine(v: View, s: Snapshot) returns (v': View)
    requires v.phases == [] || Ready(v)
    ensures v' == Step(v, Some(s))
  {
    var phases, seen := v.phases, v.seen;
    if phases == [] || (s.title != "" && s.title != phases[|phases| - 1].title) {
      phases := phases + [Phase(s.title, s.updated, NO_ROWS)];
    }
    v' := View(phases, seen);
    for k := 0 to KIND_COUNT
      invariant Ready(v') && v' == AddKinds(Open(v, s), s, k)
    {
      v' := AddRow(v', k, ItemsAt(s, k));
    }
  }

  method Build(lines: seq<Line>) returns (page: seq<Phase>)
    ensures page == Shown(Phases(lines).phases)
  {
    var v := NOTHING;
    for i := 0 to |lines|
      invariant v == Phases(lines[..i])
    {
      assert lines[..i + 1][..i] == lines[..i];
      if lines[i].Some? {
        v := AddLine(v, lines[i].value);
      }
    }
    assert lines[..|lines|] == lines;
    page := [];
    for i := 0 to |v.phases|
      invariant page == Shown(v.phases[..i])
    {
      assert v.phases[..i + 1][..i] == v.phases[..i];
      if HasPoints(v.phases[i]) {
        page := [Titled(v.phases[i])] + page;
      }
    }
    assert v.phases[..|v.phases|] == v.phases;
  }
}
