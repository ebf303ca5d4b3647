/**
  Levenshtein distance as scored by the transcript metrics (stress/metrics.py, _lev).

  The meaning of the number is given by edit scripts: a script inserts, deletes or pairs up
  elements, and pairing two different elements costs one like the other two edits. The
  rolling-row loop is proved to return the cost of a cheapest script, and that number is
  proved to be a metric.
 */
module EditDistance {
  import opened Common

  // ----- Edit scripts -----

  datatype Edit<T> = Insert(y: T) | Delete(x: T) | Pair(x: T, y: T)

  type Script<T> = seq<Edit<T>>

  function Mismatch<T(==)>(x: T, y: T): nat {
    if x != y then 1 else 0
  }

  /** What the script consumes, in order. */
  function Source<T>(s: Script<T>): seq<T> {
    if s == [] then []
    else
      Source(s[..|s| - 1]) + match s[|s| - 1]
                             case Insert(_) => []
                             case Delete(x) => [x]
                             case Pair(x, _) => [x]
  }

  /** What the script produces, in order. */
  function Target<T>(s: Script<T>): seq<T> {
    if s == [] then []
    else
      Target(s[..|s| - 1]) + match s[|s| - 1]
                             case Insert(y) => [y]
                             case Delete(_) => []
                             case Pair(_, y) => [y]
  }

  function Cost<T(==)>(s: Script<T>): nat {
    if s == [] then 0
    else
      Cost(s[..|s| - 1]) + match s[|s| - 1]
                           case Insert(_) => 1
                           case Delete(_) => 1
                           case Pair(x, y) => Mismatch(x, y)
  }

  ghost predicate Turns<T>(s: Script<T>, a: seq<T>, b: seq<T>) {
    Source(s) == a && Target(s) == b
  }

  /** `d` is the least cost of any script that turns `a` into `b`. */
  ghost predicate IsDistance<T(!new)>(a: seq<T>, b: seq<T>, d: nat) {
    && (exists s: Script<T> :: Turns(s, a, b) && Cost(s) == d)
    && (forall s: Script<T> :: Turns(s, a, b) ==> d <= Cost(s))
  }

  /** Appending one edit adds exactly that edit's source, target and cost. */
  lemma AppendEdit<T>(s: Script<T>, e: Edit<T>)
    ensures Source(s + [e]) == Source(s) + (if e.Insert? then [] else [e.x])
    ensures Target(s + [e]) == Target(s) + (if e.Delete? then [] else [e.y])
    ensures Cost(s + [e]) == Cost(s) + (if e.Pair? then Mismatch(e.x, e.y) else 1)
  {
    assert (s + [e])[..|s|] == s;
  }

  lemma Extend<T>(s: Script<T>, e: Edit<T>, a: seq<T>, b: seq<T>) returns (r: Script<T>)
    requires a == Source(s) + if e.Insert? then [] else [e.x]
    requires b == Target(s) + if e.Delete? then [] else [e.y]
    ensures Turns(r, a, b) && Cost(r) == Cost(s) + if e.Pair? then Mismatch(e.x, e.y) else 1
  {
    AppendEdit(s, e);
    r := s + [e];
  }

  // ----- The recurrence -----

  function Distance<T(==)>(a: seq<T>, b: seq<T>): nat
    decreases |a| + |b|
  {
    if a == [] then |b|
    else if b == [] then |a|
    else
      var a', b' := a[..|a| - 1], b[..|b| - 1];
      Min(Min(Distance(a', b) + 1, Distance(a, b') + 1), Distance(a', b') + Mismatch(a[|a| - 1], b[|b| - 1]))
  }

  /** No script is cheaper than the recurrence. */
  lemma {:induction false} DistanceIsLowerBound<T>(s: Script<T>)
    ensures Distance(Source(s), Target(s)) <= Cost(s)
  {
    if s != [] {
      var s', e := s[..|s| - 1], s[|s| - 1];
      DistanceIsLowerBound(s');
      var a, b := Source(s), Target(s);
      if e.Insert? {
        assert a == Source(s') && b[..|b| - 1] == Target(s');
      } else if e.Delete? {
        assert b == Target(s') && a[..|a| - 1] == Source(s');
      } else {
        assert a[..|a| - 1] == Source(s') && b[..|b| - 1] == Target(s');
      }
    }
  }

  /** The recurrence is the cost of some script. */
  lemma {:induction false} CheapestScript<T>(a: seq<T>, b: seq<T>) returns (s: Script<T>)
    ensures Turns(s, a, b) && Cost(s) == Distance(a, b)
    decreases |a| + |b|
  {
    if a == [] && b == [] {
      s := [];
    } else if a == [] || (b != [] && Distance(a, b) == Distance(a, b[..|b| - 1]) + 1) {
      s := CheapestScript(a, b[..|b| - 1]);
      s := Extend(s, Insert(b[|b| - 1]), a, b);
    } else if b == [] || Distance(a, b) == Distance(a[..|a| - 1], b) + 1 {
      s := CheapestScript(a[..|a| - 1], b);
      s := Extend(s, Delete(a[|a| - 1]), a, b);
    } else {
      s := CheapestScript(a[..|a| - 1], b[..|b| - 1]);
      s := Extend(s, Pair(a[|a| - 1], b[|b| - 1]), a, b);
    }
  }

  /** The recurrence is the minimum over all scripts, for every pair of sequences. */
  lemma DistanceIsMinimum<T(!new)>(a: seq<T>, b: seq<T>)
    ensures IsDistance(a, b, Distance(a, b))
  {
    var s := CheapestScript(a, b);
    forall s: Script<T> | Turns(s, a, b)
      ensures Distance(a, b) <= Cost(s)
    {
      DistanceIsLowerBound(s);
    }
  }

  lemma DistanceIsUnique<T(!new)>(a: seq<T>, b: seq<T>, d: nat)
    ensures IsDistance(a, b, d) <==> d == Distance(a, b)
  {
    DistanceIsMinimum(a, b);
  }

  // ----- The rolling-row loop -----

  /** The recurrence by positions, as the table of the algorithm has it. */
  ghost function Table<T>(a: seq<T>, b: seq<T>, i: nat, j: nat): nat
    requires i <= |a| && j <= |b|
  {
    if i == 0 then j
    else if j == 0 then i
    else
      Min(Min(Table(a, b, i - 1, j) + 1, Table(a, b, i, j - 1) + 1), Table(a, b, i - 1, j - 1) + Mismatch(a[i - 1], b[j - 1]))
  }

  /** An entry depends only on the two prefixes. */
  lemma {:induction false} TableOfPrefix<T>(a: seq<T>, b: seq<T>, c: seq<T>, d: seq<T>, i: nat, j: nat)
    requires i <= |a| && i <= |c| && forall k :: 0 <= k < i ==> a[k] == c[k]
    requires j <= |b| && j <= |d| && forall k :: 0 <= k < j ==> b[k] == d[k]
    ensures Table(a, b, i, j) == Table(c, d, i, j)
  {
    if i > 0 && j > 0 {
      TableOfPrefix(a, b, c, d, i - 1, j);
      TableOfPrefix(a, b, c, d, i, j - 1);
      TableOfPrefix(a, b, c, d, i - 1, j - 1);
    }
  }

  lemma {:induction false} LastEntry<T>(a: seq<T>, b: seq<T>)
    ensures Table(a, b, |a|, |b|) == Distance(a, b)
    decreases |a| + |b|, 0
  {
    if a != [] && b != [] {
      assert a[..|a|] == a && b[..|b|] == b;
      TableIsDistance(a, b, |a| - 1, |b|);
      TableIsDistance(a, b, |a|, |b| - 1);
      TableIsDistance(a, b, |a| - 1, |b| - 1);
    }
  }

  /** Each entry is the distance of two prefixes. */
  lemma {:induction false} TableIsDistance<T>(a: seq<T>, b: seq<T>, i: nat, j: nat)
    requires i <= |a| && j <= |b|
    ensures Table(a, b, i, j) == Distance(a[..i], b[..j])
    decreases i + j, 1
  {
    TableOfPrefix(a, b, a[..i], b[..j], i, j);
    LastEntry(a[..i], b[..j]);
  }

  /** The beginning of row `i` of the table. */
  ghost predicate IsRow<T>(row: seq<nat>, a: seq<T>, b: seq<T>, i: nat)
    requires i <= |a| && |row| <= |b| + 1
  {
    forall j :: 0 <= j < |row| ==> row[j] == Table(a, b, i, j)
  }

  method Lev<T(==,!new)>(a: seq<T>, b: seq<T>) returns (d: nat)
    ensures IsDistance(a, b, d)
  {
    DistanceIsMinimum(a, b);
    if a == [] {
      return |b|;
    }
    var prev: seq<nat> := seq(|b| + 1, j => j);
    for i := 0 to |a|
      invariant |prev| == |b| + 1 && IsRow(prev, a, b, i)
    {
      var cur: seq<nat> := [i + 1];
      for j := 0 to |b|
        invariant |cur| == j + 1 && IsRow(cur, a, b, i + 1)
      {
        cur := cur + [Min(Min(prev[j + 1] + 1, cur[j] + 1), prev[j] + (if a[i] != b[j] then 1 else 0))];
      }
      prev := cur;
    }
    LastEntry(a, b);
    return prev[|prev| - 1];
  }

  // ----- It is a metric -----

  /** A script read backwards: what it produced is consumed and the other way round. */
  function Flip<T>(s: Script<T>): Script<T> {
    seq(|s|, i requires 0 <= i < |s| => match s[i]
                                        case Insert(y) => Delete(y)
                                        case Delete(x) => Insert(x)
                                        case Pair(x, y) => Pair(y, x))
  }

  lemma {:induction false} FlipSwaps<T>(s: Script<T>)
    ensures Source(Flip(s)) == Target(s) && Target(Flip(s)) == Source(s) && Cost(Flip(s)) == Cost(s)
  {
    if s != [] {
      FlipSwaps(s[..|s| - 1]);
      assert Flip(s)[..|s| - 1] == Flip(s[..|s| - 1]);
    }
  }

  lemma Symmetry<T>(a: seq<T>, b: seq<T>)
    ensures Distance(a, b) == Distance(b, a)
  {
    var ab := CheapestScript(a, b);
    var ba := CheapestScript(b, a);
    FlipSwaps(ab);
    FlipSwaps(ba);
    DistanceIsLowerBound(Flip(ab));
    DistanceIsLowerBound(Flip(ba));
  }

  /** Two scripts that meet in the middle run one after the other as a single script. */
  lemma {:induction false} Compose<T>(p: Script<T>, q: Script<T>) returns (r: Script<T>)
    requires Target(p) == Source(q)
    ensures Source(r) == Source(p) && Target(r) == Target(q)
    ensures Cost(r) <= Cost(p) + Cost(q)
    decreases |p| + |q|
  {
    if p == [] && q == [] {
      r := [];
    } else if p != [] && p[|p| - 1].Delete? {
      r := Compose(p[..|p| - 1], q);
      AppendEdit(r, p[|p| - 1]);
      r := r + [p[|p| - 1]];
    } else if q != [] && q[|q| - 1].Insert? {
      r := Compose(p, q[..|q| - 1]);
      AppendEdit(r, q[|q| - 1]);
      r := r + [q[|q| - 1]];
    } else {
      var m := Target(p);
      assert m != [];
      var p', q', e, f := p[..|p| - 1], q[..|q| - 1], p[|p| - 1], q[|q| - 1];
      assert e.y == m[|m| - 1] == f.x;
      assert Target(p') == m[..|m| - 1] == Source(q');
      r := Compose(p', q');
      if e.Pair? || f.Pair? {
        var g := if !f.Pair? then Delete(e.x) else if !e.Pair? then Insert(f.y) else Pair(e.x, f.y);
        AppendEdit(r, g);
        r := r + [g];
      }
    }
  }

  lemma Triangle<T>(a: seq<T>, b: seq<T>, c: seq<T>)
    ensures Distance(a, c) <= Distance(a, b) + Distance(b, c)
  {
    var p := CheapestScript(a, b);
    var q := CheapestScript(b, c);
    var r := Compose(p, q);
    DistanceIsLowerBound(r);
  }

  lemma {:induction false} FreeScriptsChangeNothing<T>(s: Script<T>)
    ensures Cost(s) == 0 ==> Source(s) == Target(s)
    ensures |Source(s)| <= |Target(s)| + Cost(s)
    ensures |Target(s)| <= |Source(s)| + Cost(s)
  {
    if s != [] {
      FreeScriptsChangeNothing(s[..|s| - 1]);
    }
  }

  /** Pair up as far as both go, then insert or delete the rest. */
  lemma {:induction false} PairThenPad<T>(a: seq<T>, b: seq<T>)
    ensures Distance(a, b) <= if |a| < |b| then |b| else |a|
    ensures a == b ==> Distance(a, b) == 0
    decreases |a|
  {
    if a != [] && b != [] {
      PairThenPad(a[..|a| - 1], b[..|b| - 1]);
    }
  }

  /** Zero exactly on equal sequences, symmetric, triangular, and bounded by the two lengths. */
  lemma DistanceIsAMetric<T>(a: seq<T>, b: seq<T>, c: seq<T>)
    ensures Distance(a, b) == 0 <==> a == b
    ensures Distance(a, b) == Distance(b, a)
    ensures Distance(a, c) <= Distance(a, b) + Distance(b, c)
    ensures |a| - |b| <= Distance(a, b) && |b| - |a| <= Distance(a, b)
    ensures Distance(a, b) <= if |a| < |b| then |b| else |a|
  {
    Symmetry(a, b);
    Triangle(a, b, c);
    PairThenPad(a, b);
    var s := CheapestScript(a, b);
    FreeScriptsChangeNothing(s);
  }
}
