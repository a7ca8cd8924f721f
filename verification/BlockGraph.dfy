/** The control model's object graph as a value: blocks list the object identifiers of their members and
    a resolver maps identifiers to objects. What the member searches of a block mean, and when. */
module BlockGraph {
  import opened Text

  datatype Descriptor = Descriptor(role: string, oid: int, constantOid: bool, classId: seq<int>,
                                   userLabel: string, owner: Option<int>)

  /** The device command that a worker's setter sends: for one channel, or for the whole device. */
  datatype Setter = Setter(channel: Option<int>, param: string)

  /** A registered object: a block with its member list, or anything else with its setter, if any. */
  datatype Node = Branch(desc: Descriptor, items: seq<int>) | Leaf(desc: Descriptor, setter: Option<Setter>)

  type Graph = map<int, Node>

  /** Every identifier listed is registered. */
  predicate Known(g: Graph, oids: seq<int>) {
    forall k :: 0 <= k < |oids| ==> oids[k] in g
  }

  // ---------------------------------------------------------------- paths

  /** A path of identifiers starting with a member of `items`, each next one a member of the block before. */
  predicate Path(g: Graph, items: seq<int>, p: seq<int>)
    decreases |p|
  {
    && p != [] && p[0] in items && p[0] in g
    && (|p| > 1 ==> g[p[0]].Branch? && Path(g, g[p[0]].items, p[1..]))
  }

  /** No path out of a block's members leads back to the block. */
  ghost predicate Acyclic(g: Graph) {
    forall o, p :: o in g && g[o].Branch? && Path(g, g[o].items, p) ==> p[|p| - 1] != o
  }

  ghost predicate Reaches(g: Graph, items: seq<int>, x: int) {
    exists p :: Path(g, items, p) && p[|p| - 1] == x
  }

  /** The registered objects some path from `items` ends in. */
  ghost function Below(g: Graph, items: seq<int>): set<int> {
    set x | x in g && Reaches(g, items, x)
  }

  lemma ConsPath(g: Graph, items: seq<int>, i: int, p: seq<int>)
    requires i in items && i in g && g[i].Branch? && Path(g, g[i].items, p)
    ensures Path(g, items, [i] + p) && ([i] + p)[|p|] == p[|p| - 1]
  {
    assert ([i] + p)[1..] == p;
  }

  /** Everything on a path is registered. */
  lemma {:induction false} PathRegistered(g: Graph, items: seq<int>, p: seq<int>)
    requires Path(g, items, p)
    ensures forall k :: 0 <= k < |p| ==> p[k] in g
    decreases |p|
  {
    if |p| > 1 {
      PathRegistered(g, g[p[0]].items, p[1..]);
      assert forall k :: 1 <= k < |p| ==> p[k] == p[1..][k - 1];
    }
  }

  lemma SnocPath(g: Graph, items: seq<int>, p: seq<int>, i: int)
    requires Path(g, items, p) && p[|p| - 1] in g && g[p[|p| - 1]].Branch?
    requires i in g[p[|p| - 1]].items && i in g
    ensures Path(g, items, p + [i])
    decreases |p|
  {
    if |p| > 1 {
      assert (p + [i])[1..] == p[1..] + [i];
      SnocPath(g, g[p[0]].items, p[1..], i);
    } else {
      assert (p + [i])[1..] == [i];
    }
  }

  /** In an acyclic graph a member block reaches strictly less than the list it is in. */
  lemma BelowShrinks(g: Graph, items: seq<int>, i: int)
    requires Acyclic(g) && i in items && i in g && g[i].Branch?
    ensures i in Below(g, items) && Below(g, g[i].items) <= Below(g, items) - {i}
    ensures |Below(g, g[i].items)| < |Below(g, items)|
  {
    assert Path(g, items, [i]);
    var inner, outer := Below(g, g[i].items), Below(g, items);
    forall x | x in inner
      ensures x in outer && x != i
    {
      var p :| Path(g, g[i].items, p) && p[|p| - 1] == x;
      ConsPath(g, items, i, p);
    }
    SmallerSet(inner, outer - {i});
  }

  lemma SmallerSet(a: set<int>, b: set<int>)
    requires a <= b
    ensures |a| <= |b|
  {
    assert b == a + (b - a);
  }

  lemma BelowMonotone(g: Graph, xs: seq<int>, ys: seq<int>)
    requires forall x :: x in xs ==> x in ys
    ensures Below(g, xs) <= Below(g, ys) && |Below(g, xs)| <= |Below(g, ys)|
  {
    forall x | x in Below(g, xs)
      ensures x in Below(g, ys)
    {
      var p :| Path(g, xs, p) && p[|p| - 1] == x;
      var h := p[0];
      assert h in xs;
      assert h in ys;
      assert Path(g, ys, p);
    }
    SmallerSet(Below(g, xs), Below(g, ys));
  }

  // ---------------------------------------------------------------- the traversal

  /** The members below a list in preorder: a member, all that is below it, then its later siblings. */
  function Preorder(g: Graph, items: seq<int>): (r: seq<int>)
    requires Acyclic(g)
    ensures Known(g, r)
    decreases |Below(g, items)|, |items|
  {
    if items == [] then []
    else
      BelowMonotone(g, items[1..], items);
      var later := Preorder(g, items[1..]);
      if items[0] !in g then later
      else Visit(g, items, items[0]) + later
  }

  /** A member and all that is below it. */
  function Visit(g: Graph, items: seq<int>, i: int): (r: seq<int>)
    requires Acyclic(g) && i in items && i in g
    ensures Known(g, r)
    decreases |Below(g, items)|, 0
  {
    if g[i].Branch? then
      BelowShrinks(g, items, i);
      [i] + Preorder(g, g[i].items)
    else [i]
  }

  /** The direct members that resolve. */
  function Resolved(g: Graph, items: seq<int>): (r: seq<int>)
    ensures Known(g, r)
  {
    if items == [] then []
    else (if items[0] in g then [items[0]] else []) + Resolved(g, items[1..])
  }

  // ---------------------------------------------------------------- the searches

  datatype Query =
    | Everything
    | ByRole(role: string, caseSensitive: bool, wholeString: bool)
    | ByClass(classId: seq<int>, includeDerived: bool)
  {
    predicate Matches(d: Descriptor) {
      match this
      case Everything => true
      case ByRole(role, caseSensitive, wholeString) =>
        if wholeString then if caseSensitive then d.role == role else EqualFold(d.role, role)
        else if caseSensitive then Index(d.role, role) >= 0
        else Index(ToLower(d.role), ToLower(role)) >= 0
      case ByClass(classId, includeDerived) =>
        classId <= d.classId && (includeDerived || |classId| == |d.classId|)
    }
  }

  /** A descriptor, if it matches. */
  function IfMatching(d: Descriptor, q: Query): seq<Descriptor> {
    if q.Matches(d) then [d] else []
  }

  /** The matching descriptors among the objects listed, order kept. */
  function Select(g: Graph, oids: seq<int>, q: Query): seq<Descriptor>
    requires Known(g, oids)
  {
    if oids == [] then [] else IfMatching(g[oids[0]].desc, q) + Select(g, oids[1..], q)
  }

  lemma SelectCons(g: Graph, i: int, oids: seq<int>, q: Query)
    requires i in g && Known(g, oids)
    ensures Known(g, [i] + oids) && Select(g, [i] + oids, q) == IfMatching(g[i].desc, q) + Select(g, oids, q)
  {
    hide IfMatching;
    assert ([i] + oids)[1..] == oids;
  }

  lemma {:induction false} SelectOfSum(g: Graph, a: seq<int>, b: seq<int>, q: Query)
    requires Known(g, a) && Known(g, b)
    ensures Known(g, a + b)
    ensures Select(g, a + b, q) == Select(g, a, q) + Select(g, b, q)
  {
    hide IfMatching;
    if a == [] {
      assert a + b == b;
    } else {
      hide Select;
      var i, rest := a[0], a[1..];
      SelectOfSum(g, rest, b, q);
      assert a == [i] + rest && a + b == [i] + (rest + b);
      SelectCons(g, i, rest, q);
      SelectCons(g, i, rest + b, q);
    }
  }

  /** All searches of a block: the preorder, or the direct members, filtered. */
  function FindMembers(g: Graph, items: seq<int>, q: Query, recurse: bool): seq<Descriptor>
    requires Acyclic(g)
  {
    Select(g, if recurse then Preorder(g, items) else Resolved(g, items), q)
  }

  /** What one member adds to a search. */
  function FindAt(g: Graph, i: int, q: Query, recurse: bool): seq<Descriptor>
    requires Acyclic(g)
  {
    if i !in g then []
    else IfMatching(g[i].desc, q)
         + (if recurse && g[i].Branch? then FindMembers(g, g[i].items, q, true) else [])
  }

  lemma FindStep(g: Graph, items: seq<int>, q: Query, recurse: bool)
    requires Acyclic(g) && items != []
    ensures FindMembers(g, items, q, recurse)
         == FindAt(g, items[0], q, recurse) + FindMembers(g, items[1..], q, recurse)
  {
    hide IfMatching, Select, Preorder, Resolved;
    var i, rest := items[0], items[1..];
    PreorderStep(g, items);
    assert [] + Preorder(g, rest) == Preorder(g, rest) && [] + Resolved(g, rest) == Resolved(g, rest);
    if i in g {
      if recurse {
        var below := if g[i].Branch? then Preorder(g, g[i].items) else [];
        SelectNothing(g, q);
        SelectCons(g, i, below, q);
        SelectOfSum(g, [i] + below, Preorder(g, rest), q);
      } else {
        SelectCons(g, i, Resolved(g, rest), q);
      }
    }
  }

  lemma SelectNothing(g: Graph, q: Query)
    ensures Select(g, [], q) == []
  {
  }

  lemma PreorderStep(g: Graph, items: seq<int>)
    requires Acyclic(g) && items != []
    ensures var i, rest := items[0], items[1..];
            Preorder(g, items) ==
              (if i !in g then [] else [i] + (if g[i].Branch? then Preorder(g, g[i].items) else [])) + Preorder(g, rest)
    ensures Resolved(g, items) == (if items[0] in g then [items[0]] else []) + Resolved(g, items[1..])
  {
  }

  // ---------------------------------------------------------------- the traversal, independently

  /** A path by position: the place in the member list at each level. */
  predicate Places(g: Graph, items: seq<int>, q: seq<int>)
    decreases |q|
  {
    && q != [] && 0 <= q[0] < |items| && items[q[0]] in g
    && (|q| > 1 ==> g[items[q[0]]].Branch? && Places(g, g[items[q[0]]].items, q[1..]))
  }

  /** The object a path by position ends in. */
  function Target(g: Graph, items: seq<int>, q: seq<int>): int
    requires Places(g, items, q)
    decreases |q|
  {
    if |q| == 1 then items[q[0]] else Target(g, g[items[q[0]]].items, q[1..])
  }

  /** Lexicographic order; a path comes before what extends it. */
  predicate Before(a: seq<int>, b: seq<int>) {
    if a == [] then b != []
    else b != [] && (a[0] < b[0] || (a[0] == b[0] && Before(a[1..], b[1..])))
  }

  /** Where two paths part: up to there they agree, and there the first ends, or takes the earlier place. */
  predicate PartsAt(a: seq<int>, b: seq<int>, p: int) {
    && 0 <= p <= |a| && p <= |b| && a[..p] == b[..p]
    && ((p == |a| && p < |b|) || (p < |a| && p < |b| && a[p] < b[p]))
  }

  ghost predicate Precedes(a: seq<int>, b: seq<int>) {
    exists p :: PartsAt(a, b, p)
  }

  /** That order, without recursion. */
  lemma {:induction false} BeforeIff(a: seq<int>, b: seq<int>)
    ensures Before(a, b) <==> Precedes(a, b)
  {
    if a == [] {
      assert b != [] ==> PartsAt(a, b, 0);
    } else if b != [] {
      BeforeIff(a[1..], b[1..]);
      if Before(a, b) {
        if a[0] == b[0] {
          var p :| PartsAt(a[1..], b[1..], p);
          PartsLater(a, b, p + 1);
        } else {
          assert PartsAt(a, b, 0);
        }
      }
      if p :| PartsAt(a, b, p) && p > 0 {
        assert a[0] == a[..p][0] && b[0] == b[..p][0];
        PartsLater(a, b, p);
      }
    }
  }

  lemma PartsLater(a: seq<int>, b: seq<int>, p: int)
    requires a != [] && b != [] && a[0] == b[0] && p > 0
    ensures PartsAt(a, b, p) <==> PartsAt(a[1..], b[1..], p - 1)
  {
    if p <= |a| && p <= |b| {
      assert a[..p] == [a[0]] + a[1..][..p - 1] && b[..p] == [b[0]] + b[1..][..p - 1];
      assert a[..p][1..] == a[1..][..p - 1] && b[..p][1..] == b[1..][..p - 1];
    }
  }

  /** All paths by position out of the members from place `k` on, parents first, places in order. */
  function Tour(g: Graph, items: seq<int>, k: nat): seq<seq<int>>
    requires Acyclic(g) && k <= |items|
    decreases |Below(g, items)|, |items| - k
  {
    if k == |items| then []
    else if items[k] !in g then Tour(g, items, k + 1)
    else [[k]] + Under(k, TourBelow(g, items, k)) + Tour(g, items, k + 1)
  }

  function TourBelow(g: Graph, items: seq<int>, k: nat): seq<seq<int>>
    requires Acyclic(g) && k < |items| && items[k] in g
    decreases |Below(g, items)|, 0
  {
    if g[items[k]].Branch? then
      BelowShrinks(g, items, items[k]);
      Tour(g, g[items[k]].items, 0)
    else []
  }

  function Under(k: nat, paths: seq<seq<int>>): seq<seq<int>> {
    seq(|paths|, j requires 0 <= j < |paths| => [k] + paths[j])
  }

  /** The tour lists exactly the paths by position, in strictly increasing lexicographic order. */
  lemma {:induction false} TourExact(g: Graph, items: seq<int>, k: nat)
    requires Acyclic(g) && k <= |items|
    ensures forall q :: q in Tour(g, items, k) <==> Places(g, items, q) && q[0] >= k
    ensures forall i, j :: 0 <= i < j < |Tour(g, items, k)| ==> Before(Tour(g, items, k)[i], Tour(g, items, k)[j])
    decreases |Below(g, items)|, |items| - k
  {
    if k < |items| {
      TourExact(g, items, k + 1);
      if items[k] in g {
        if g[items[k]].Branch? {
          BelowShrinks(g, items, items[k]);
          TourExact(g, g[items[k]].items, 0);
        }
        TourHere(g, items, k, TourBelow(g, items, k), Tour(g, items, k + 1));
      }
    }
  }

  lemma TourHere(g: Graph, items: seq<int>, k: nat, below: seq<seq<int>>, later: seq<seq<int>>)
    requires k < |items| && items[k] in g
    requires forall q :: q in below <==> g[items[k]].Branch? && Places(g, g[items[k]].items, q)
    requires forall i, j :: 0 <= i < j < |below| ==> Before(below[i], below[j])
    requires forall q :: q in later <==> Places(g, items, q) && q[0] >= k + 1
    requires forall i, j :: 0 <= i < j < |later| ==> Before(later[i], later[j])
    ensures var tour := [[k]] + Under(k, below) + later;
            (forall q :: q in tour <==> Places(g, items, q) && q[0] >= k) &&
            (forall i, j :: 0 <= i < j < |tour| ==> Before(tour[i], tour[j]))
  {
    var here := [[k]] + Under(k, below);
    var tour := here + later;
    forall q: seq<int>
      ensures q in tour <==> Places(g, items, q) && q[0] >= k
    {
      InTour(g, items, k, below, later, q);
    }
    forall i, j | 0 <= i < j < |tour|
      ensures Before(tour[i], tour[j])
    {
      if j < |here| {
        HereSorted(k, below, i, j);
        assert tour[i] == here[i] && tour[j] == here[j];
      } else if i < |here| {
        assert tour[j] == later[j - |here|];
        assert later[j - |here|] in later;
        assert tour[i] == here[i] && here[i][0] == k;
      } else {
        assert tour[i] == later[i - |here|] && tour[j] == later[j - |here|];
      }
    }
  }

  lemma InTour(g: Graph, items: seq<int>, k: nat, below: seq<seq<int>>, later: seq<seq<int>>, q: seq<int>)
    requires k < |items| && items[k] in g
    requires forall q :: q in below <==> g[items[k]].Branch? && Places(g, g[items[k]].items, q)
    requires q in later <==> Places(g, items, q) && q[0] >= k + 1
    ensures q in [[k]] + Under(k, below) + later <==> Places(g, items, q) && q[0] >= k
  {
    HereExact(g, items, k, below, q);
    InSum([[k]] + Under(k, below), later, q);
  }

  lemma InSum(a: seq<seq<int>>, b: seq<seq<int>>, q: seq<int>)
    ensures q in a + b <==> q in a || q in b
  {
  }

  lemma HereExact(g: Graph, items: seq<int>, k: nat, below: seq<seq<int>>, q: seq<int>)
    requires k < |items| && items[k] in g
    requires forall q :: q in below <==> g[items[k]].Branch? && Places(g, g[items[k]].items, q)
    ensures q in [[k]] + Under(k, below) <==> Places(g, items, q) && q[0] == k
  {
    var under := Under(k, below);
    if q in under {
      var j :| 0 <= j < |under| && under[j] == q;
      assert q[1..] == below[j];
      assert below[j] in below;
    }
    if Places(g, items, q) && q[0] == k {
      if |q| == 1 {
        assert q == [k];
      } else {
        assert q[1..] in below;
        var j :| 0 <= j < |below| && below[j] == q[1..];
        assert under[j] == q;
      }
    }
  }

  lemma HereSorted(k: nat, below: seq<seq<int>>, i: nat, j: nat)
    requires i < j < 1 + |below|
    requires forall i, j :: 0 <= i < j < |below| ==> Before(below[i], below[j])
    requires forall q :: q in below ==> q != []
    ensures Before(([[k]] + Under(k, below))[i], ([[k]] + Under(k, below))[j])
  {
    var here := [[k]] + Under(k, below);
    assert here[j] == [k] + below[j - 1] && here[j][1..] == below[j - 1];
    if i == 0 {
      assert below[j - 1] in below;
      assert here[0][1..] == [];
    } else {
      assert here[i] == [k] + below[i - 1] && here[i][1..] == below[i - 1];
    }
  }

  /** The objects the tour visits are the preorder. */
  lemma {:induction false} TourTargets(g: Graph, items: seq<int>, k: nat)
    requires Acyclic(g) && k <= |items|
    ensures |Tour(g, items, k)| == |Preorder(g, items[k..])|
    ensures forall j :: 0 <= j < |Tour(g, items, k)| ==>
              Places(g, items, Tour(g, items, k)[j]) &&
              Target(g, items, Tour(g, items, k)[j]) == Preorder(g, items[k..])[j]
    decreases |Below(g, items)|, |items| - k
  {
    if k < |items| {
      TourTargets(g, items, k + 1);
      assert items[k..][1..] == items[k + 1..] && items[k..][0] == items[k];
      if items[k] in g {
        if g[items[k]].Branch? {
          BelowShrinks(g, items, items[k]);
          TourTargets(g, g[items[k]].items, 0);
          assert g[items[k]].items[0..] == g[items[k]].items;
        }
        TargetsHere(g, items, k, TourBelow(g, items, k), Tour(g, items, k + 1),
                    if g[items[k]].Branch? then Preorder(g, g[items[k]].items) else [], Preorder(g, items[k + 1..]));
      }
    }
  }

  lemma TargetsHere(g: Graph, items: seq<int>, k: nat, below: seq<seq<int>>, later: seq<seq<int>>,
                    oidsBelow: seq<int>, oidsLater: seq<int>)
    requires k < |items| && items[k] in g && |below| == |oidsBelow| && |later| == |oidsLater|
    requires below != [] ==> g[items[k]].Branch?
    requires forall j :: 0 <= j < |below| ==>
               Places(g, g[items[k]].items, below[j]) && Target(g, g[items[k]].items, below[j]) == oidsBelow[j]
    requires forall j :: 0 <= j < |later| ==> Places(g, items, later[j]) && Target(g, items, later[j]) == oidsLater[j]
    ensures var tour, oids := [[k]] + Under(k, below) + later, [items[k]] + oidsBelow + oidsLater;
            forall j :: 0 <= j < |tour| ==> Places(g, items, tour[j]) && Target(g, items, tour[j]) == oids[j]
  {
    var tour, oids := [[k]] + Under(k, below) + later, [items[k]] + oidsBelow + oidsLater;
    forall j | 0 <= j < |tour|
      ensures Places(g, items, tour[j]) && Target(g, items, tour[j]) == oids[j]
    {
      if 0 < j <= |below| {
        assert tour[j] == [k] + below[j - 1] && tour[j][1..] == below[j - 1];
      } else if j > |below| {
        assert tour[j] == later[j - 1 - |below|];
      }
    }
  }

  /** Recursive member listing, described without recursion: the objects at the ends of all paths by
      position, each path once, in lexicographic order. */
  lemma PreorderIsLexicographic(g: Graph, items: seq<int>) returns (tour: seq<seq<int>>)
    requires Acyclic(g)
    ensures forall q :: q in tour <==> Places(g, items, q)
    ensures forall i, j :: 0 <= i < j < |tour| ==> Before(tour[i], tour[j])
    ensures |Preorder(g, items)| == |tour|
    ensures forall j :: 0 <= j < |tour| ==> tour[j] in tour && Target(g, items, tour[j]) == Preorder(g, items)[j]
  {
    tour := Tour(g, items, 0);
    TourExact(g, items, 0);
    TourTargets(g, items, 0);
    assert items[0..] == items;
  }
}
