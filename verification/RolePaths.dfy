/** Looking members up by role path, and when that inverts the paths. */
module RolePaths {
  import opened Text
  import opened BlockGraph

  /** The first member of a list that resolves to an object with this role. */
  function FirstWithRole(g: Graph, items: seq<int>, role: string): (r: Option<int>)
    ensures r.Some? ==> r.value in items && r.value in g && g[r.value].desc.role == role
    ensures r.None? ==> forall i :: i in items && i in g ==> g[i].desc.role != role
  {
    if items == [] then None
    else if items[0] in g && g[items[0]].desc.role == role then Some(items[0])
    else FirstWithRole(g, items[1..], role)
  }

  /** What a lookup by role path gives: the first member with the first role decides, without backtracking. */
  function Lookup(g: Graph, items: seq<int>, path: seq<string>): seq<Descriptor>
    decreases |path|
  {
    if path == [] then []
    else
      var found := FirstWithRole(g, items, path[0]);
      if found.None? then []
      else if |path| == 1 then [g[found.value].desc]
      else if g[found.value].Branch? then Lookup(g, g[found.value].items, path[1..])
      else []
  }

  /** The roles along a path of identifiers. */
  function Roles(g: Graph, p: seq<int>): seq<string>
    requires Known(g, p)
  {
    seq(|p|, k requires 0 <= k < |p| => g[p[k]].desc.role)
  }

  /** A path whose roles are these. */
  ghost predicate Spells(g: Graph, items: seq<int>, p: seq<int>, path: seq<string>) {
    Path(g, items, p) && Known(g, p) && Roles(g, p) == path
  }

  lemma SpellsCons(g: Graph, items: seq<int>, i: int, p: seq<int>, path: seq<string>)
    requires i in items && i in g && g[i].Branch? && Spells(g, g[i].items, p, path)
    ensures Spells(g, items, [i] + p, [g[i].desc.role] + path) && ([i] + p)[|p|] == p[|p| - 1]
  {
    ConsPath(g, items, i, p);
    PathRegistered(g, items, [i] + p);
    assert Roles(g, [i] + p) == [g[i].desc.role] + Roles(g, p);
  }

  /** A lookup that finds something finds one object, at the end of a path with those roles. */
  lemma {:induction false} LookupSound(g: Graph, items: seq<int>, path: seq<string>) returns (p: seq<int>)
    requires Lookup(g, items, path) != []
    ensures Spells(g, items, p, path) && Lookup(g, items, path) == [g[p[|p| - 1]].desc]
    decreases |path|
  {
    var i := FirstWithRole(g, items, path[0]).value;
    if |path| == 1 {
      p := [i];
      assert Path(g, items, p) && Roles(g, p) == path;
    } else {
      var deeper := LookupSound(g, g[i].items, path[1..]);
      SpellsCons(g, items, i, deeper, path[1..]);
      p := [i] + deeper;
      assert [path[0]] + path[1..] == path;
    }
  }

  /** Members of one list that resolve have different roles. */
  ghost predicate RolesDiffer(g: Graph, items: seq<int>) {
    forall i, j :: i in items && j in items && i in g && j in g && g[i].desc.role == g[j].desc.role ==> i == j
  }

  /** Roles differ in a list and in every block below it. */
  ghost predicate RolesDifferBelow(g: Graph, items: seq<int>) {
    RolesDiffer(g, items) && forall x :: x in Below(g, items) && g[x].Branch? ==> RolesDiffer(g, g[x].items)
  }

  lemma BelowMember(g: Graph, items: seq<int>, i: int)
    requires i in items && i in g
    ensures i in Below(g, items)
    ensures g[i].Branch? ==> Below(g, g[i].items) <= Below(g, items)
  {
    assert Path(g, items, [i]);
    assert [i][|[i]| - 1] == i;
    if g[i].Branch? {
      forall x | x in Below(g, g[i].items)
        ensures x in Below(g, items)
      {
        var p :| Path(g, g[i].items, p) && p[|p| - 1] == x;
        ConsPath(g, items, i, p);
      }
    }
  }

  lemma FirstIsOnly(g: Graph, items: seq<int>, i: int)
    requires RolesDiffer(g, items) && i in items && i in g
    ensures FirstWithRole(g, items, g[i].desc.role) == Some(i)
  {
    match FirstWithRole(g, items, g[i].desc.role)
    case Some(j) => assert j == i;
    case None => assert false;
  }

  lemma {:induction false} LookupFinds(g: Graph, items: seq<int>, p: seq<int>)
    requires RolesDifferBelow(g, items) && Path(g, items, p)
    ensures Known(g, p) && Lookup(g, items, Roles(g, p)) == [g[p[|p| - 1]].desc]
    decreases |p|
  {
    PathRegistered(g, items, p);
    var i := p[0];
    var roles := Roles(g, p);
    assert roles[0] == g[i].desc.role;
    FirstIsOnly(g, items, i);
    if |p| > 1 {
      BelowMember(g, items, i);
      LookupFinds(g, g[i].items, p[1..]);
      assert roles[1..] == Roles(g, p[1..]);
    }
  }

  /** The objects' descriptors carry their own identifiers. */
  predicate SelfDescribing(g: Graph) {
    forall o :: o in g ==> g[o].desc.oid == o
  }

  /** Role paths can be looked up back, all of them. */
  ghost predicate LookupInverts(g: Graph, items: seq<int>) {
    forall p :: Path(g, items, p) ==> Known(g, p) && Lookup(g, items, Roles(g, p)) == [g[p[|p| - 1]].desc]
  }

  /** Two siblings with one role: the lookup of their path finds only one of them. */
  lemma TwinsClash(g: Graph, items: seq<int>, p: seq<int>, q: seq<int>)
    requires SelfDescribing(g) && LookupInverts(g, items) && Path(g, items, p) && Path(g, items, q)
    requires Known(g, p) && Known(g, q) && Roles(g, p) == Roles(g, q)
    ensures p[|p| - 1] == q[|q| - 1]
  {
    var i, j := p[|p| - 1], q[|q| - 1];
    assert [g[i].desc][0] == [g[j].desc][0];
  }

  lemma InvertsThenDiffersHere(g: Graph, items: seq<int>)
    requires SelfDescribing(g) && LookupInverts(g, items)
    ensures RolesDiffer(g, items)
  {
    forall i, j | i in items && j in items && i in g && j in g && g[i].desc.role == g[j].desc.role
      ensures i == j
    {
      assert Path(g, items, [i]) && Path(g, items, [j]);
      assert Roles(g, [i]) == Roles(g, [j]);
      TwinsClash(g, items, [i], [j]);
    }
  }

  lemma InvertsThenDiffersAt(g: Graph, items: seq<int>, x: int)
    requires SelfDescribing(g) && LookupInverts(g, items) && x in Below(g, items) && g[x].Branch?
    ensures RolesDiffer(g, g[x].items)
  {
    var p :| Path(g, items, p) && p[|p| - 1] == x;
    PathRegistered(g, items, p);
    forall i, j | i in g[x].items && j in g[x].items && i in g && j in g && g[i].desc.role == g[j].desc.role
      ensures i == j
    {
      SnocPath(g, items, p, i);
      SnocPath(g, items, p, j);
      RolesOfSnoc(g, p, i);
      RolesOfSnoc(g, p, j);
      TwinsClash(g, items, p + [i], p + [j]);
    }
  }

  lemma RolesOfSnoc(g: Graph, p: seq<int>, i: int)
    requires Known(g, p) && i in g
    ensures Known(g, p + [i]) && Roles(g, p + [i]) == Roles(g, p) + [g[i].desc.role]
  {
  }

  /** Lookup by role path inverts role paths exactly when sibling roles differ, at every level below. */
  lemma LookupInvertsIffRolesDiffer(g: Graph, items: seq<int>)
    requires SelfDescribing(g)
    ensures LookupInverts(g, items) <==> RolesDifferBelow(g, items)
  {
    if RolesDifferBelow(g, items) {
      forall p | Path(g, items, p)
        ensures Known(g, p) && Lookup(g, items, Roles(g, p)) == [g[p[|p| - 1]].desc]
      {
        LookupFinds(g, items, p);
      }
    }
    if LookupInverts(g, items) {
      InvertsThenDiffersHere(g, items);
      forall x | x in Below(g, items) && g[x].Branch?
        ensures RolesDiffer(g, g[x].items)
      {
        InvertsThenDiffersAt(g, items, x);
      }
    }
  }

  // ---------------------------------------------------------------- trees

  /** Every object below a list is reached by one path, and no list names a member twice. */
  ghost predicate TreeBelow(g: Graph, items: seq<int>) {
    && (forall p, q :: Path(g, items, p) && Path(g, items, q) && p[|p| - 1] == q[|q| - 1] ==> p == q)
    && NoRepeat(items)
    && forall x :: x in Below(g, items) && g[x].Branch? ==> NoRepeat(g[x].items)
  }

  predicate NoRepeat<T(==)>(s: seq<T>) {
    forall i, j :: 0 <= i < j < |s| ==> s[i] != s[j]
  }

  /** In a tree with differing sibling roles each object below has exactly one role path that finds it. */
  lemma ExactlyOneRolePath(g: Graph, items: seq<int>, x: int) returns (path: seq<string>)
    requires SelfDescribing(g) && TreeBelow(g, items) && RolesDifferBelow(g, items) && x in Below(g, items)
    ensures Lookup(g, items, path) == [g[x].desc]
    ensures forall other :: Lookup(g, items, other) == [g[x].desc] ==> other == path
  {
    var p :| Path(g, items, p) && p[|p| - 1] == x;
    LookupFinds(g, items, p);
    path := Roles(g, p);
    forall other | Lookup(g, items, other) == [g[x].desc]
      ensures other == path
    {
      var q := LookupSound(g, items, other);
      assert [g[q[|q| - 1]].desc][0] == [g[x].desc][0];
    }
  }

  /** The preorder lists exactly the objects below. */
  lemma {:induction false} PreorderReaches(g: Graph, items: seq<int>, x: int)
    requires Acyclic(g)
    ensures x in Preorder(g, items) <==> x in Below(g, items)
  {
    var tour := PreorderIsLexicographic(g, items);
    if x in Preorder(g, items) {
      var j :| 0 <= j < |tour| && Preorder(g, items)[j] == x;
      PlacesPath(g, items, tour[j]);
    }
    if x in Below(g, items) {
      var p :| Path(g, items, p) && p[|p| - 1] == x;
      var q := PathPlaces(g, items, p);
      var j :| 0 <= j < |tour| && tour[j] == q;
    }
  }

  /** The identifiers along a path by position. */
  function OidsAt(g: Graph, items: seq<int>, q: seq<int>): (p: seq<int>)
    requires Places(g, items, q)
    ensures |p| == |q|
    decreases |q|
  {
    [items[q[0]]] + (if |q| == 1 then [] else OidsAt(g, g[items[q[0]]].items, q[1..]))
  }

  lemma {:induction false} PlacesPath(g: Graph, items: seq<int>, q: seq<int>)
    requires Places(g, items, q)
    ensures Path(g, items, OidsAt(g, items, q)) && OidsAt(g, items, q)[|q| - 1] == Target(g, items, q)
    decreases |q|
  {
    var i := items[q[0]];
    if |q| > 1 {
      PlacesPath(g, g[i].items, q[1..]);
      ConsPath(g, items, i, OidsAt(g, g[i].items, q[1..]));
    }
  }

  lemma {:induction false} PathPlaces(g: Graph, items: seq<int>, p: seq<int>) returns (q: seq<int>)
    requires Path(g, items, p)
    ensures Places(g, items, q) && Target(g, items, q) == p[|p| - 1]
    decreases |p|
  {
    var i := p[0];
    var k :| 0 <= k < |items| && items[k] == i;
    if |p| == 1 {
      q := [k];
    } else {
      var deeper := PathPlaces(g, g[i].items, p[1..]);
      q := [k] + deeper;
      assert q[1..] == deeper;
    }
  }

  /** Whatever a lookup finds, the recursive listing holds. */
  lemma LookupIsListed(g: Graph, items: seq<int>, path: seq<string>)
    requires Acyclic(g) && Lookup(g, items, path) != []
    ensures Lookup(g, items, path)[0] in FindMembers(g, items, Everything, true)
  {
    var p := LookupSound(g, items, path);
    PreorderReaches(g, items, p[|p| - 1]);
    SelectEverything(g, Preorder(g, items));
    var k :| 0 <= k < |Preorder(g, items)| && Preorder(g, items)[k] == p[|p| - 1];
    assert FindMembers(g, items, Everything, true)[k] == g[p[|p| - 1]].desc;
  }

  lemma {:induction false} SelectEverything(g: Graph, oids: seq<int>)
    requires Known(g, oids)
    ensures |Select(g, oids, Everything)| == |oids|
    ensures forall k :: 0 <= k < |oids| ==> Select(g, oids, Everything)[k] == g[oids[k]].desc
  {
    if oids != [] {
      SelectEverything(g, oids[1..]);
    }
  }

  lemma {:induction false} SamePlaces(g: Graph, items: seq<int>, q: seq<int>, r: seq<int>)
    requires Places(g, items, q) && Places(g, items, r) && OidsAt(g, items, q) == OidsAt(g, items, r)
    requires NoRepeat(items) && forall x :: x in Below(g, items) && g[x].Branch? ==> NoRepeat(g[x].items)
    ensures q == r
    decreases |q|
  {
    OidsAtStep(g, items, q);
    OidsAtStep(g, items, r);
    var i := items[q[0]];
    if |q| > 1 {
      hide OidsAt, Places;
      BelowMember(g, items, i);
      SamePlaces(g, g[i].items, q[1..], r[1..]);
      assert q == [q[0]] + q[1..] && r == [r[0]] + r[1..];
    }
  }

  lemma OidsAtStep(g: Graph, items: seq<int>, q: seq<int>)
    requires Places(g, items, q)
    ensures items[q[0]] in items && items[q[0]] in g && OidsAt(g, items, q)[0] == items[q[0]]
    ensures |q| > 1 ==>
              g[items[q[0]]].Branch? && Places(g, g[items[q[0]]].items, q[1..]) &&
              OidsAt(g, items, q)[1..] == OidsAt(g, g[items[q[0]]].items, q[1..])
  {
  }

  lemma {:induction false} BeforeIrreflexive(q: seq<int>)
    ensures !Before(q, q)
    decreases |q|
  {
    if q != [] {
      BeforeIrreflexive(q[1..]);
    }
  }

  /** In a tree the recursive listing names every object below exactly once. */
  lemma TreeListedOnce(g: Graph, items: seq<int>)
    requires Acyclic(g) && TreeBelow(g, items)
    ensures NoRepeat(Preorder(g, items))
    ensures forall x :: x in Preorder(g, items) <==> x in Below(g, items)
  {
    forall x
      ensures x in Preorder(g, items) <==> x in Below(g, items)
    {
      PreorderReaches(g, items, x);
    }
    var tour := PreorderIsLexicographic(g, items);
    forall i, j | 0 <= i < j < |tour|
      ensures Preorder(g, items)[i] != Preorder(g, items)[j]
    {
      var q, r := tour[i], tour[j];
      PlacesPath(g, items, q);
      PlacesPath(g, items, r);
      if Target(g, items, q) == Target(g, items, r) {
        SamePlaces(g, items, q, r);
        BeforeIrreflexive(q);
        assert false;
      }
    }
  }
}
