/** Member trees as ordered forests, and what it takes for the object graph to hold one: acyclicity, one
    path to each member, bounded depth, and the recursive listing follow from distinct identifiers. */
module Forests {
  import opened Text
  import opened BlockGraph
  import opened RolePaths

  /** Members in order, each followed by its later siblings. */
  datatype Forest =
    | Nil
    | Limb(desc: Descriptor, kids: Forest, rest: Forest)
    | Twig(desc: Descriptor, setter: Option<Setter>, rest: Forest)

  /** The identifiers at the top. */
  function Tops(f: Forest): seq<int> {
    match f
    case Nil => []
    case Limb(d, _, rest) => [d.oid] + Tops(rest)
    case Twig(d, _, rest) => [d.oid] + Tops(rest)
  }

  /** All identifiers, parents first. */
  function Oids(f: Forest): seq<int> {
    match f
    case Nil => []
    case Limb(d, kids, rest) => [d.oid] + Oids(kids) + Oids(rest)
    case Twig(d, _, rest) => [d.oid] + Oids(rest)
  }

  /** The longest way down. */
  function Height(f: Forest): nat {
    match f
    case Nil => 0
    case Limb(_, kids, rest) => Max(1 + Height(kids), Height(rest))
    case Twig(_, _, rest) => Max(1, Height(rest))
  }

  function Max(a: nat, b: nat): nat {
    if a > b then a else b
  }

  function Plus(a: Forest, b: Forest): Forest {
    match a
    case Nil => b
    case Limb(d, kids, rest) => Limb(d, kids, Plus(rest, b))
    case Twig(d, s, rest) => Twig(d, s, Plus(rest, b))
  }

  lemma {:induction false} PlusTops(a: Forest, b: Forest)
    ensures Tops(Plus(a, b)) == Tops(a) + Tops(b) && Height(Plus(a, b)) == Max(Height(a), Height(b))
  {
    if a.Nil? {
      assert [] + Tops(b) == Tops(b);
    } else {
      PlusTops(a.rest, b);
      assert [a.desc.oid] + Tops(a.rest) + Tops(b) == [a.desc.oid] + (Tops(a.rest) + Tops(b));
    }
  }

  lemma {:induction false} PlusOids(a: Forest, b: Forest)
    ensures Oids(Plus(a, b)) == Oids(a) + Oids(b)
  {
    if a.Nil? {
      assert [] + Oids(b) == Oids(b);
    } else {
      PlusOids(a.rest, b);
      var own := if a.Limb? then [a.desc.oid] + Oids(a.kids) else [a.desc.oid];
      assert own + Oids(a.rest) + Oids(b) == own + (Oids(a.rest) + Oids(b));
    }
  }

  /** The graph holds the forest: each member is filed with its description, and each limb lists its kids. */
  predicate Holds(g: Graph, f: Forest) {
    match f
    case Nil => true
    case Limb(d, kids, rest) => d.oid in g && g[d.oid] == Branch(d, Tops(kids)) && Holds(g, kids) && Holds(g, rest)
    case Twig(d, s, rest) => d.oid in g && g[d.oid] == Leaf(d, s) && Holds(g, rest)
  }

  lemma {:induction false} HoldsPlus(g: Graph, a: Forest, b: Forest)
    ensures Holds(g, Plus(a, b)) <==> Holds(g, a) && Holds(g, b)
  {
    match a
    case Nil =>
    case Limb(_, _, rest) => HoldsPlus(g, rest, b);
    case Twig(_, _, rest) => HoldsPlus(g, rest, b);
  }

  lemma {:induction false} HoldsKept(g: Graph, g': Graph, f: Forest)
    requires Holds(g, f) && forall o :: o in Oids(f) ==> o in g' && (o in g ==> g'[o] == g[o])
    ensures Holds(g', f)
  {
    match f
    case Nil =>
    case Limb(_, kids, rest) =>
      HoldsKept(g, g', kids);
      HoldsKept(g, g', rest);
    case Twig(_, _, rest) =>
      HoldsKept(g, g', rest);
  }

  /** Paths from the tops stay inside. */
  lemma {:induction false} PathInside(g: Graph, f: Forest, p: seq<int>)
    requires Holds(g, f) && Path(g, Tops(f), p)
    ensures p[|p| - 1] in Oids(f) && |p| <= Height(f)
    decreases f
  {
    var h := p[0];
    match f
    case Nil => assert false;
    case Limb(d, kids, rest) =>
      if h == d.oid {
        if |p| > 1 {
          PathInside(g, kids, p[1..]);
        }
      } else {
        assert h in Tops(rest);
        PathInside(g, rest, p);
      }
    case Twig(d, _, rest) =>
      if h != d.oid {
        assert h in Tops(rest);
        PathInside(g, rest, p);
      }
  }

  predicate Apart(a: seq<int>, b: seq<int>) {
    forall i, j :: 0 <= i < |a| && 0 <= j < |b| ==> a[i] != b[j]
  }

  lemma NoRepeatSum(a: seq<int>, b: seq<int>)
    ensures NoRepeat(a + b) <==> NoRepeat(a) && NoRepeat(b) && Apart(a, b)
  {
    var s := a + b;
    if NoRepeat(s) {
      forall i, j | 0 <= i < j < |a| ensures a[i] != a[j] { assert s[i] != s[j]; }
      forall i, j | 0 <= i < j < |b| ensures b[i] != b[j] { assert s[|a| + i] != s[|a| + j]; }
      forall i, j | 0 <= i < |a| && 0 <= j < |b| ensures a[i] != b[j] { assert s[i] != s[|a| + j]; }
    }
  }

  lemma ApartMember(a: seq<int>, b: seq<int>, x: int)
    requires Apart(a, b) && x in a
    ensures x !in b
  {
  }

  /** Distinctness, part by part. */
  lemma DistinctParts(f: Forest)
    requires NoRepeat(Oids(f)) && !f.Nil?
    ensures NoRepeat(Oids(f.rest)) && f.desc.oid !in Oids(f.rest)
    ensures f.Limb? ==> NoRepeat(Oids(f.kids)) && f.desc.oid !in Oids(f.kids)
                        && forall x :: x in Oids(f.kids) ==> x !in Oids(f.rest)
  {
    var own := [f.desc.oid];
    if f.Limb? {
      NoRepeatSum(own + Oids(f.kids), Oids(f.rest));
      NoRepeatSum(own, Oids(f.kids));
      assert (own + Oids(f.kids))[0] == own[0];
      forall x | x in Oids(f.kids)
        ensures x !in Oids(f.rest)
      {
        assert x in own + Oids(f.kids);
        ApartMember(own + Oids(f.kids), Oids(f.rest), x);
      }
      ApartMember(own, Oids(f.kids), f.desc.oid);
      assert f.desc.oid in own + Oids(f.kids);
      ApartMember(own + Oids(f.kids), Oids(f.rest), f.desc.oid);
    } else {
      NoRepeatSum(own, Oids(f.rest));
      ApartMember(own, Oids(f.rest), f.desc.oid);
    }
  }

  lemma {:induction false} TopsInOids(f: Forest, x: int)
    requires x in Tops(f)
    ensures x in Oids(f)
  {
    if x != f.desc.oid {
      TopsInOids(f.rest, x);
    }
  }

  lemma {:induction false} TopsDistinct(f: Forest)
    requires NoRepeat(Oids(f))
    ensures NoRepeat(Tops(f))
  {
    if !f.Nil? {
      DistinctParts(f);
      TopsDistinct(f.rest);
      if f.desc.oid in Tops(f.rest) {
        TopsInOids(f.rest, f.desc.oid);
      }
    }
  }

  /** No member of the forest is reached from its own members. */
  lemma {:induction false} NoReturn(g: Graph, f: Forest, o: int, p: seq<int>)
    requires Holds(g, f) && NoRepeat(Oids(f)) && o in Oids(f)
    requires o in g && g[o].Branch? && Path(g, g[o].items, p)
    ensures p[|p| - 1] != o
  {
    DistinctParts(f);
    if f.Limb? && o == f.desc.oid {
      PathInside(g, f.kids, p);
    } else if f.Limb? && o in Oids(f.kids) {
      NoReturn(g, f.kids, o, p);
    } else if o in Oids(f.rest) {
      NoReturn(g, f.rest, o, p);
    } else {
      assert false;
    }
  }

  /** A graph made of one forest with distinct identifiers is acyclic. */
  lemma ForestAcyclic(g: Graph, f: Forest)
    requires Holds(g, f) && NoRepeat(Oids(f)) && forall o :: o in g ==> o in Oids(f)
    ensures Acyclic(g)
  {
    forall o, p | o in g && g[o].Branch? && Path(g, g[o].items, p)
      ensures p[|p| - 1] != o
    {
      NoReturn(g, f, o, p);
    }
  }

  /** Recursive listing of a held forest is its order. */
  lemma {:induction false} ListingIsForest(g: Graph, f: Forest)
    requires Acyclic(g) && Holds(g, f)
    ensures Preorder(g, Tops(f)) == Oids(f)
  {
    if !f.Nil? {
      ListingIsForest(g, f.rest);
      assert Tops(f)[1..] == Tops(f.rest);
      if f.Limb? {
        ListingIsForest(g, f.kids);
      }
    }
  }

  lemma {:induction false} OnePath(g: Graph, f: Forest, p: seq<int>, q: seq<int>)
    requires Holds(g, f) && NoRepeat(Oids(f))
    requires Path(g, Tops(f), p) && Path(g, Tops(f), q) && p[|p| - 1] == q[|q| - 1]
    ensures p == q
    decreases f
  {
    DistinctParts(f);
    var d := f.desc.oid;
    if p[0] == d && q[0] == d {
      if f.Limb? {
        if |p| > 1 { PathInside(g, f.kids, p[1..]); }
        if |q| > 1 { PathInside(g, f.kids, q[1..]); }
        if |p| > 1 && |q| > 1 {
          OnePath(g, f.kids, p[1..], q[1..]);
        }
      }
      assert p == [d] + p[1..] && q == [d] + q[1..];
    } else if p[0] == d {
      HeadElsewhere(g, f, p, q);
    } else if q[0] == d {
      HeadElsewhere(g, f, q, p);
    } else {
      InRest(g, f, p);
      InRest(g, f, q);
      OnePath(g, f.rest, p, q);
    }
  }

  lemma InRest(g: Graph, f: Forest, p: seq<int>)
    requires Path(g, Tops(f), p) && p[0] != f.desc.oid
    ensures Path(g, Tops(f.rest), p)
  {
    var h := p[0];
    assert h in Tops(f.rest);
  }

  lemma HeadElsewhere(g: Graph, f: Forest, p: seq<int>, q: seq<int>)
    requires Holds(g, f) && NoRepeat(Oids(f)) && !f.Nil?
    requires Path(g, Tops(f), p) && p[0] == f.desc.oid && Path(g, Tops(f), q) && q[0] != f.desc.oid
    ensures p[|p| - 1] != q[|q| - 1]
  {
    DistinctParts(f);
    InRest(g, f, q);
    PathInside(g, f.rest, q);
    if |p| > 1 {
      PathInside(g, f.kids, p[1..]);
    }
  }

  lemma {:induction false} ItemsDistinct(g: Graph, f: Forest, x: int)
    requires Holds(g, f) && NoRepeat(Oids(f)) && x in Oids(f) && x in g && g[x].Branch?
    ensures NoRepeat(g[x].items)
  {
    DistinctParts(f);
    if x == f.desc.oid {
      TopsDistinct(f.kids);
    } else if f.Limb? && x in Oids(f.kids) {
      ItemsDistinct(g, f.kids, x);
    } else {
      assert x in Oids(f.rest);
      ItemsDistinct(g, f.rest, x);
    }
  }

  /** A held forest with distinct identifiers is a tree below its tops, no deeper than it is high. */
  lemma ForestIsTree(g: Graph, f: Forest)
    requires Holds(g, f) && NoRepeat(Oids(f))
    ensures TreeBelow(g, Tops(f))
    ensures forall p :: Path(g, Tops(f), p) ==> |p| <= Height(f)
    ensures forall x :: x in Below(g, Tops(f)) ==> x in Oids(f)
  {
    forall p, q | Path(g, Tops(f), p) && Path(g, Tops(f), q) && p[|p| - 1] == q[|q| - 1]
      ensures p == q
    {
      OnePath(g, f, p, q);
    }
    TopsDistinct(f);
    forall p | Path(g, Tops(f), p)
      ensures |p| <= Height(f) && p[|p| - 1] in Oids(f)
    {
      PathInside(g, f, p);
    }
    forall x | x in Below(g, Tops(f)) && g[x].Branch?
      ensures NoRepeat(g[x].items)
    {
      ItemsDistinct(g, f, x);
    }
  }

  /** Everything a held forest's limbs list is registered. */
  lemma {:induction false} HeldIsKnown(g: Graph, f: Forest, x: int)
    requires Holds(g, f) && x in Oids(f)
    ensures x in g && (g[x].Branch? ==> Known(g, g[x].items))
  {
    TopsKnown(g, f);
    if f.Limb? {
      TopsKnown(g, f.kids);
    }
    if x != f.desc.oid {
      if f.Limb? && x in Oids(f.kids) {
        HeldIsKnown(g, f.kids, x);
      } else {
        assert x in Oids(f.rest);
        HeldIsKnown(g, f.rest, x);
      }
    }
  }

  lemma {:induction false} TopsKnown(g: Graph, f: Forest)
    requires Holds(g, f)
    ensures Known(g, Tops(f))
  {
    if !f.Nil? {
      TopsKnown(g, f.rest);
    }
  }

  /** Roles differ among the tops and among the kids of every limb. */
  predicate RolesApart(f: Forest) {
    match f
    case Nil => true
    case Limb(d, kids, rest) => !HasRole(rest, d.role) && RolesApart(kids) && RolesApart(rest)
    case Twig(d, _, rest) => !HasRole(rest, d.role) && RolesApart(rest)
  }

  predicate HasRole(f: Forest, role: string) {
    !f.Nil? && (f.desc.role == role || HasRole(f.rest, role))
  }

  lemma {:induction false} RoleOfTop(g: Graph, f: Forest, x: int)
    requires Holds(g, f) && x in Tops(f)
    ensures x in g && HasRole(f, g[x].desc.role)
  {
    if x != f.desc.oid {
      assert x in Tops(f.rest);
      RoleOfTop(g, f.rest, x);
    }
  }

  lemma {:induction false} TopWithRole(g: Graph, f: Forest, role: string) returns (x: int)
    requires Holds(g, f) && HasRole(f, role)
    ensures x in Tops(f) && x in g && g[x].desc.role == role
  {
    if f.desc.role == role {
      x := f.desc.oid;
    } else {
      x := TopWithRole(g, f.rest, role);
    }
  }

  /** In a held forest with distinct identifiers that is differing sibling roles at every level. */
  lemma {:induction false} RolesApartMeans(g: Graph, f: Forest)
    requires Holds(g, f) && NoRepeat(Oids(f))
    ensures RolesApart(f) <==> RolesDifferBelow(g, Tops(f))
  {
    if RolesApart(f) {
      ApartHere(g, f);
      ForestIsTree(g, f);
      forall x | x in Below(g, Tops(f)) && g[x].Branch?
        ensures RolesDiffer(g, g[x].items)
      {
        ApartAt(g, f, x);
      }
    }
    if RolesDifferBelow(g, Tops(f)) {
      DifferThenApart(g, f);
    }
  }

  lemma {:induction false} ApartHere(g: Graph, f: Forest)
    requires Holds(g, f) && RolesApart(f)
    ensures RolesDiffer(g, Tops(f))
  {
    if !f.Nil? {
      ApartHere(g, f.rest);
      forall i, j | i in Tops(f) && j in Tops(f) && i in g && j in g && g[i].desc.role == g[j].desc.role
        ensures i == j
      {
        if i != f.desc.oid { RoleOfTop(g, f.rest, i); }
        if j != f.desc.oid { RoleOfTop(g, f.rest, j); }
      }
    }
  }

  lemma {:induction false} ApartAt(g: Graph, f: Forest, x: int)
    requires Holds(g, f) && NoRepeat(Oids(f)) && RolesApart(f) && x in Oids(f) && x in g && g[x].Branch?
    ensures RolesDiffer(g, g[x].items)
  {
    DistinctParts(f);
    if x == f.desc.oid {
      ApartHere(g, f.kids);
    } else if f.Limb? && x in Oids(f.kids) {
      ApartAt(g, f.kids, x);
    } else {
      assert x in Oids(f.rest);
      ApartAt(g, f.rest, x);
    }
  }

  lemma {:induction false} DifferThenApart(g: Graph, f: Forest)
    requires Holds(g, f) && NoRepeat(Oids(f)) && RolesDifferBelow(g, Tops(f))
    ensures RolesApart(f)
  {
    if !f.Nil? {
      DistinctParts(f);
      var d := f.desc;
      if HasRole(f.rest, d.role) {
        var x := TopWithRole(g, f.rest, d.role);
        TopsInOids(f.rest, x);
        assert false;
      }
      BelowMonotone(g, Tops(f.rest), Tops(f));
      DifferThenApart(g, f.rest);
      if f.Limb? {
        BelowMember(g, Tops(f), d.oid);
        DifferThenApart(g, f.kids);
      }
    }
  }
}
