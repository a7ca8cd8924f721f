/** The control objects themselves: blocks with their member searches, workers with their property, and
    the registry that resolves identifiers. */
module Nca {
  import opened Text
  import opened BlockGraph
  import opened RolePaths

  /** A property value as the control protocol carries it; `Other` is any of another type, by the text it prints as. */
  datatype Value = Null | Str(text: string) | Num(number: int) | Flag(on: bool) | Other(printed: string) {
    /** How a value is printed into a device command. */
    function Shown(): string {
      match this
      case Null => "<nil>"
      case Str(text) => text
      case Num(number) => Itoa(number)
      case Flag(on) => if on then "true" else "false"
      case Other(printed) => printed
    }
  }

  /** The line a setter sends for a value. */
  function SetLine(s: Setter, v: Value): string {
    "< SET " + (if s.channel.Some? then Itoa(s.channel.value) + " " else "") + s.param + " " + v.Shown() + " >\n"
  }

  datatype PropertyId = PropertyId(level: int, index: int)

  const WORKER_VALUE := PropertyId(3, 1)
  const USER_LABEL := PropertyId(1, 6)

  /** The block class identifier. */
  const BLOCK_CLASS: seq<int> := [1, 1]

  class Block {
    const oid: int
    const role: string
    const owner: Option<int>
    var userLabel: string
    var items: seq<int>
    var resolver: Registry?

    constructor (oid: int, owner: Option<int>, role: string, name: string)
      ensures this.oid == oid && this.owner == owner && this.role == role && userLabel == name
      ensures items == [] && resolver == null
    {
      this.oid, this.owner, this.role, userLabel := oid, owner, role, name;
      items, resolver := [], null;
    }

    function GetDescriptor(): Descriptor
      reads this
    {
      Descriptor(role, oid, true, BLOCK_CLASS, userLabel, owner)
    }

    /** Adds a member unless it is there already. */
    method AddItem(item: int)
      modifies this`items
      ensures items == if item in old(items) then old(items) else old(items) + [item]
    {
      for k := 0 to |items|
        invariant items == old(items) && item !in items[..k]
      {
        if items[k] == item {
          return;
        }
      }
      items := items + [item];
    }

    /** Sets a property: of a block's, only the label can be set, and only to text. */
    method SetProperty(id: PropertyId, v: Value) returns (ok: bool)
      modifies this`userLabel
      ensures ok <==> id == PropertyId(1, 6) && v.Str?
      ensures userLabel == if ok then v.text else old(userLabel)
    {
      if id == USER_LABEL && v.Str? {
        userLabel := v.text;
        return true;
      }
      return false;
    }

    /** What a search needs: the registry is consistent and its member relation has no cycle. */
    ghost predicate Ready()
      reads this, Resolution()
    {
      resolver != null ==> resolver.Valid() && Acyclic(resolver.GraphOf())
    }

    ghost function Resolution(): set<object>
      reads this, if resolver == null then {} else {resolver}
    {
      if resolver == null then {} else {resolver} + resolver.parts
    }

    /** The members a search should find. The searches descend only when the resolver hands out blocks
        themselves rather than adapters around them. */
    ghost function Found(q: Query, recurse: bool): seq<Descriptor>
      requires Ready()
      reads this, Resolution()
    {
      if resolver == null then []
      else FindMembers(resolver.GraphOf(), items, q, recurse && resolver.direct)
    }

    ghost function Depth(): nat
      requires Ready()
      reads this, Resolution()
    {
      if resolver == null then 0 else |Below(resolver.GraphOf(), items)|
    }

    method GetMemberDescriptors(recurse: bool) returns (found: seq<Descriptor>)
      requires Ready()
      ensures found == Found(Everything, recurse)
      decreases Depth()
    {
      hide FindMembers, Acyclic, Below;
      found := [];
      if resolver == null {
        return;
      }
      ghost var g := resolver.GraphOf();
      for k := 0 to |items|
        invariant found + FindMembers(g, items[k..], Everything, recurse && resolver.direct)
               == Found(Everything, recurse)
      {
        var item := items[k];
        SearchStep(g, items, k, Everything, recurse && resolver.direct, found);
        if item in resolver.objects {
          var obj := resolver.objects[item];
          found := found + [obj.GetDescriptor()];
          if recurse && resolver.direct && obj.BlockMember? {
            BelowShrinks(g, items, item);
            var inner := obj.block.GetMemberDescriptors(true);
            found := found + inner;
          }
        }
      }
      SearchEnd(g, items, Everything, recurse && resolver.direct);
    }

    method FindMembersByRole(role: string, caseSensitive: bool, matchWhole: bool, recurse: bool)
      returns (found: seq<Descriptor>)
      requires Ready()
      ensures found == Found(ByRole(role, caseSensitive, matchWhole), recurse)
      decreases Depth()
    {
      hide FindMembers, Acyclic, Below;
      found := [];
      if resolver == null {
        return;
      }
      ghost var g, q := resolver.GraphOf(), ByRole(role, caseSensitive, matchWhole);
      for k := 0 to |items|
        invariant found + FindMembers(g, items[k..], q, recurse && resolver.direct) == Found(q, recurse)
      {
        var item := items[k];
        SearchStep(g, items, k, q, recurse && resolver.direct, found);
        if item in resolver.objects {
          var obj := resolver.objects[item];
          var objRole := obj.GetDescriptor().role;
          var matches := false;
          if matchWhole {
            if caseSensitive && objRole == role {
              matches := true;
            } else if !caseSensitive && EqualFold(objRole, role) {
              matches := true;
            }
          } else {
            if caseSensitive && Index(objRole, role) >= 0 {
              matches := true;
            } else if !caseSensitive && Index(ToLower(objRole), ToLower(role)) >= 0 {
              matches := true;
            }
          }
          if matches {
            found := found + [obj.GetDescriptor()];
          }
          if recurse && resolver.direct && obj.BlockMember? {
            BelowShrinks(g, items, item);
            var inner := obj.block.FindMembersByRole(role, caseSensitive, matchWhole, true);
            found := found + inner;
          }
        }
      }
      SearchEnd(g, items, q, recurse && resolver.direct);
    }

    method FindMembersByClassId(classId: seq<int>, includeDerived: bool, recurse: bool)
      returns (found: seq<Descriptor>)
      requires Ready()
      ensures found == Found(ByClass(classId, includeDerived), recurse)
      decreases Depth()
    {
      hide FindMembers, Acyclic, Below;
      found := [];
      if resolver == null {
        return;
      }
      ghost var g, q := resolver.GraphOf(), ByClass(classId, includeDerived);
      for k := 0 to |items|
        invariant found + FindMembers(g, items[k..], q, recurse && resolver.direct) == Found(q, recurse)
      {
        var item := items[k];
        SearchStep(g, items, k, q, recurse && resolver.direct, found);
        if item in resolver.objects {
          var obj := resolver.objects[item];
          var matches := MatchesClassId(obj.GetDescriptor().classId, classId, includeDerived);
          if matches {
            found := found + [obj.GetDescriptor()];
          }
          if recurse && resolver.direct && obj.BlockMember? {
            BelowShrinks(g, items, item);
            var inner := obj.block.FindMembersByClassId(classId, includeDerived, true);
            found := found + inner;
          }
        }
      }
      SearchEnd(g, items, q, recurse && resolver.direct);
    }

    /** The member at the end of a role path; behind adapters only paths of length one resolve. */
    method FindMembersByPath(path: seq<string>) returns (found: seq<Descriptor>)
      requires resolver != null ==> resolver.Valid()
      ensures resolver == null ==> found == []
      ensures resolver != null && (resolver.direct || |path| <= 1) ==>
                found == Lookup(resolver.GraphOf(), items, path)
      ensures resolver != null && !resolver.direct && |path| > 1 ==> found == []
      decreases |path|
    {
      if path == [] || resolver == null {
        return [];
      }
      ghost var g := resolver.GraphOf();
      for k := 0 to |items|
        invariant FirstWithRole(g, items[k..], path[0]) == FirstWithRole(g, items, path[0])
      {
        assert items[k..][1..] == items[k + 1..];
        var item := items[k];
        if item in resolver.objects {
          var obj := resolver.objects[item];
          if obj.GetDescriptor().role == path[0] {
            assert FirstWithRole(g, items, path[0]) == Some(item);
            if |path| == 1 {
              return [obj.GetDescriptor()];
            }
            if resolver.direct && obj.BlockMember? {
              found := obj.block.FindMembersByPath(path[1..]);
              return;
            }
            return [];
          }
        }
      }
      return [];
    }
  }

  /** One turn of a search loop, as the loop writes it. */
  lemma SearchStep(g: Graph, items: seq<int>, k: nat, q: Query, recurse: bool, found: seq<Descriptor>)
    requires Acyclic(g) && k < |items|
    ensures var i := items[k];
            var with := if i in g && q.Matches(g[i].desc) then found + [g[i].desc] else found;
            found + FindMembers(g, items[k..], q, recurse) ==
            (if i in g && recurse && g[i].Branch? then with + FindMembers(g, g[i].items, q, true) else with)
            + FindMembers(g, items[k + 1..], q, recurse)
  {
    hide FindMembers, Query.Matches, Acyclic;
    var i, rest := items[k], FindMembers(g, items[k + 1..], q, recurse);
    assert items[k..][0] == i && items[k..][1..] == items[k + 1..];
    FindStep(g, items[k..], q, recurse);
    if i in g {
      var inner := if recurse && g[i].Branch? then FindMembers(g, g[i].items, q, true) else [];
      Regroup(found, IfMatching(g[i].desc, q), inner, rest);
    } else {
      Regroup(found, [], [], rest);
    }
  }

  lemma Regroup<T>(found: seq<T>, own: seq<T>, inner: seq<T>, rest: seq<T>)
    ensures found + (own + inner + rest) == (if inner == [] then found + own else found + own + inner) + rest
    ensures found + (own + inner + rest) == (found + own) + inner + rest
    ensures found + [] == found && found + [] + rest == found + rest && [] + rest == rest
  {
  }

  lemma SearchEnd(g: Graph, items: seq<int>, q: Query, recurse: bool)
    requires Acyclic(g)
    ensures FindMembers(g, items[|items|..], q, recurse) == []
  {
  }

  /** Whether an object's class identifier is the one searched for, or derives from it. */
  method MatchesClassId(objClassId: seq<int>, searchClassId: seq<int>, includeDerived: bool) returns (r: bool)
    ensures r <==> searchClassId <= objClassId && (includeDerived || |searchClassId| == |objClassId|)
  {
    if |objClassId| < |searchClassId| {
      return false;
    }
    for i := 0 to |searchClassId|
      invariant searchClassId[..i] == objClassId[..i]
    {
      if objClassId[i] != searchClassId[i] {
        return false;
      }
    }
    return includeDerived || |objClassId| == |searchClassId|;
  }

  /** A worker: one settable value, which may be tied to a device parameter. */
  class Worker {
    const oid: int
    const classId: seq<int>
    const role: string
    const owner: Option<int>
    const setter: Option<Setter>
    var userLabel: string
    var value: Value

    constructor (oid: int, classId: seq<int>, owner: Option<int>, role: string, name: string, setter: Option<Setter>)
      ensures this.oid == oid && this.classId == classId && this.owner == owner && this.role == role
      ensures this.setter == setter && userLabel == name && value == Null
    {
      this.oid, this.classId, this.owner, this.role := oid, classId, owner, role;
      this.setter, userLabel, value := setter, name, Null;
    }

    function GetDescriptor(): Descriptor
      reads this
    {
      Descriptor(role, oid, true, classId, userLabel, owner)
    }

    /** Sets a property. A tied worker first sends its line; `accepted` says whether that succeeded. Only
        a set that worked changes anything, and only then is there something to notify. */
    method SetProperty(id: PropertyId, v: Value, accepted: bool) returns (ok: bool, line: Option<string>)
      modifies this`value, this`userLabel
      ensures line == if id == PropertyId(3, 1) && setter.Some? then Some(SetLine(setter.value, v)) else None
      ensures ok <==> (id == PropertyId(3, 1) && (setter.None? || accepted)) || (id == PropertyId(1, 6) && v.Str?)
      ensures value == if ok && id == WORKER_VALUE then v else old(value)
      ensures userLabel == if ok && id == USER_LABEL then v.text else old(userLabel)
    {
      line := None;
      if id == WORKER_VALUE {
        if setter.Some? {
          line := Some(SetLine(setter.value, v));
          if !accepted {
            return false, line;
          }
        }
        value := v;
        return true, line;
      }
      if id == USER_LABEL && v.Str? {
        userLabel := v.text;
        return true, line;
      }
      return false, line;
    }
  }

  /** The class identifier all managers derive from. */
  const MANAGER_CLASS: seq<int> := [1, 3]

  const USER_INVENTORY_CODE := PropertyId(3, 5)
  const DEVICE_NAME := PropertyId(3, 6)
  const DEVICE_ROLE := PropertyId(3, 7)

  /** A manager: a label, and, of the device manager, three texts that can be set. */
  class Manager {
    const oid: int
    const classId: seq<int>
    const role: string
    const ofDevice: bool
    var userLabel: string
    var userInventoryCode: string
    var deviceName: string
    var deviceRole: string

    constructor (oid: int, classId: seq<int>, role: string, name: string, ofDevice: bool)
      ensures this.oid == oid && this.classId == classId && this.role == role && this.ofDevice == ofDevice
      ensures userLabel == name
    {
      this.oid, this.classId, this.role, this.ofDevice, userLabel := oid, classId, role, ofDevice, name;
      userInventoryCode, deviceName, deviceRole := "", "", "";
    }

    function GetDescriptor(): Descriptor
      reads this
    {
      Descriptor(role, oid, true, classId, userLabel, None)
    }

    /** The texts of its own that can be set. */
    ghost function Texts(): map<PropertyId, string>
      reads this
    {
      if ofDevice
      then map[USER_INVENTORY_CODE := userInventoryCode, DEVICE_NAME := deviceName, DEVICE_ROLE := deviceRole]
      else map[]
    }

    /** Only text can be set, and only as a label or one of these. */
    method SetProperty(id: PropertyId, v: Value) returns (ok: bool)
      modifies this
      ensures ok <==> v.Str? && (id == USER_LABEL || id in old(Texts()))
      ensures ok <==> v.Str? && (id == USER_LABEL ||
                                 (ofDevice && (id == USER_INVENTORY_CODE || id == DEVICE_NAME || id == DEVICE_ROLE)))
      ensures ok && id == USER_INVENTORY_CODE ==> userInventoryCode == v.text
      ensures ok && id == DEVICE_NAME ==> deviceName == v.text
      ensures ok && id == DEVICE_ROLE ==> deviceRole == v.text
      ensures Texts() == if ok && id != USER_LABEL then old(Texts())[id := v.text] else old(Texts())
      ensures userLabel == if ok && id == USER_LABEL then v.text else old(userLabel)
    {
      if ofDevice && id in {USER_INVENTORY_CODE, DEVICE_NAME, DEVICE_ROLE} {
        if !v.Str? {
          return false;
        }
        if id == USER_INVENTORY_CODE {
          userInventoryCode := v.text;
        } else if id == DEVICE_NAME {
          deviceName := v.text;
        } else {
          deviceRole := v.text;
        }
        return true;
      }
      if id == USER_LABEL && v.Str? {
        userLabel := v.text;
        return true;
      }
      return false;
    }
  }

  datatype Member = BlockMember(block: Block) | WorkerMember(worker: Worker) | ManagerMember(manager: Manager) {
    function GetDescriptor(): Descriptor
      reads this.Part()
    {
      match this
      case BlockMember(b) => b.GetDescriptor()
      case WorkerMember(w) => w.GetDescriptor()
      case ManagerMember(m) => m.GetDescriptor()
    }

    /** What is not a block or a worker is a manager by its class. */
    ghost predicate Sound() {
      ManagerMember? ==> MANAGER_CLASS <= manager.classId
    }

    ghost function Part(): set<object> {
      match this
      case BlockMember(b) => {b}
      case WorkerMember(w) => {w}
      case ManagerMember(m) => {m}
    }

    ghost function AsNode(): Node
      reads this.Part()
    {
      match this
      case BlockMember(b) => Branch(b.GetDescriptor(), b.items)
      case WorkerMember(w) => Leaf(w.GetDescriptor(), w.setter)
      case ManagerMember(m) => Leaf(m.GetDescriptor(), None)
    }

    function Oid(): int {
      match this
      case BlockMember(b) => b.oid
      case WorkerMember(w) => w.oid
      case ManagerMember(m) => m.oid
    }
  }

  /** The controller's table of control objects. */
  class Registry {
    const direct: bool
    var objects: map<int, Member>
    ghost var parts: set<object>

    constructor (direct: bool)
      ensures this.direct == direct && objects == map[] && parts == {}
    {
      this.direct := direct;
      objects, parts := map[], {};
    }

    /** Every object is filed under its own identifier, and registered blocks resolve here. */
    ghost predicate Valid()
      reads this, parts
    {
      && this !in parts
      && forall o :: o in objects ==>
           objects[o].Oid() == o && objects[o].Part() <= parts && objects[o].Sound() &&
           (objects[o].BlockMember? ==> objects[o].block in objects[o].Part() && objects[o].block.resolver == this)
    }

    /** The object graph. */
    ghost function GraphOf(): Graph
      requires Valid()
      reads this, parts
    {
      map o | o in objects :: objects[o].AsNode()
    }

    /** Files an object, replacing what had its identifier. */
    method Register(m: Member)
      requires Valid() && this !in m.Part() && m.Sound()
      modifies this, (if m.BlockMember? then {m.block} else {})`resolver
      ensures Valid() && objects == old(objects)[m.Oid() := m] && parts == old(parts) + m.Part()
      ensures m.BlockMember? ==> m.block.resolver == this
      ensures GraphOf() == old(GraphOf())[m.Oid() := old(m.AsNode())]
    {
      if m.BlockMember? {
        m.block.resolver := this;
      }
      objects := objects[m.Oid() := m];
      parts := parts + m.Part();
      forall o | o in objects
        ensures objects[o].AsNode() == old(objects[m.Oid() := m][o].AsNode())
      {
      }
    }

    /** Setting a registered worker's value leaves the object graph as it is. */
    method SetWorker(w: Worker, v: Value, accepted: bool) returns (line: Option<string>)
      requires Valid() && w in parts
      modifies w
      ensures Valid() && GraphOf() == old(GraphOf()) && w.userLabel == old(w.userLabel)
      ensures line == if w.setter.Some? then Some(SetLine(w.setter.value, v)) else None
      ensures w.value == if w.setter.None? || accepted then v else old(w.value)
    {
      var ok;
      ok, line := w.SetProperty(WORKER_VALUE, v, accepted);
      assert w.GetDescriptor() == old(w.GetDescriptor());
      forall o | o in objects
        ensures objects[o].AsNode() == old(objects[o].AsNode())
      {
      }
    }
  }
}
