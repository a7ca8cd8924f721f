/** Control classes filed under a text key made of their class identifier, the two forms of their
    descriptors, and the standard ones. */
module ClassKeys {
  import opened Text
  import Nca

  /** Numbers in decimal, each after a dot. */
  function Dotted(numbers: seq<int>): string {
    if numbers == [] then "" else "." + Itoa(numbers[0]) + Dotted(numbers[1..])
  }

  /** The numbers in decimal, with dots between them. */
  function Key(classId: seq<int>): string {
    if classId == [] then "" else Itoa(classId[0]) + Dotted(classId[1..])
  }

  lemma {:induction false} DottedSnoc(numbers: seq<int>, n: int)
    ensures Dotted(numbers + [n]) == Dotted(numbers) + ("." + Itoa(n))
  {
    if numbers == [] {
      assert Dotted([n]) == "." + Itoa(n) + "";
      assert "" + ("." + Itoa(n)) == "." + Itoa(n) + "";
    } else {
      DottedSnoc(numbers[1..], n);
      assert (numbers + [n])[1..] == numbers[1..] + [n];
      Regroup("." + Itoa(numbers[0]), Dotted(numbers[1..]), "." + Itoa(n));
    }
  }

  lemma Regroup(a: string, b: string, c: string)
    ensures a + (b + c) == a + b + c
  {
  }

  lemma KeySnoc(classId: seq<int>, i: nat)
    requires i < |classId|
    ensures Key(classId[..i + 1]) == (if i > 0 then Key(classId[..i]) + "." else "") + Itoa(classId[i])
  {
    if i == 0 {
      assert classId[..1][1..] == [];
      assert Itoa(classId[0]) + "" == "" + Itoa(classId[0]);
    } else {
      assert classId[..i + 1][1..] == classId[1..i] + [classId[i]] && classId[..i][1..] == classId[1..i];
      DottedSnoc(classId[1..i], classId[i]);
      Regroup(Itoa(classId[0]), Dotted(classId[1..i]), "." + Itoa(classId[i]));
      Regroup(Key(classId[..i]), ".", Itoa(classId[i]));
    }
  }

  /** The key as the class manager makes it. */
  method ClassIdToKey(classId: seq<int>) returns (key: string)
    ensures key == Key(classId)
  {
    hide Key;
    key := "";
    EmptyKey();
    for i := 0 to |classId|
      invariant key == if i == 0 then "" else Key(classId[..i])
    {
      KeySnoc(classId, i);
      if i > 0 {
        key := key + ".";
      }
      key := key + Itoa(classId[i]);
    }
    assert classId[..|classId|] == classId;
  }

  /** The key as the controller makes it. */
  method ControllerClassIdToKey(classId: seq<int>) returns (res: string)
    ensures res == Key(classId)
  {
    hide Key;
    res := "";
    EmptyKey();
    for i := 0 to |classId|
      invariant res == if i == 0 then "" else Key(classId[..i])
    {
      KeySnoc(classId, i);
      if i > 0 {
        res := res + ".";
      }
      res := res + Itoa(classId[i]);
    }
    assert classId[..|classId|] == classId;
  }

  lemma EmptyKey()
    ensures Key([]) == ""
  {
  }

  /** The first dot ends the first number, and after it comes the key of the others. */
  lemma KeyParts(a: seq<int>)
    requires a != []
    ensures Key(a) != ""
    ensures |a| == 1 ==> Key(a) == Itoa(a[0]) && Find(Key(a), '.') == -1
    ensures |a| > 1 ==>
              var n := Find(Key(a), '.');
              n >= 0 && Key(a)[..n] == Itoa(a[0]) && Key(a)[n + 1..] == Key(a[1..])
  {
    var x := Itoa(a[0]);
    ItoaChars(a[0]);
    assert FreeOf(x, Only('.'));
    if |a| == 1 {
      assert x + "" == x;
      assert Find(x, '.') >= 0 ==> !Only('.').Has(x[Find(x, '.')]);
    } else {
      var more := Itoa(a[1]) + Dotted(a[2..]);
      assert a[1..][1..] == a[2..];
      assert Key(a[1..]) == more;
      Regroup(".", Itoa(a[1]), Dotted(a[2..]));
      Regroup(x, ".", more);
      assert Key(a) == x + "." + more;
      FindFirst(x, '.', more);
      Slices(x, more);
    }
  }

  lemma Slices(x: string, more: string)
    ensures (x + "." + more)[..|x|] == x && (x + "." + more)[|x| + 1..] == more
  {
  }

  /** Different lists of numbers, of any length and sign, have different keys. */
  lemma {:induction false} KeyInjective(a: seq<int>, b: seq<int>)
    requires Key(a) == Key(b)
    ensures a == b
  {
    hide Key, Itoa, Find;
    EmptyKey();
    if a == [] {
      if b != [] {
        KeyParts(b);
      }
    } else if b == [] {
      KeyParts(a);
    } else {
      KeyParts(a);
      KeyParts(b);
      ItoaInjective(a[0], b[0]);
      if |a| > 1 {
        KeyInjective(a[1..], b[1..]);
      }
      assert a == [a[0]] + a[1..] && b == [b[0]] + b[1..];
    }
  }

  // ---------------------------------------------------------------- the two forms of descriptors

  /** The identifier of a property, method or event. */
  datatype ElementId = ElementId(level: int, index: int)

  datatype Parameter = Parameter(name: string, typeName: string, isNullable: bool, isSequence: bool)

  datatype Property = Property(id: ElementId, name: string, typeName: string, isReadOnly: bool, isNullable: bool,
                               isSequence: bool, isDeprecated: bool)

  datatype Method = Method(id: ElementId, name: string, resultDatatype: string, parameters: seq<Parameter>,
                           isDeprecated: bool)

  datatype Event = Event(id: ElementId, name: string, eventDatatype: string, isDeprecated: bool)

  /** A class as the class manager keeps it. */
  datatype ClassDescriptor = ClassDescriptor(classId: seq<int>, name: string, fixedRole: Option<string>,
                                             properties: seq<Property>, methods: seq<Method>, events: seq<Event>)

  /** The controller's form of any part: the same with a description. */
  datatype Nc<T> = Nc(description: string, part: T)

  /** A method whose parameters are in the controller's form. */
  datatype NcMethod = NcMethod(id: ElementId, name: string, resultDatatype: string, parameters: seq<Nc<Parameter>>,
                               isDeprecated: bool)

  datatype NcClass = NcClass(classId: seq<int>, name: string, fixedRole: Option<string>,
                             properties: seq<Nc<Property>>, methods: seq<Nc<NcMethod>>, events: seq<Nc<Event>>)

  type NcClassDescriptor = Nc<NcClass>

  function Parts<T>(s: seq<Nc<T>>): seq<T> {
    seq(|s|, k requires 0 <= k < |s| => s[k].part)
  }

  function Undescribed<T>(s: seq<T>): seq<Nc<T>> {
    seq(|s|, k requires 0 <= k < |s| => Nc("", s[k]))
  }

  function PlainMethod(m: NcMethod): Method {
    Method(m.id, m.name, m.resultDatatype, Parts(m.parameters), m.isDeprecated)
  }

  function FullMethod(m: Method): NcMethod {
    NcMethod(m.id, m.name, m.resultDatatype, Undescribed(m.parameters), m.isDeprecated)
  }

  function Stripped(d: NcClassDescriptor): ClassDescriptor {
    var c, n := d.part, |d.part.methods|;
    ClassDescriptor(c.classId, c.name, c.fixedRole, Parts(c.properties),
                    seq(n, k requires 0 <= k < n => PlainMethod(c.methods[k].part)), Parts(c.events))
  }

  function Full(d: ClassDescriptor): NcClassDescriptor {
    var n := |d.methods|;
    Nc("", NcClass(d.classId, d.name, d.fixedRole, Undescribed(d.properties),
                   seq(n, k requires 0 <= k < n => Nc("", FullMethod(d.methods[k]))), Undescribed(d.events)))
  }

  /** The conversion's loops, one for each kind of part. */
  method NcClassDescriptorToClassDescriptor(d: NcClassDescriptor) returns (r: ClassDescriptor)
    ensures r == Stripped(d)
  {
    var c := d.part;
    var properties := CopyParts(c.properties);
    var methods: seq<Method> := [];
    for i := 0 to |c.methods|
      invariant |methods| == i && forall k :: 0 <= k < i ==> methods[k] == PlainMethod(c.methods[k].part)
    {
      var m := c.methods[i].part;
      var parameters := CopyParts(m.parameters);
      methods := methods + [Method(m.id, m.name, m.resultDatatype, parameters, m.isDeprecated)];
    }
    var events := CopyParts(c.events);
    r := ClassDescriptor(c.classId, c.name, c.fixedRole, properties, methods, events);
  }

  method CopyParts<T>(s: seq<Nc<T>>) returns (r: seq<T>)
    ensures r == Parts(s)
  {
    r := [];
    for i := 0 to |s|
      invariant |r| == i && forall k :: 0 <= k < i ==> r[k] == s[k].part
    {
      r := r + [s[i].part];
    }
  }

  method ClassDescriptorToNcClassDescriptor(d: ClassDescriptor) returns (r: NcClassDescriptor)
    ensures r == Full(d)
  {
    var properties := WrapParts(d.properties);
    var methods: seq<Nc<NcMethod>> := [];
    for i := 0 to |d.methods|
      invariant |methods| == i && forall k :: 0 <= k < i ==> methods[k] == Nc("", FullMethod(d.methods[k]))
    {
      var m := d.methods[i];
      var parameters := WrapParts(m.parameters);
      methods := methods + [Nc("", NcMethod(m.id, m.name, m.resultDatatype, parameters, m.isDeprecated))];
    }
    var events := WrapParts(d.events);
    assert methods == Full(d).part.methods;
    r := Nc("", NcClass(d.classId, d.name, d.fixedRole, properties, methods, events));
  }

  method WrapParts<T>(s: seq<T>) returns (r: seq<Nc<T>>)
    ensures r == Undescribed(s)
  {
    r := [];
    for i := 0 to |s|
      invariant |r| == i && forall k :: 0 <= k < i ==> r[k] == Nc("", s[k])
    {
      r := r + [Nc("", s[i])];
    }
  }

  predicate NoDescriptions<T>(s: seq<Nc<T>>) {
    forall k :: 0 <= k < |s| ==> s[k].description == ""
  }

  /** No part of the descriptor says anything in its description. */
  predicate NoTexts(d: NcClassDescriptor) {
    && d.description == "" && NoDescriptions(d.part.properties) && NoDescriptions(d.part.events)
    && NoDescriptions(d.part.methods)
    && forall k :: 0 <= k < |d.part.methods| ==> NoDescriptions(d.part.methods[k].part.parameters)
  }

  lemma PartsOfUndescribed<T>(s: seq<T>)
    ensures Parts(Undescribed(s)) == s
  {
  }

  lemma UndescribedParts<T>(s: seq<Nc<T>>)
    ensures Undescribed(Parts(s)) == s <==> NoDescriptions(s)
  {
    if Undescribed(Parts(s)) == s {
      assert forall k :: 0 <= k < |s| ==> Undescribed(Parts(s))[k] == s[k];
    }
  }

  /** From the class manager's form to the controller's and back is the identity. */
  lemma FullThenPlain(d: ClassDescriptor)
    ensures Stripped(Full(d)) == d
  {
    PartsOfUndescribed(d.properties);
    PartsOfUndescribed(d.events);
    forall k | 0 <= k < |d.methods|
      ensures PlainMethod(FullMethod(d.methods[k])) == d.methods[k]
    {
      PartsOfUndescribed(d.methods[k].parameters);
    }
    assert Stripped(Full(d)).methods == d.methods;
  }

  /** From the controller's form and back only the descriptions are lost: it is the identity exactly on the
      descriptors without any. */
  lemma PlainThenFullIff(d: NcClassDescriptor)
    ensures Full(Stripped(d)) == d <==> NoTexts(d)
  {
    hide NoDescriptions;
    var c, back := d.part, Full(Stripped(d));
    UndescribedParts(c.properties);
    UndescribedParts(c.events);
    forall k | 0 <= k < |c.methods|
      ensures back.part.methods[k] == c.methods[k] <==>
                c.methods[k].description == "" && NoDescriptions(c.methods[k].part.parameters)
    {
      UndescribedParts(c.methods[k].part.parameters);
    }
    MethodsSame(back.part.methods, c.methods);
  }

  lemma MethodsSame(back: seq<Nc<NcMethod>>, methods: seq<Nc<NcMethod>>)
    requires |back| == |methods|
    requires forall k :: 0 <= k < |methods| ==>
               (back[k] == methods[k] <==>
                  methods[k].description == "" && NoDescriptions(methods[k].part.parameters))
    ensures back == methods <==>
              NoDescriptions(methods) &&
              forall k :: 0 <= k < |methods| ==> NoDescriptions(methods[k].part.parameters)
  {
  }

  // ---------------------------------------------------------------- the standard classes

  function Prop(level: int, index: int, name: string, typeName: string, isReadOnly: bool): Property {
    Property(ElementId(level, index), name, typeName, isReadOnly, false, false, false)
  }

  function Nullable(p: Property): Property {
    p.(isNullable := true)
  }

  function Many(p: Property): Property {
    p.(isSequence := true)
  }

  function Op(level: int, index: int, name: string, resultDatatype: string): Method {
    Method(ElementId(level, index), name, resultDatatype, [], false)
  }

  const NC_OBJECT := ClassDescriptor([1], "NcObject", None,
    [Prop(1, 1, "classId", "NcClassId", true), Prop(1, 2, "oid", "NcOid", true),
     Prop(1, 3, "constantOid", "NcBoolean", true), Nullable(Prop(1, 4, "owner", "NcOid", true)),
     Prop(1, 5, "role", "NcString", true), Nullable(Prop(1, 6, "userLabel", "NcString", false)),
     Many(Prop(1, 7, "touchpoints", "NcTouchpoint", true)),
     Many(Prop(1, 8, "runtimePropertyConstraints", "NcPropertyConstraints", true))],
    [Op(1, 1, "Get", "NcMethodResultPropertyValue"), Op(1, 2, "Set", "NcMethodResult"),
     Op(1, 3, "GetSequenceItem", "NcMethodResultPropertyValue"), Op(1, 4, "SetSequenceItem", "NcMethodResult"),
     Op(1, 5, "AddSequenceItem", "NcMethodResult"), Op(1, 6, "RemoveSequenceItem", "NcMethodResult"),
     Op(1, 7, "GetSequenceLength", "NcMethodResultPropertyValue")],
    [Event(ElementId(1, 1), "PropertyChanged", "NcPropertyChangedEventData", false)])

  const NC_BLOCK := ClassDescriptor([1, 1], "NcBlock", None,
    [Prop(2, 1, "enabled", "NcBoolean", true), Many(Prop(2, 2, "members", "NcBlockMemberDescriptor", true))],
    [Op(2, 1, "GetMemberDescriptors", "NcMethodResultBlockMemberDescriptors"),
     Op(2, 2, "FindMembersByPath", "NcMethodResultBlockMemberDescriptors"),
     Op(2, 3, "FindMembersByRole", "NcMethodResultBlockMemberDescriptors"),
     Op(2, 4, "FindMembersByClassId", "NcMethodResultBlockMemberDescriptors")], [])

  const NC_WORKER := ClassDescriptor([1, 2], "NcWorker", None, [Prop(2, 1, "enabled", "NcBoolean", false)], [], [])

  const NC_DEVICE_MANAGER := ClassDescriptor([1, 3, 1], "NcDeviceManager", Some("DeviceManager"),
    [Prop(3, 1, "ncVersion", "NcVersionCode", true), Prop(3, 2, "manufacturer", "NcManufacturer", true),
     Prop(3, 3, "product", "NcProduct", true), Prop(3, 4, "serialNumber", "NcString", true),
     Nullable(Prop(3, 5, "userInventoryCode", "NcString", false)),
     Nullable(Prop(3, 6, "deviceName", "NcString", false)), Nullable(Prop(3, 7, "deviceRole", "NcString", false)),
     Prop(3, 8, "operationalState", "NcDeviceOperationalState", true), Prop(3, 9, "resetCause", "NcResetCause", true),
     Nullable(Prop(3, 10, "message", "NcString", true))], [], [])

  const NC_CLASS_MANAGER := ClassDescriptor([1, 3, 2], "NcClassManager", Some("ClassManager"),
    [Many(Prop(3, 1, "controlClasses", "NcClassDescriptor", true)),
     Many(Prop(3, 2, "datatypes", "NcDatatypeDescriptor", true))],
    [Op(3, 1, "GetControlClass", "NcMethodResultClassDescriptor"),
     Op(3, 2, "GetDatatype", "NcMethodResultDatatypeDescriptor")], [])

  const STANDARD: seq<(seq<int>, ClassDescriptor)> :=
    [([1], NC_OBJECT), ([1, 1], NC_BLOCK), ([1, 2], NC_WORKER), ([1, 3, 1], NC_DEVICE_MANAGER),
     ([1, 3, 2], NC_CLASS_MANAGER)]

  /** Each standard class is under its own identifier. */
  lemma StandardKeys()
    ensures Key([1]) == "1" && Key([1, 1]) == "1.1" && Key([1, 2]) == "1.2"
    ensures Key([1, 3, 1]) == "1.3.1" && Key([1, 3, 2]) == "1.3.2"
    ensures forall k :: 0 <= k < |STANDARD| ==> STANDARD[k].0 == STANDARD[k].1.classId
  {
    assert Itoa(1) == "1" && Itoa(2) == "2" && Itoa(3) == "3";
    OneKey(1);
    TwoKeys(1, 1);
    TwoKeys(1, 2);
    ThreeKeys(1, 3, 1);
    ThreeKeys(1, 3, 2);
  }

  /** The elements of each standard class are numbered through: properties and methods alike, from one, at the level
      of the class, which is the length of its identifier; and only read-only properties are sequences. */
  lemma Numbered(i: nat, k: nat)
    requires i < |STANDARD|
    ensures var c := STANDARD[i].1;
            (k < |c.properties| ==> c.properties[k].id == ElementId(|c.classId|, k + 1)) &&
            (k < |c.methods| ==> c.methods[k].id == ElementId(|c.classId|, k + 1)) &&
            (k < |c.events| ==> c.events[k].id == ElementId(|c.classId|, k + 1)) &&
            (k < |c.properties| && c.properties[k].isSequence ==> c.properties[k].isReadOnly)
  {
  }

  function IdOf(p: Property): Nca.PropertyId {
    Nca.PropertyId(p.id.level, p.id.index)
  }

  /** What the descriptors of the object and of the device manager declare writable is exactly what the device
      manager lets be set, and under these names. */
  lemma WritableIff(k: nat)
    requires k < |NC_OBJECT.properties + NC_DEVICE_MANAGER.properties|
    ensures var p := (NC_OBJECT.properties + NC_DEVICE_MANAGER.properties)[k];
            (!p.isReadOnly <==>
               IdOf(p) == Nca.USER_LABEL || IdOf(p) == Nca.USER_INVENTORY_CODE || IdOf(p) == Nca.DEVICE_NAME ||
               IdOf(p) == Nca.DEVICE_ROLE) &&
            (IdOf(p) == Nca.USER_LABEL <==> p.name == "userLabel") &&
            (IdOf(p) == Nca.USER_INVENTORY_CODE <==> p.name == "userInventoryCode") &&
            (IdOf(p) == Nca.DEVICE_NAME <==> p.name == "deviceName") &&
            (IdOf(p) == Nca.DEVICE_ROLE <==> p.name == "deviceRole") &&
            (!p.isReadOnly ==> p.typeName == "NcString")
  {
    WritableNames(k);
  }

  /** The four names are the ones at these places. */
  lemma WritableNames(k: nat)
    requires k < |NC_OBJECT.properties + NC_DEVICE_MANAGER.properties|
    ensures var name := (NC_OBJECT.properties + NC_DEVICE_MANAGER.properties)[k].name;
            (name == "userLabel" <==> k == 5) && (name == "userInventoryCode" <==> k == 12) &&
            (name == "deviceName" <==> k == 13) && (name == "deviceRole" <==> k == 14)
  {
    assert |"userLabel"| == 9 && |"userInventoryCode"| == 17 && |"deviceName"| == 10 && |"deviceRole"| == 10;
    assert "deviceName"[6] == 'N' && "deviceRole"[6] == 'R';
  }

  /** What a worker's class declares writable of its own cannot be set, while its value can, which no class
      declares. */
  lemma WorkerEnabledRefused()
    ensures !NC_WORKER.properties[0].isReadOnly && IdOf(NC_WORKER.properties[0]) != Nca.WORKER_VALUE
    ensures IdOf(NC_WORKER.properties[0]) != Nca.USER_LABEL
    ensures forall p :: p in NC_OBJECT.properties || p in NC_WORKER.properties ==> IdOf(p) != Nca.WORKER_VALUE
  {
  }

  lemma OneKey(a: int)
    ensures Key([a]) == Itoa(a)
  {
    hide Itoa;
    assert [a][1..] == [];
  }

  lemma TwoKeys(a: int, b: int)
    ensures Key([a, b]) == Itoa(a) + "." + Itoa(b)
  {
    hide Itoa;
    assert [a, b][1..] == [b] && [b][1..] == [];
    assert Dotted([b]) == "." + Itoa(b) + "";
  }

  lemma ThreeKeys(a: int, b: int, c: int)
    ensures Key([a, b, c]) == Itoa(a) + "." + Itoa(b) + "." + Itoa(c)
  {
    hide Itoa;
    assert [a, b, c][1..] == [b, c] && [b, c][1..] == [c] && [c][1..] == [];
    assert Dotted([c]) == "." + Itoa(c) + "";
    assert Dotted([b, c]) == "." + Itoa(b) + Dotted([c]);
  }

  // ---------------------------------------------------------------- the registry of classes

  class ClassManager {
    var classes: map<string, ClassDescriptor>
    /** What was registered, in order. */
    ghost var history: seq<(seq<int>, ClassDescriptor)>

    ghost predicate Valid()
      reads this
    {
      forall id: seq<int> :: (Key(id) in classes <==> Latest(history, id).Some?) &&
                             (Key(id) in classes ==> Latest(history, id) == Some(classes[Key(id)]))
    }

    /** The standard classes are there from the start, under their literal keys. */
    constructor ()
      ensures Valid() && history == STANDARD
    {
      classes, history := map[], [];
      new;
      StandardKeys();
      File("1", [1], NC_OBJECT);
      File("1.1", [1, 1], NC_BLOCK);
      File("1.2", [1, 2], NC_WORKER);
      File("1.3.1", [1, 3, 1], NC_DEVICE_MANAGER);
      File("1.3.2", [1, 3, 2], NC_CLASS_MANAGER);
    }

    /** Files a class, replacing what its identifier had. */
    method RegisterClass(classId: seq<int>, descriptor: ClassDescriptor)
      requires Valid()
      modifies this
      ensures Valid() && history == old(history) + [(classId, descriptor)]
    {
      var key := ClassIdToKey(classId);
      File(key, classId, descriptor);
    }

    /** Files a class under its key. */
    method File(key: string, ghost classId: seq<int>, descriptor: ClassDescriptor)
      requires Valid() && key == Key(classId)
      modifies this
      ensures Valid() && history == old(history) + [(classId, descriptor)]
    {
      classes := classes[key := descriptor];
      history := history + [(classId, descriptor)];
      forall id: seq<int>
        ensures (Key(id) in classes <==> Latest(history, id).Some?) &&
                (Key(id) in classes ==> Latest(history, id) == Some(classes[Key(id)]))
      {
        LatestStep(old(history), classId, descriptor, id);
        if Key(id) == key {
          KeyInjective(id, classId);
        }
        assert Key(id) in old(classes) <==> Latest(old(history), id).Some?;
      }
    }

    /** The class most recently registered under exactly this identifier, if any. */
    method GetControlClass(classId: seq<int>) returns (found: Option<ClassDescriptor>)
      requires Valid()
      ensures found == Latest(history, classId)
    {
      var key := ClassIdToKey(classId);
      assert Key(classId) in classes <==> Latest(history, classId).Some?;
      found := if key in classes then Some(classes[key]) else None;
    }
  }

  /** The last descriptor registered under an identifier. */
  ghost function Latest<T>(history: seq<(seq<int>, T)>, classId: seq<int>): Option<T> {
    if history == [] then None
    else if history[|history| - 1].0 == classId then Some(history[|history| - 1].1)
    else Latest(history[..|history| - 1], classId)
  }

  lemma LatestStep<T>(history: seq<(seq<int>, T)>, classId: seq<int>, descriptor: T, id: seq<int>)
    ensures Latest(history + [(classId, descriptor)], id) ==
            if classId == id then Some(descriptor) else Latest(history, id)
  {
    assert (history + [(classId, descriptor)])[..|history|] == history;
  }

  /** What is latest, without recursion: the last entry under that identifier, if there is one. */
  lemma {:induction false} LatestIs<T>(history: seq<(seq<int>, T)>, classId: seq<int>)
    ensures Latest(history, classId).None? <==> forall k :: 0 <= k < |history| ==> history[k].0 != classId
    ensures Latest(history, classId).Some? ==>
              exists k :: 0 <= k < |history| && history[k] == (classId, Latest(history, classId).value) &&
                          forall j :: k < j < |history| ==> history[j].0 != classId
  {
    if history != [] {
      var n := |history| - 1;
      LatestIs(history[..n], classId);
      assert forall k :: 0 <= k < n ==> history[..n][k] == history[k];
      if history[n].0 != classId && Latest(history, classId).Some? {
        var k :| 0 <= k < n && history[..n][k] == (classId, Latest(history, classId).value) &&
                 forall j :: k < j < n ==> history[..n][j].0 != classId;
        assert history[k] == (classId, Latest(history, classId).value);
      }
    }
  }

  /** The controller, with the class manager among its objects, if object 3 is one. */
  class NmosController {
    const manager: ClassManager?

    constructor (manager: ClassManager?)
      ensures this.manager == manager
    {
      this.manager := manager;
    }

    /** Files a class with the class manager, if there is one, in the manager's form. */
    method RegisterClass(d: NcClassDescriptor)
      requires manager != null ==> manager.Valid()
      modifies if manager != null then {manager} else {}
      ensures manager != null ==>
                manager.Valid() && manager.history == old(manager.history) + [(d.part.classId, Stripped(d))]
    {
      if manager != null {
        var key := ControllerClassIdToKey(d.part.classId);
        var descriptor := NcClassDescriptorToClassDescriptor(d);
        manager.File(key, d.part.classId, descriptor);
      }
    }
  }
}
