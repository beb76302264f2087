/**
 * The `NetworkType` value enum of the virtual-machine network editor:
 * three network kinds, each with a default interface type and the list
 * of interface types it allows, plus a string lookup table built once
 * from the list of all kinds.
 */
module NetworkTypes {
  import opened Wrappers
  import opened NetworkInterface

  /**
   * One instance of the enum. All fields are read-only after construction;
   * `allowedInterfaceTypesSet` is the set copy of the frozen list.
   */
  datatype NetworkType = NetworkType(
    value: string,
    defaultInterfaceType: NetworkInterfaceType,
    allowedInterfaceTypes: seq<NetworkInterfaceType>,
    allowedInterfaceTypesSet: set<NetworkInterfaceType>)

  /** The set copy holds exactly the members of the list. */
  predicate Valid(t: NetworkType) {
    t.allowedInterfaceTypesSet == set i | i in t.allowedInterfaceTypes
  }

  /** The (private) constructor: stores its arguments and builds the set copy. */
  function New(value: string, defaultInterfaceType: NetworkInterfaceType,
               allowedInterfaceTypes: seq<NetworkInterfaceType>): (t: NetworkType)
    ensures Valid(t)
    ensures t.value == value
    ensures GetDefaultInterfaceType(t) == defaultInterfaceType
    ensures GetAllowedInterfaceTypes(t) == allowedInterfaceTypes
    ensures forall i :: AllowsInterfaceType(t, i) <==> i in allowedInterfaceTypes
  {
    NetworkType(value, defaultInterfaceType, allowedInterfaceTypes, set i | i in allowedInterfaceTypes)
  }

  function GetDefaultInterfaceType(t: NetworkType): NetworkInterfaceType {
    t.defaultInterfaceType
  }

  function GetAllowedInterfaceTypes(t: NetworkType): seq<NetworkInterfaceType> {
    t.allowedInterfaceTypes
  }

  /** Answered from the set copy, not from the list. */
  function AllowsInterfaceType(t: NetworkType, interfaceType: NetworkInterfaceType): bool {
    interfaceType in t.allowedInterfaceTypesSet
  }

  const MULTUS: NetworkType := New("multus", Bridge, [Bridge, Sriov])
  const POD: NetworkType := New("pod", Masquerade, [Masquerade, Bridge, Sriov])
  const GENIE: NetworkType := New("genie", Bridge, [Bridge])

  /** The frozen list of all instances, in declaration order. */
  const ALL: seq<NetworkType> := [MULTUS, POD, GENIE]

  function GetAll(): seq<NetworkType> {
    ALL
  }

  /** No two entries of `ts` share a `value` string. */
  predicate DistinctValues(ts: seq<NetworkType>) {
    forall i, j | 0 <= i < |ts| && 0 <= j < |ts| && ts[i].value == ts[j].value :: i == j
  }

  /**
   * The lookup table: a left fold over `ts` that adds `value -> instance`
   * for each entry in turn (a later entry would overwrite an earlier one
   * with the same value).
   */
  function Mapper(ts: seq<NetworkType>): (m: map<string, NetworkType>)
    ensures m.Keys == set t | t in ts :: t.value
    ensures forall s | s in m :: m[s] in ts && m[s].value == s
  {
    if ts == [] then map[]
    else
      var init, last := ts[..|ts| - 1], ts[|ts| - 1];
      assert ts == init + [last];
      Mapper(init)[last.value := last]
  }

  const STRING_MAPPER: map<string, NetworkType> := Mapper(ALL)

  /** Lookup by value string; `None` where the source yields `undefined`. */
  function FromString(model: string): Option<NetworkType> {
    if model in STRING_MAPPER then Some(STRING_MAPPER[model]) else None
  }

  /**
   * The names a plain JavaScript object literal inherits from `Object.prototype`.
   * The lookup table is such an object, so indexing it with one of these names
   * finds an inherited member rather than `undefined`.
   */
  const OBJECT_PROTOTYPE_MEMBERS: set<string> := {
    "constructor", "hasOwnProperty", "isPrototypeOf", "propertyIsEnumerable",
    "toLocaleString", "toString", "valueOf", "__proto__",
    "__defineGetter__", "__defineSetter__", "__lookupGetter__", "__lookupSetter__"}

  /** What indexing the lookup-table object yields. */
  datatype Lookup = Variant(networkType: NetworkType) | Inherited(member: string) | Undefined

  /** `stringMapper[model]` as the source writes it: own keys first, then the prototype chain. */
  function FromStringAsWritten(model: string): Lookup {
    if model in STRING_MAPPER then Variant(STRING_MAPPER[model])
    else if model in OBJECT_PROTOTYPE_MEMBERS then Inherited(model)
    else Undefined
  }

  /** The as-written lookup returns something other than an instance or `undefined` for "toString". */
  lemma FromStringAsWrittenInheritsToString()
    ensures FromStringAsWritten("toString") == Inherited("toString")
    ensures FromString("toString") == None
  {
    assert "toString" !in STRING_MAPPER by {
      FromStringDomain("toString");
    }
  }

  /** Apart from the inherited names, the as-written lookup and `FromString` agree. */
  lemma FromStringAsWrittenAgrees(model: string)
    requires model !in OBJECT_PROTOTYPE_MEMBERS
    ensures FromStringAsWritten(model) == (if FromString(model).Some? then Variant(FromString(model).value) else Undefined)
  {
  }

  /** The serialised shape `{ value: string }` of an instance. */
  datatype Serialized = Serialized(value: string)

  /** A missing (`null`/`undefined`) argument yields `None`. */
  function FromSerialized(networkType: Option<Serialized>): Option<NetworkType> {
    match networkType
    case None => None
    case Some(x) => FromString(x.value)
  }

  /** When values are distinct, the table maps each entry's value back to that entry, whatever the order of `ts`. */
  lemma MapperFinds(ts: seq<NetworkType>, t: NetworkType)
    requires DistinctValues(ts)
    requires t in ts
    ensures t.value in Mapper(ts) && Mapper(ts)[t.value] == t
  {
    var m := Mapper(ts);
    assert t.value in m;
    var i :| 0 <= i < |ts| && ts[i] == t;
    var j :| 0 <= j < |ts| && ts[j] == m[t.value];
    assert ts[i].value == ts[j].value;
  }

  /** `getAll()` holds exactly the three instances, their values are pairwise distinct and each is well formed. */
  lemma GetAllContents()
    ensures |GetAll()| == 3
    ensures (set t | t in GetAll()) == {MULTUS, POD, GENIE}
    ensures DistinctValues(GetAll())
    ensures forall t | t in GetAll() :: Valid(t)
  {
  }

  /** Round trip: every instance is found again from its value string. */
  lemma FromStringRoundTrip(t: NetworkType)
    requires t in GetAll()
    ensures FromString(t.value) == Some(t)
  {
    GetAllContents();
    MapperFinds(ALL, t);
  }

  /** The lookup succeeds exactly for the three value strings, and only ever returns an instance with that value. */
  lemma FromStringDomain(model: string)
    ensures FromString(model).Some? <==> model in {"multus", "pod", "genie"}
    ensures FromString(model).Some? ==> FromString(model).value in GetAll() && FromString(model).value.value == model
  {
  }

  /** `fromSerialized` is `fromString` of the `value` field; a missing argument gives `None`. */
  lemma FromSerializedAgrees(networkType: Option<Serialized>)
    ensures networkType.None? ==> FromSerialized(networkType) == None
    ensures networkType.Some? ==> FromSerialized(networkType) == FromString(networkType.value.value)
    ensures forall t | t in GetAll() && networkType == Some(Serialized(t.value)) :: FromSerialized(networkType) == Some(t)
  {
    forall t | t in GetAll() && networkType == Some(Serialized(t.value))
      ensures FromSerialized(networkType) == Some(t)
    {
      FromStringRoundTrip(t);
    }
  }

  /** Each instance's default interface type is one it allows. */
  lemma DefaultIsAllowed(t: NetworkType)
    requires t in GetAll()
    ensures GetDefaultInterfaceType(t) in GetAllowedInterfaceTypes(t)
    ensures AllowsInterfaceType(t, GetDefaultInterfaceType(t))
  {
  }

  /** For a well-formed instance the set copy and the list agree. */
  lemma AllowsMatchesList(t: NetworkType, interfaceType: NetworkInterfaceType)
    requires Valid(t)
    ensures AllowsInterfaceType(t, interfaceType) <==> interfaceType in GetAllowedInterfaceTypes(t)
  {
  }

  /** The allow-lists of the three instances. */
  lemma AllowedInterfaceTypes(interfaceType: NetworkInterfaceType)
    ensures AllowsInterfaceType(GENIE, interfaceType) <==> interfaceType == Bridge
    ensures AllowsInterfaceType(MULTUS, interfaceType) <==> interfaceType == Bridge || interfaceType == Sriov
    ensures AllowsInterfaceType(POD, interfaceType) <==> interfaceType == Masquerade || interfaceType == Bridge || interfaceType == Sriov
    ensures forall t | t in GetAll() :: AllowsInterfaceType(t, Masquerade) <==> t == POD
  {
  }
}
