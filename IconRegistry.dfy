/**
 * The icon tables of the `Icon` component: the brand table `customIcons`,
 * the three icon packs and their merge into `reactIcons`, and the name
 * lookup that consults the brand table before the merged packs.
 */
module IconRegistry {
  import opened Wrappers

  /**
   * What a name resolves to. Pack exports and brand SVG assets are foreign
   * code, so a renderer is only a handle: an SVG asset by file name, or a
   * pack component by an opaque identifier. `InheritedMember` stands for a
   * property every plain JavaScript object inherits from `Object.prototype`
   * (such as `toString`); it only arises in `LookupAsWritten`.
   */
  datatype Renderer =
    | SvgAsset(file: string)
    | PackComponent(id: nat)
    | InheritedMember(property: string)

  /** A name-to-renderer table (an object used as a dictionary). */
  type Table = map<string, Renderer>

  const MiaPlatform: Renderer := SvgAsset("MiaPlatform.svg")
  const MiaPlatformColored: Renderer := SvgAsset("MiaPlatformColored.svg")

  /** The brand table: exactly the two brand marks. */
  const CustomIcons: Table :=
    map["MiaPlatform" := MiaPlatform, "MiaPlatformColored" := MiaPlatformColored]

  /** The contents of the three imported icon packs, which are not part of this model. */
  datatype Packs = Packs(feather: Table, phosphor: Table, ant: Table)

  /**
   * `{ ...feather, ...phosphor, ...ant }`: every name of any pack, and on a
   * collision the pack spread last wins (Ant over Phosphor over Feather).
   */
  function MergePacks(p: Packs): (r: Table)
    ensures r.Keys == p.feather.Keys + p.phosphor.Keys + p.ant.Keys
    ensures forall name :: name in p.ant ==> r[name] == p.ant[name]
    ensures forall name :: name in p.phosphor && name !in p.ant ==> r[name] == p.phosphor[name]
    ensures forall name :: name in p.feather && name !in p.phosphor && name !in p.ant ==>
      r[name] == p.feather[name]
  {
    p.feather + p.phosphor + p.ant
  }

  /** A name defined by exactly one pack maps, after the merge, to that pack's renderer. */
  lemma OnlyPackWins(p: Packs, name: string)
    requires name in p.feather || name in p.phosphor || name in p.ant
    ensures name in MergePacks(p)
    ensures name in p.feather && name !in p.phosphor && name !in p.ant ==>
      MergePacks(p)[name] == p.feather[name]
    ensures name !in p.feather && name in p.phosphor && name !in p.ant ==>
      MergePacks(p)[name] == p.phosphor[name]
    ensures name !in p.feather && name !in p.phosphor && name in p.ant ==>
      MergePacks(p)[name] == p.ant[name]
  {
  }

  /**
   * Name lookup with own-key membership: the brand table first, the merged
   * packs only when the name is not a brand name, and `None` for a name that
   * no table defines.
   */
  function Lookup(name: string, p: Packs): (r: Option<Renderer>)
    ensures name in CustomIcons ==> r == Some(CustomIcons[name])
    ensures name !in CustomIcons && name in p.ant ==> r == Some(p.ant[name])
    ensures name !in CustomIcons && name !in p.ant && name in p.phosphor ==>
      r == Some(p.phosphor[name])
    ensures name !in CustomIcons && name !in p.ant && name !in p.phosphor && name in p.feather ==>
      r == Some(p.feather[name])
    ensures r.None? <==>
      name !in CustomIcons && name !in p.feather && name !in p.phosphor && name !in p.ant
  {
    if name in CustomIcons then Some(CustomIcons[name])
    else
      var merged := MergePacks(p);
      if name in merged then Some(merged[name]) else None
  }

  /**
   * The names a plain object literal inherits from `Object.prototype`; the
   * JavaScript `in` operator reports each of them as present on every such object.
   */
  const ObjectPrototypeMembers: set<string> := {
    "constructor", "hasOwnProperty", "isPrototypeOf", "propertyIsEnumerable",
    "toLocaleString", "toString", "valueOf", "__proto__",
    "__defineGetter__", "__defineSetter__", "__lookupGetter__", "__lookupSetter__"
  }

  /** `name in obj` for a plain object literal whose own properties are `own`. */
  predicate JsIn(name: string, own: Table)
  {
    name in own || name in ObjectPrototypeMembers
  }

  /** `obj?.[name]` for a plain object literal: own property, then inherited one, else `undefined`. */
  function JsGet(own: Table, name: string): Option<Renderer>
  {
    if name in own then Some(own[name])
    else if name in ObjectPrototypeMembers then Some(InheritedMember(name))
    else None
  }

  /**
   * The lookup as the component writes it, with the JavaScript `in` operator
   * on `customIcons`. For every name that is not an `Object.prototype` member
   * it agrees with `Lookup`; a prototype member that is not a brand name
   * resolves to the inherited property instead of being reported missing.
   */
  function LookupAsWritten(name: string, p: Packs): (r: Option<Renderer>)
    ensures name !in ObjectPrototypeMembers ==> r == Lookup(name, p)
    ensures name in ObjectPrototypeMembers && name !in CustomIcons ==>
      r == Some(InheritedMember(name))
  {
    if JsIn(name, CustomIcons) then JsGet(CustomIcons, name)
    else JsGet(MergePacks(p), name)
  }
}
