/** What the generator writes for one route class, section by section, as the
    effect each section has on the output and on the logger.

    The property loops of the generator look every property up in the
    property map; at the first property the map does not know, the loop
    reports an invalid type argument and the routine returns at once. So
    each looping section is specified by the properties before the first
    miss (`MappedPrefix`) and by what it does at the miss, if there is one. */
module Sections {
  import opened Descriptors
  import opened Emission
  import opened Rules
  import opened TypeRendering

  /** What one generator run is configured with. */
  datatype Setting = Setting(
    options: map<string, string>,
    argumentProviderMap: map<ClassDecl, ClassDecl>,
    propertyMap: map<PropertyDecl, PropertyInfo>,
    singletonClass: Option<ClassDecl>)
  {
    /** Type arguments are written as `*` only for the exact option value
        "true". */
    predicate IgnoreGenericArgs()
    {
      "ignoreGenericArgs" in options && options["ignoreGenericArgs"] == "true"
    }

    function Extension(): string
    {
      SingletonExtension(singletonClass)
    }

    /** With no singleton receiver, everything goes into a wrapper class. */
    predicate Wrapped()
    {
      singletonClass.None?
    }
  }

  // ------------------------------------------------------ property lookups

  /** How many properties, from the first, the property map knows. */
  function MappedPrefix(props: seq<PropertyDecl>, propertyMap: map<PropertyDecl, PropertyInfo>): (k: nat)
    ensures k <= |props|
    ensures forall j :: 0 <= j < k ==> props[j] in propertyMap
    ensures k < |props| ==> props[k] !in propertyMap
  {
    if props == [] || props[0] !in propertyMap then 0
    else 1 + MappedPrefix(props[1..], propertyMap)
  }

  /** The property map knows every property. */
  predicate AllMapped(props: seq<PropertyDecl>, propertyMap: map<PropertyDecl, PropertyInfo>)
  {
    MappedPrefix(props, propertyMap) == |props|
  }

  /** A property loop's effect: the effect of the properties before the
      first miss, and the diagnostic when there is a miss. */
  function UntilMiss(body: Effect, missed: bool): Effect
  {
    if missed then body.Then(Report(InvalidTypeArgument)) else body
  }

  /** `e` when `c` holds, nothing otherwise: a section's closing part is
      written only when its loop completed. */
  function When(c: bool, e: Effect): Effect
  {
    if c then e else Emit([])
  }

  // ------------------------------------------------------------ wrappers

  /** Opens the wrapper class, when there is one. */
  function WrapperOpen(s: Setting, route: string): Effect
  {
    if s.Wrapped() then Emit([Line("class " + route + "Destination {")]).Then(Emit([Indent])) else Emit([])
  }

  /** Opens the companion object, when there is a wrapper class. */
  function CompanionOpen(s: Setting): Effect
  {
    if s.Wrapped() then Emit([Line("companion object {")]).Then(Emit([Indent])) else Emit([])
  }

  /** Closes one of the two blocks `WrapperOpen` and `CompanionOpen` open. */
  function BlockClose(s: Setting): Effect
  {
    if s.Wrapped() then Emit([Dedent]).Then(Emit([Line("}")])) else Emit([])
  }

  // ---------------------------------------------------- the arguments class

  /** One constructor parameter of the arguments data class. */
  function FieldEffect(s: Setting, info: PropertyInfo): Effect
  {
    Emit([Line("val " + info.propertyName + ": ")])
      .Then(VariableTypeEffect(info, s.IgnoreGenericArgs()))
      .Then(Emit([Phrase(", ")]))
  }

  function DataClassHead(dataClassName: string): Effect
  {
    Emit([Line("data class " + dataClassName + " (")]).Then(Emit([Indent]))
  }

  function DataClassClose(): Effect
  {
    Emit([Dedent]).Then(Emit([Line(")")]))
  }

  /** The arguments data class. At a lookup miss the class is left open. */
  function DataClassEffect(s: Setting, dataClassName: string, props: seq<PropertyDecl>): Effect
  {
    DataClassHead(dataClassName)
      .Then(LoopEffect(s, Fields, props))
      .Then(When(AllMapped(props, s.propertyMap), DataClassClose()))
  }

  // --------------------------------------------------------- the decoders

  /** The fallback a non-nullable opaque property gets. */
  function ThrowIfMissing(info: PropertyInfo): seq<Op>
  {
    PhraseIf(!info.isNullable, NotFoundFallback)
  }

  /** The bundle read of a parcelable property, whose type is written as the
      read's type argument. */
  function ParcelableRead(info: PropertyInfo, ignoreGenericArgs: bool): Effect
  {
    Emit([Phrase(BundleReceiver + "getParcelable<")])
      .Then(VariableTypeEffect(info, ignoreGenericArgs))
      .Then(Emit([Phrase(">(\"" + info.propertyName + "\")")]))
      .Then(Emit(ThrowIfMissing(info)))
  }

  /** The bundle read of a parcelable list, whose element type is the type
      arguments of the property's type. */
  function ParcelableArrayRead(info: PropertyInfo, ignoreGenericArgs: bool): Effect
  {
    Emit([Phrase(BundleReceiver + "getParcelableArrayList")])
      .Then(ChildArgumentsEffect(info.typeArguments, ignoreGenericArgs))
      .Then(Emit([Phrase("(\"" + info.propertyName + "\")")]))
      .Then(Emit(ThrowIfMissing(info)))
  }

  /** The bundle read of a serializable property, cast to the property's
      type: a safe cast when the property is nullable. */
  function SerializableRead(info: PropertyInfo, ignoreGenericArgs: bool): Effect
  {
    Emit([Phrase(BundleReceiver + "getSerializable")])
      .Then(Emit([Phrase("(\"" + info.propertyName + "\") as")]))
      .Then(Emit(PhraseIf(info.isNullable, "?")))
      .Then(Emit([Phrase(" ")]))
      .Then(VariableTypeEffect(info, ignoreGenericArgs))
      .Then(Emit(ThrowIfMissing(info)))
  }

  /** The decoder's own read of a scalar or primitive-array property, and the
      kind's literal when the property is not nullable. */
  function ScalarRead(decoder: Decoder, info: PropertyInfo): Effect
    requires !info.composeArgumentType.IsOpaque()
  {
    var kind := info.composeArgumentType;
    Emit([Phrase(DecoderPhrase(decoder, kind, info.propertyName).value)])
      .Then(Emit(PhraseIf(!info.isNullable, " ?: " + DefaultLiteral(kind).value)))
  }

  /** How a decoder reads one property. The scalar and primitive-array kinds
      use the decoder's own read; the opaque kinds always read the navigation
      bundle, whichever the decoder. */
  function ParsedElementEffect(decoder: Decoder, info: PropertyInfo, ignoreGenericArgs: bool): Effect
  {
    match info.composeArgumentType
    case Parcelable => ParcelableRead(info, ignoreGenericArgs)
    case ParcelableArray => ParcelableArrayRead(info, ignoreGenericArgs)
    case Serializable => SerializableRead(info, ignoreGenericArgs)
    case _ => ScalarRead(decoder, info)
  }

  /** One named argument of the constructor call a decoder returns. */
  function ParseItemEffect(decoder: Decoder, info: PropertyInfo, ignoreGenericArgs: bool): Effect
  {
    Emit([Line(info.propertyName + " = ")])
      .Then(ParsedElementEffect(decoder, info, ignoreGenericArgs))
      .Then(Emit([Phrase(", ")]))
  }

  /** The header line of a decoder function with the given signature. */
  function ParseFunctionHeader(s: Setting, dataClassName: string, signature: string): string
  {
    "fun " + s.Extension() + signature + ": " + dataClassName + " {"
  }

  function ParseFunctionHead(s: Setting, dataClassName: string, signature: string): Effect
  {
    Emit([Line(ParseFunctionHeader(s, dataClassName, signature))])
      .Then(Emit([Indent]))
      .Then(Emit([Line("return ")]))
      .Then(Emit([Phrase(dataClassName + "(")]))
      .Then(Emit([Indent]))
  }

  /** Closes the constructor call and the function body. */
  function ParseFunctionClose(): Effect
  {
    Emit([Dedent]).Then(Emit([Line(")")])).Then(Emit([Dedent])).Then(Emit([Line("}")]))
  }

  /** A decoder function. At a lookup miss the function is left open. */
  function ParseFunctionEffect(
    s: Setting, dataClassName: string, props: seq<PropertyDecl>, signature: string, decoder: Decoder): Effect
  {
    ParseFunctionHead(s, dataClassName, signature)
      .Then(LoopEffect(s, ParseItems(decoder), props))
      .Then(When(AllMapped(props, s.propertyMap), ParseFunctionClose()))
  }

  /** The bundle decoder's signature: `parseArguments` with the back-stack
      entry as its one parameter. */
  const BundleSignature := "parseArguments(" + BundleParameter + ")"
  const BundleParameter := "backStackEntry: NavBackStackEntry"

  const StateParameter := "savedStateHandle: SavedStateHandle"

  /** The saved-state decoder's signature as the visitor passes it: the bare
      parameter, with neither a function name nor parentheses around it. */
  const StateSignatureAsWritten := StateParameter

  /** The saved-state decoder's signature with the function name and the
      parentheses the bundle decoder's has. */
  const StateSignature := "parseArguments(" + StateParameter + ")"

  // ---------------------------------------------------- the argument list

  /** The text standing for a default value: the provider's member, or, when
      there is no provider, a diagnostic, and the text of what the logger
      returned in the provider's place. */
  function DefaultValueEffect(prefix: string, provider: Option<string>, name: string): Effect
  {
    match provider
    case Some(p) => Emit([Phrase(prefix + p + "." + name)])
    case None => Report(NoProviderFound(name)).Then(Emit([Phrase(prefix + UnitText + "." + name)]))
  }

  /** The start of one `navArgument` registration, one level deeper than the
      list: its name, navigation type and nullability. */
  function NavArgumentHead(route: string, info: PropertyInfo): Effect
  {
    Emit([Indent])
      .Then(Emit([Line("navArgument(\"" + info.propertyName + "\") {")]))
      .Then(Emit([Indent]))
      .Then(Emit([Line("type = " + NavTypeTag(route, info))]))
      .Then(Emit([Line("nullable = " + BoolText(info.isNullable))]))
  }

  /** The default-value line, for a property that has a default. */
  function DefaultLineEffect(info: PropertyInfo, provider: Option<string>): Effect
  {
    if info.hasDefaultValue then
      Emit([Line("defaultValue = ")]).Then(DefaultValueEffect("", provider, info.propertyName))
    else Emit([])
  }

  function NavArgumentEffect(route: string, info: PropertyInfo, provider: Option<string>): Effect
  {
    NavArgumentHead(route, info)
      .Then(DefaultLineEffect(info, provider))
      .Then(Emit([Dedent]))
      .Then(Emit([Line("},")]))
      .Then(Emit([Dedent]))
  }

  function Placeholder(name: string): string
  {
    name + "={" + name + "}"
  }

  /** The query the argument list accumulates over the first `n` properties:
      a placeholder per property, each followed by a comma unless its
      position (counted from 1) equals `size`. */
  function ArgumentString(props: seq<PropertyDecl>, propertyMap: map<PropertyDecl, PropertyInfo>, n: nat, size: int): string
    requires n <= MappedPrefix(props, propertyMap)
  {
    if n == 0 then ""
    else ArgumentString(props, propertyMap, n - 1, size) + Placeholder(propertyMap[props[n - 1]].propertyName)
         + (if n != size then "," else "")
  }

  function ArgumentListHead(s: Setting): Effect
  {
    Emit([Line("val " + s.Extension() + "argumentList")])
      .Then(Emit([Phrase(": MutableList<NamedNavArgument> ")]))
      .Then(Emit([Indent]))
      .Then(Emit([Line("get() = mutableListOf(")]))
  }

  function ArgumentListClose(): Effect
  {
    Emit([Line(")")]).Then(Emit([Dedent]))
  }

  /** The argument list. At a lookup miss the list is left open. */
  function ArgumentListEffect(s: Setting, route: string, props: seq<PropertyDecl>, provider: Option<string>): Effect
  {
    ArgumentListHead(s)
      .Then(LoopEffect(s, Registrations(route, provider), props))
      .Then(When(AllMapped(props, s.propertyMap), ArgumentListClose()))
  }

  // ------------------------------------------------------ the route builder

  /** The default of a builder parameter, for a property that has one. */
  function DefaultParameterEffect(info: PropertyInfo, provider: Option<string>): Effect
  {
    if info.hasDefaultValue then DefaultValueEffect(" = ", provider, info.propertyName) else Emit([])
  }

  /** One parameter of the route builder, with its default when it has one. */
  function ParameterEffect(s: Setting, info: PropertyInfo, provider: Option<string>): Effect
  {
    Emit([Phrase(info.propertyName + ": ")])
      .Then(VariableTypeEffect(info, s.IgnoreGenericArgs()))
      .Then(DefaultParameterEffect(info, provider))
      .Then(Emit([Phrase(", ")]))
  }

  /** The string literal that closes the builder entry at position `count`. */
  function EntryClose(count: int, size: int): string
  {
    if count == size then "\"" else ",\""
  }

  /** The builder's entry for the property at position `count`. */
  function EntryEffect(info: PropertyInfo, count: int, size: int): Effect
  {
    Emit([Line("\"" + info.propertyName + "=")])
      .Then(Emit([Phrase(RouteEncoding(info.composeArgumentType, info.propertyName))]))
      .Then(Emit([Phrase(EntryClose(count, size))]))
      .Then(Emit([Phrase(" + ")]))
  }

  /** The line the builder's body starts with. */
  function ReturnLine(route: string, size: int): string
  {
    "return \"" + route + (if size > 0 then "?" else "") + "\" + "
  }

  function BuilderBodyHead(route: string, size: int): Effect
  {
    Emit([Phrase("): String {")])
      .Then(Emit([Indent]))
      .Then(Emit([Line(ReturnLine(route, size))]))
      .Then(Emit([Indent]))
      .Then(Emit([Indent]))
  }

  function BuilderBodyTail(): Effect
  {
    Emit([Line("\"\"")]).Then(Emit([Dedent])).Then(Emit([Dedent])).Then(Emit([Dedent])).Then(Emit([Line("}")]))
  }

  /** The route builder, for properties the map all knows. */
  function BuilderEffect(s: Setting, route: string, props: seq<PropertyDecl>, provider: Option<string>): Effect
    requires AllMapped(props, s.propertyMap)
  {
    Emit([Line("fun " + s.Extension() + "getDestination(")])
      .Then(PrefixEffect(s, Parameters(provider), props, |props|))
      .Then(BuilderBodyHead(route, |s.propertyMap|))
      .Then(PrefixEffect(s, Entries, props, |props|))
      .Then(BuilderBodyTail())
  }

  // ------------------------------------------------------ the route pattern

  /** The string literal the route property is defined as. */
  function RouteLiteral(route: string, argumentString: string): string
  {
    "\"" + route + (if argumentString != "" then "?" + argumentString else "") + "\""
  }

  /** The query part of the route, when there is one. */
  function RouteQuery(argumentString: string): Effect
  {
    if argumentString != "" then Emit([Phrase("?")]).Then(Emit([Phrase(argumentString)])) else Emit([])
  }

  function RouteEffect(s: Setting, route: string, argumentString: string): Effect
  {
    Emit([Line("val " + s.Extension() + "route")])
      .Then(Emit([Indent]))
      .Then(Emit([Line("get() = ")]))
      .Then(Emit([Phrase("\"" + route)]))
      .Then(RouteQuery(argumentString))
      .Then(Emit([Phrase("\"")]))
      .Then(Emit([Dedent]))
  }

  // ------------------------------------------------- the property loops

  /** The loops of the generator that write something for each property, by
      what they write for one. */
  datatype Loop =
    | Fields                                                  // the arguments class
    | ParseItems(decoder: Decoder)                            // a decoder function
    | Registrations(route: string, provider: Option<string>)  // the argument list
    | Parameters(provider: Option<string>)                    // the builder's parameters
    | Entries                                                 // the builder's query entries

  /** What `loop` writes for the property `info` at position `count`
      (counted from 1). */
  function ItemEffect(s: Setting, loop: Loop, info: PropertyInfo, count: nat): Effect
  {
    match loop
    case Fields => FieldEffect(s, info)
    case ParseItems(decoder) => ParseItemEffect(decoder, info, s.IgnoreGenericArgs())
    case Registrations(route, provider) => NavArgumentEffect(route, info, provider)
    case Parameters(provider) => ParameterEffect(s, info, provider)
    case Entries => EntryEffect(info, count, |s.propertyMap|)
  }

  /** `ItemEffect`, reached through `k` steps. Every count states the same
      (`ItemNow`); the count only keeps the verifier from unfolding an item
      where a loop's effect is merely passed on. */
  function ItemAfter(k: nat, s: Setting, loop: Loop, info: PropertyInfo, count: nat): Effect
  {
    if k == 0 then ItemEffect(s, loop, info, count) else ItemAfter(k - 1, s, loop, info, count)
  }

  lemma ItemNow(s: Setting, loop: Loop, info: PropertyInfo, count: nat)
    ensures ItemAfter(3, s, loop, info, count) == ItemEffect(s, loop, info, count)
  {
    assert ItemAfter(1, s, loop, info, count) == ItemAfter(0, s, loop, info, count);
    assert ItemAfter(2, s, loop, info, count) == ItemAfter(1, s, loop, info, count);
  }

  /** What `loop` writes for the first `n` properties, all known to the map. */
  function PrefixEffect(s: Setting, loop: Loop, props: seq<PropertyDecl>, n: nat): Effect
    requires n <= MappedPrefix(props, s.propertyMap)
  {
    if n == 0 then Emit([])
    else PrefixEffect(s, loop, props, n - 1).Then(ItemAfter(3, s, loop, s.propertyMap[props[n - 1]], n))
  }

  /** What `loop` writes and reports: its items up to the first property the
      map does not know, and the diagnostic at that miss. */
  function LoopEffect(s: Setting, loop: Loop, props: seq<PropertyDecl>): Effect
  {
    var k := MappedPrefix(props, s.propertyMap);
    UntilMiss(PrefixEffect(s, loop, props, k), k < |props|)
  }

  // ------------------------------------------------------ loop steps
  // One more mapped property extends each per-property effect by the
  // effect for that property.

  /** A property the map knows, at or before the first miss, is before it. */
  lemma StillMapped(props: seq<PropertyDecl>, propertyMap: map<PropertyDecl, PropertyInfo>, i: nat)
    requires i <= MappedPrefix(props, propertyMap) && i < |props| && props[i] in propertyMap
    ensures i < MappedPrefix(props, propertyMap)
  {
  }

  /** A property the map does not know, at or before the first miss, is the
      first miss. */
  lemma FirstMiss(props: seq<PropertyDecl>, propertyMap: map<PropertyDecl, PropertyInfo>, i: nat)
    requires i <= MappedPrefix(props, propertyMap) && i < |props| && props[i] !in propertyMap
    ensures i == MappedPrefix(props, propertyMap)
  {
  }

  /** The query after the property at index `i`, at position `count`. */
  lemma ArgumentStringStep(
    props: seq<PropertyDecl>, propertyMap: map<PropertyDecl, PropertyInfo>, i: nat, count: int, size: int,
    before: string, after: string)
    requires i < MappedPrefix(props, propertyMap) && count == i + 1
    requires before == ArgumentString(props, propertyMap, i, size)
    requires after == before + Placeholder(propertyMap[props[i]].propertyName) + (if count != size then "," else "")
    ensures after == ArgumentString(props, propertyMap, i + 1, size)
  {
  }

  // ------------------------------------------------------ the whole visit

  /** The wrapper class and, when the map is not empty, the arguments class. */
  function OpeningEffect(s: Setting, cls: ClassDecl): Effect
  {
    WrapperOpen(s, cls.simpleName)
      .Then(When(|s.propertyMap| > 0, DataClassEffect(s, cls.simpleName + "Args", cls.properties)))
  }

  /** The companion object and, when the map is not empty, both decoders:
      the bundle's `parseArguments` and the saved-state one with the bare
      parameter for its signature. */
  function CompanionEffect(s: Setting, cls: ClassDecl): Effect
  {
    var dataClassName := cls.simpleName + "Args";
    CompanionOpen(s)
      .Then(When(|s.propertyMap| > 0,
                 ParseFunctionEffect(s, dataClassName, cls.properties, BundleSignature, BackStackEntry)
                   .Then(ParseFunctionEffect(s, dataClassName, cls.properties, StateSignatureAsWritten, SavedStateHandle))))
  }

  /** Everything after the argument list, for properties the map all knows:
      the builder, the route and the two closing braces. */
  function TailEffect(s: Setting, cls: ClassDecl): Effect
    requires AllMapped(cls.properties, s.propertyMap)
  {
    var provider := ProviderClassName(cls, s.argumentProviderMap, s.propertyMap);
    BuilderEffect(s, cls.simpleName, cls.properties, provider)
      .Then(RouteEffect(s, cls.simpleName, ArgumentString(cls.properties, s.propertyMap, |cls.properties|, |s.propertyMap|)))
      .Then(BlockClose(s))
      .Then(BlockClose(s))
  }

  /** What visiting one route class writes and reports. A lookup miss in the
      arguments class ends the visit there; otherwise a miss in the argument
      list ends it there, which happens only for an empty map (no decoder is
      written for an empty map, and the later loops look up the same
      properties again, so they never miss). */
  function VisitEffect(s: Setting, cls: ClassDecl): Effect
  {
    var props := cls.properties;
    var opening := OpeningEffect(s, cls);
    if |s.propertyMap| > 0 && !AllMapped(props, s.propertyMap) then opening
    else
      var list := opening
        .Then(CompanionEffect(s, cls))
        .Then(ArgumentListEffect(s, cls.simpleName, props, ProviderClassName(cls, s.argumentProviderMap, s.propertyMap)));
      if !AllMapped(props, s.propertyMap) then list else list.Then(TailEffect(s, cls))
  }
}
