/** The generator's dispatch tables: pure lookups from an argument kind (and
    the property's name) to the text each generated artifact uses for it. */
module Rules {
  import opened Descriptors

  /** The prefix that makes a generated member an extension on the singleton
      receiver, or nothing when members go into a wrapper class. */
  function SingletonExtension(singletonClass: Option<ClassDecl>): (r: string)
    ensures r == "" <==> singletonClass.None?
    ensures singletonClass.Some? ==> r == singletonClass.value.simpleName + "."
  {
    if singletonClass.Some? then singletonClass.value.simpleName + "." else ""
  }

  /** Upper-casing of one character, for the ASCII letters. */
  function UpperCase(c: char): (r: char)
    ensures 'a' <= c <= 'z' ==> 'A' <= r <= 'Z' && r as int - c as int == 'A' as int - 'a' as int
    ensures !('a' <= c <= 'z') ==> r == c
  {
    if 'a' <= c <= 'z' then (c as int - 'a' as int + 'A' as int) as char else c
  }

  /** The name with its first character upper-cased and the rest kept. */
  function Capitalize(s: string): (r: string)
    ensures |r| == |s|
    ensures s != [] ==> r[0] == UpperCase(s[0]) && r[1..] == s[1..]
  {
    if s == [] then s else [UpperCase(s[0])] + s[1..]
  }

  predicate EndsWith(s: string, suffix: string)
  {
    |suffix| <= |s| && s[|s| - |suffix|..] == suffix
  }

  /** The navigation type a property is registered with: a built-in type for
      the scalar and primitive-array kinds, and for every other kind a type
      named after the route and the capitalised property name. */
  function NavTypeTag(route: string, info: PropertyInfo): (r: string)
    ensures info.composeArgumentType.IsOpaque() ==>
              r == route + "_" + Capitalize(info.propertyName) + "NavType"
  {
    match info.composeArgumentType
    case Boolean => "NavType.BoolType"
    case String => "NavType.StringType"
    case Float => "NavType.FloatType"
    case Int => "NavType.IntType"
    case Long => "NavType.LongType"
    case IntArray => "IntArrayType"
    case BooleanArray => "BoolArrayType"
    case FloatArray => "FloatArrayType"
    case LongArray => "LongArrayType"
    case _ => route + "_" + Capitalize(info.propertyName) + "NavType"
  }

  /** The literal a non-nullable property falls back to when its key is
      absent; the opaque kinds have none. */
  function DefaultLiteral(kind: ComposeArgumentType): (r: Option<string>)
    ensures r.Some? <==> !kind.IsOpaque()
  {
    match kind
    case Boolean => Some("false")
    case String => Some("\"\"")
    case Float => Some("0F")
    case Int => Some("0")
    case Long => Some("0L")
    case IntArray => Some("intArrayOf()")
    case BooleanArray => Some("booleanArrayOf()")
    case LongArray => Some("longArrayOf()")
    case FloatArray => Some("floatArrayOf()")
    case _ => None
  }

  /** What a non-nullable opaque property does when its key is absent. */
  const NotFoundFallback := " ?: throw NullPointerException(\"parcel value not found\")"

  /** The two argument containers a generated decoder reads from. */
  datatype Decoder = BackStackEntry | SavedStateHandle

  const BundleReceiver := "backStackEntry.arguments?."

  /** The typed bundle read for a kind, keyed by the property's name. The
      opaque kinds are not in the table: asking for one is the source's
      "Unsupported type" failure. */
  function BundleAccessor(kind: ComposeArgumentType, name: string): (r: Option<string>)
    ensures r.Some? <==> !kind.IsOpaque()
    ensures r.Some? ==> exists getter :: r.value == BundleReceiver + getter + "(\"" + name + "\")"
  {
    var key := "(\"" + name + "\")";
    match kind
    case Boolean => Some(BundleReceiver + "getBoolean" + key)
    case String => Some(BundleReceiver + "getString" + key)
    case Float => Some(BundleReceiver + "getFloat" + key)
    case Int => Some(BundleReceiver + "getInt" + key)
    case Long => Some(BundleReceiver + "getLong" + key)
    case IntArray => Some(BundleReceiver + "getIntArray" + key)
    case BooleanArray => Some(BundleReceiver + "getBooleanArray" + key)
    case LongArray => Some(BundleReceiver + "getLongArray" + key)
    case FloatArray => Some(BundleReceiver + "getFloatArray" + key)
    case _ => None
  }

  /** The untyped saved-state read, the same for every kind. */
  function StateAccessor(name: string): (r: string)
    ensures EndsWith(r, "(\"" + name + "\")")
  {
    "savedStateHandle.get" + "(\"" + name + "\")"
  }

  /** The phrase each decoder writes for a property of a non-opaque kind. */
  function DecoderPhrase(decoder: Decoder, kind: ComposeArgumentType, name: string): (r: Option<string>)
    ensures r.Some? <==> (decoder.SavedStateHandle? || !kind.IsOpaque())
    ensures decoder.SavedStateHandle? ==> r == Some(StateAccessor(name))
  {
    match decoder
    case BackStackEntry => BundleAccessor(kind, name)
    case SavedStateHandle => Some(StateAccessor(name))
  }

  /** How the route builder puts a value into the route string: the scalar
      kinds as their own text, every other kind as percent-encoded JSON. */
  function RouteEncoding(kind: ComposeArgumentType, name: string): (r: string)
    ensures kind.IsScalar() <==> r == "$" + name
    ensures !kind.IsScalar() ==> r == "${Uri.encode(gson.toJson(" + name + "))}"
  {
    if kind.IsScalar() then "$" + name else "${Uri.encode(gson.toJson(" + name + "))}"
  }

  function BoolText(b: bool): (r: string)
    ensures b <==> r == "true"
    ensures !b <==> r == "false"
  {
    if b then "true" else "false"
  }

  /** Some property in the map has a default value. */
  predicate AnyDefault(propertyMap: map<PropertyDecl, PropertyInfo>)
  {
    exists k | k in propertyMap :: propertyMap[k].hasDefaultValue
  }

  /** The provider class that supplies default values, when one is needed
      and registered for the route class. */
  function ProviderClassName(
    cls: ClassDecl,
    argumentProviderMap: map<ClassDecl, ClassDecl>,
    propertyMap: map<PropertyDecl, PropertyInfo>): (r: Option<string>)
    ensures r.Some? <==> AnyDefault(propertyMap) && cls in argumentProviderMap
    ensures r.Some? ==> r.value == argumentProviderMap[cls].simpleName
  {
    if AnyDefault(propertyMap) && cls in argumentProviderMap then Some(argumentProviderMap[cls].simpleName) else None
  }

  /** The text a logger call leaves in a string template: the logger returns
      Kotlin's `Unit`, whose text is this. */
  const UnitText := "kotlin.Unit"
}
