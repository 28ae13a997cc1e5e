/** What the generated text says: the route's query, the navigation types,
    the decoders' reads and fallbacks, the builder's entries and the default
    values, each proved against a plain description of that text. */
module Properties {
  import opened Descriptors
  import opened Emission
  import opened Rules
  import opened TypeRendering
  import opened Sections

  // ------------------------------------------------------- the route's query

  /** The placeholders of the first `n` properties, in declaration order. */
  function Placeholders(props: seq<PropertyDecl>, pm: map<PropertyDecl, PropertyInfo>, n: nat): (r: seq<string>)
    requires n <= MappedPrefix(props, pm)
    ensures |r| == n
    ensures forall j :: 0 <= j < n ==> r[j] == Placeholder(pm[props[j]].propertyName)
  {
    if n == 0 then [] else Placeholders(props, pm, n - 1) + [Placeholder(pm[props[n - 1]].propertyName)]
  }

  /** The texts separated by commas. */
  function CommaJoin(xs: seq<string>): string
  {
    if xs == [] then "" else if |xs| == 1 then xs[0] else xs[0] + "," + CommaJoin(xs[1..])
  }

  /** The texts, each followed by a comma. */
  function CommaTerminated(xs: seq<string>): string
  {
    if xs == [] then "" else xs[0] + "," + CommaTerminated(xs[1..])
  }

  lemma {:induction false} TerminatedSnoc(xs: seq<string>, y: string)
    ensures CommaTerminated(xs + [y]) == CommaTerminated(xs) + y + ","
    decreases |xs|
  {
    if xs == [] {
      assert [] + [y] == [y];
    } else {
      assert (xs + [y])[1..] == xs[1..] + [y];
      TerminatedSnoc(xs[1..], y);
      ConcatAssoc(xs[0] + ",", CommaTerminated(xs[1..]) + y, ",");
      ConcatAssoc(xs[0] + ",", CommaTerminated(xs[1..]), y);
    }
  }

  lemma {:induction false} JoinSnoc(xs: seq<string>, y: string)
    ensures CommaJoin(xs + [y]) == CommaTerminated(xs) + y
    decreases |xs|
  {
    if xs == [] {
      assert [] + [y] == [y];
    } else {
      assert (xs + [y])[1..] == xs[1..] + [y];
      JoinSnoc(xs[1..], y);
      ConcatAssoc(xs[0] + ",", CommaTerminated(xs[1..]), y);
    }
  }

  /** While the position has not reached `size`, every placeholder of the
      query is followed by a comma. With a property map larger than the
      class's properties this is the whole query: it ends in a comma. */
  lemma {:induction false} ArgumentStringOpen(
    props: seq<PropertyDecl>, pm: map<PropertyDecl, PropertyInfo>, n: nat, size: int)
    requires n <= MappedPrefix(props, pm) && n < size
    ensures ArgumentString(props, pm, n, size) == CommaTerminated(Placeholders(props, pm, n))
  {
    if n > 0 {
      ArgumentStringOpen(props, pm, n - 1, size);
      TerminatedSnoc(Placeholders(props, pm, n - 1), Placeholder(pm[props[n - 1]].propertyName));
    }
  }

  /** When the property map holds exactly the class's properties, the query
      is their placeholders, in declaration order, separated by commas, with
      no comma after the last. */
  lemma ArgumentStringJoined(props: seq<PropertyDecl>, pm: map<PropertyDecl, PropertyInfo>)
    requires AllMapped(props, pm) && |pm| == |props|
    ensures ArgumentString(props, pm, |props|, |pm|) == CommaJoin(Placeholders(props, pm, |props|))
  {
    var n := |props|;
    if n > 0 {
      ArgumentStringOpen(props, pm, n - 1, n);
      JoinSnoc(Placeholders(props, pm, n - 1), Placeholder(pm[props[n - 1]].propertyName));
    }
  }

  /** The query is empty exactly when no property was appended. */
  lemma ArgumentStringEmpty(props: seq<PropertyDecl>, pm: map<PropertyDecl, PropertyInfo>, n: nat, size: int)
    requires n <= MappedPrefix(props, pm)
    ensures ArgumentString(props, pm, n, size) == "" <==> n == 0
  {
    if n > 0 {
      var p := Placeholder(pm[props[n - 1]].propertyName);
      assert |p| >= 2;
      assert |ArgumentString(props, pm, n, size)| >= |p|;
    }
  }

  /** The route pattern: the route alone when the class has no properties,
      otherwise the route, `?`, and the placeholders separated by commas. */
  lemma RoutePattern(route: string, props: seq<PropertyDecl>, pm: map<PropertyDecl, PropertyInfo>)
    requires AllMapped(props, pm) && |pm| == |props|
    ensures RouteLiteral(route, ArgumentString(props, pm, |props|, |pm|))
         == if props == [] then "\"" + route + "\""
            else "\"" + route + "?" + CommaJoin(Placeholders(props, pm, |props|)) + "\""
  {
    ArgumentStringEmpty(props, pm, |props|, |pm|);
    ArgumentStringJoined(props, pm);
    if props != [] {
      ConcatAssoc("\"" + route, "?", CommaJoin(Placeholders(props, pm, |props|)));
    }
  }

  // ------------------------------------------------------ navigation types

  /** The synthesised tag of an opaque kind names the route and the
      capitalised property; a built-in tag does not depend on either. */
  lemma NavTypeTagShape(route: string, info: PropertyInfo, route': string, info': PropertyInfo)
    ensures info.composeArgumentType.IsOpaque() ==>
              NavTypeTag(route, info)[..|route| + 1] == route + "_"
    ensures !info.composeArgumentType.IsOpaque() && info'.composeArgumentType == info.composeArgumentType ==>
              NavTypeTag(route', info') == NavTypeTag(route, info)
  {
    if info.composeArgumentType.IsOpaque() {
      var r := NavTypeTag(route, info);
      assert r == (route + "_") + (Capitalize(info.propertyName) + "NavType");
    }
  }

  /** A tag ends in `NavType` exactly when it is synthesised, that is, for
      the opaque kinds. */
  lemma NavTypeTagSuffix(route: string, info: PropertyInfo)
    ensures EndsWith(NavTypeTag(route, info), "NavType") <==> info.composeArgumentType.IsOpaque()
  {
    match info.composeArgumentType
    case Boolean => NotNavTypeEnding("NavType.BoolType", 'o');
    case String => NotNavTypeEnding("NavType.StringType", 'i');
    case Float => NotNavTypeEnding("NavType.FloatType", 'o');
    case Int => NotNavTypeEnding("NavType.IntType", 'I');
    case Long => NotNavTypeEnding("NavType.LongType", 'o');
    case IntArray => NotNavTypeEnding("IntArrayType", 'r');
    case BooleanArray => NotNavTypeEnding("BoolArrayType", 'r');
    case FloatArray => NotNavTypeEnding("FloatArrayType", 'r');
    case LongArray => NotNavTypeEnding("LongArrayType", 'r');
    case _ =>
      var r := NavTypeTag(route, info);
      assert r == (route + "_" + Capitalize(info.propertyName)) + "NavType";
  }

  /** A text whose seventh character from the end is `c`, not `N`, does not
      end in `NavType`. */
  lemma NotNavTypeEnding(t: string, c: char)
    requires |t| >= 7 && t[|t| - 7] == c && c != 'N'
    ensures !EndsWith(t, "NavType")
  {
    assert "NavType"[0] == 'N';
  }

  /** The built-in tags tell the kinds apart. */
  lemma NavTypeTagsDistinct(route: string, a: PropertyInfo, b: PropertyInfo)
    requires !a.composeArgumentType.IsOpaque() && !b.composeArgumentType.IsOpaque()
    ensures NavTypeTag(route, a) == NavTypeTag(route, b) <==> a.composeArgumentType == b.composeArgumentType
  {
  }

  // ------------------------------------------------------ text of effects

  lemma FlatThen(a: Effect, b: Effect)
    ensures Flat(a.Then(b).ops) == Flat(a.ops) + Flat(b.ops)
  {
    FlatAppend(a.ops, b.ops);
  }

  lemma FlatPhrase(t: string)
    ensures Flat(Emit([Phrase(t)]).ops) == t
  {
    FlatSingle(Phrase(t));
  }

  lemma FlatPhraseIf(c: bool, t: string)
    ensures Flat(Emit(PhraseIf(c, t)).ops) == if c then t else ""
  {
    if c {
      FlatSingle(Phrase(t));
    }
  }

  // ---------------------------------------------------------- the decoders

  /** What a non-nullable opaque property falls back to. */
  function OrThrow(info: PropertyInfo): string
  {
    if info.isNullable then "" else NotFoundFallback
  }

  lemma ParcelableReadText(info: PropertyInfo, ig: bool)
    ensures Flat(ParcelableRead(info, ig).ops)
         == BundleReceiver + "getParcelable<" + VariableTypeText(info, ig) + (">(\"" + info.propertyName + "\")")
            + OrThrow(info)
  {
    var a := Emit([Phrase(BundleReceiver + "getParcelable<")]);
    var b := VariableTypeEffect(info, ig);
    var c := Emit([Phrase(">(\"" + info.propertyName + "\")")]);
    var d := Emit(ThrowIfMissing(info));
    FlatThen(a, b);
    FlatThen(a.Then(b), c);
    FlatThen(a.Then(b).Then(c), d);
    FlatPhrase(BundleReceiver + "getParcelable<");
    FlatVariableType(info, ig);
    FlatPhrase(">(\"" + info.propertyName + "\")");
    FlatPhraseIf(!info.isNullable, NotFoundFallback);
  }

  lemma ParcelableArrayReadText(info: PropertyInfo, ig: bool)
    ensures Flat(ParcelableArrayRead(info, ig).ops)
         == BundleReceiver + "getParcelableArrayList" + ArgumentsText(info.typeArguments, ig)
            + ("(\"" + info.propertyName + "\")") + OrThrow(info)
  {
    var a := Emit([Phrase(BundleReceiver + "getParcelableArrayList")]);
    var b := ChildArgumentsEffect(info.typeArguments, ig);
    var c := Emit([Phrase("(\"" + info.propertyName + "\")")]);
    var d := Emit(ThrowIfMissing(info));
    FlatThen(a, b);
    FlatThen(a.Then(b), c);
    FlatThen(a.Then(b).Then(c), d);
    FlatPhrase(BundleReceiver + "getParcelableArrayList");
    FlatChildArguments(info.typeArguments, ig);
    FlatPhrase("(\"" + info.propertyName + "\")");
    FlatPhraseIf(!info.isNullable, NotFoundFallback);
  }

  /** A serializable property is read and cast to its declared type: with
      `as?` when it is nullable and `as` otherwise. */
  lemma SerializableReadText(info: PropertyInfo, ig: bool)
    ensures Flat(SerializableRead(info, ig).ops)
         == BundleReceiver + "getSerializable" + ("(\"" + info.propertyName + "\") as")
            + (if info.isNullable then "?" else "") + " " + VariableTypeText(info, ig) + OrThrow(info)
  {
    var a := Emit([Phrase(BundleReceiver + "getSerializable")]);
    var b := Emit([Phrase("(\"" + info.propertyName + "\") as")]);
    var c := Emit(PhraseIf(info.isNullable, "?"));
    var d := Emit([Phrase(" ")]);
    var e := VariableTypeEffect(info, ig);
    var f := Emit(ThrowIfMissing(info));
    FlatThen(a, b);
    FlatThen(a.Then(b), c);
    FlatThen(a.Then(b).Then(c), d);
    FlatThen(a.Then(b).Then(c).Then(d), e);
    FlatThen(a.Then(b).Then(c).Then(d).Then(e), f);
    FlatPhrase(BundleReceiver + "getSerializable");
    FlatPhrase("(\"" + info.propertyName + "\") as");
    FlatPhraseIf(info.isNullable, "?");
    FlatPhrase(" ");
    FlatVariableType(info, ig);
    FlatPhraseIf(!info.isNullable, NotFoundFallback);
  }

  /** A scalar or primitive-array property reads as the decoder's accessor
      followed, exactly when it is not nullable, by the kind's literal. */
  lemma ScalarReadText(decoder: Decoder, info: PropertyInfo)
    requires !info.composeArgumentType.IsOpaque()
    ensures Flat(ScalarRead(decoder, info).ops)
         == DecoderPhrase(decoder, info.composeArgumentType, info.propertyName).value
            + (if info.isNullable then "" else " ?: " + DefaultLiteral(info.composeArgumentType).value)
    ensures ScalarRead(decoder, info).errors == []
  {
    var kind := info.composeArgumentType;
    FlatThen(Emit([Phrase(DecoderPhrase(decoder, kind, info.propertyName).value)]),
             Emit(PhraseIf(!info.isNullable, " ?: " + DefaultLiteral(kind).value)));
    FlatPhrase(DecoderPhrase(decoder, kind, info.propertyName).value);
    FlatPhraseIf(!info.isNullable, " ?: " + DefaultLiteral(kind).value);
  }

  /** Both decoders read an opaque property from the navigation bundle: the
      decoder makes no difference. The two decoders differ only in the
      accessor of the other kinds, which the saved-state decoder reads
      untyped, and both give those the same fallbacks. */
  lemma DecodersCompared(info: PropertyInfo, ig: bool)
    ensures info.composeArgumentType.IsOpaque() ==>
              ParsedElementEffect(SavedStateHandle, info, ig) == ParsedElementEffect(BackStackEntry, info, ig)
    ensures !info.composeArgumentType.IsOpaque() ==>
              Flat(ParsedElementEffect(SavedStateHandle, info, ig).ops)
                == StateAccessor(info.propertyName) + Fallback(info)
              && Flat(ParsedElementEffect(BackStackEntry, info, ig).ops)
                == BundleAccessor(info.composeArgumentType, info.propertyName).value + Fallback(info)
  {
    if !info.composeArgumentType.IsOpaque() {
      ScalarReadText(SavedStateHandle, info);
      ScalarReadText(BackStackEntry, info);
    }
  }

  /** The literal fallback of a non-opaque property: none when it is
      nullable. */
  function Fallback(info: PropertyInfo): string
    requires !info.composeArgumentType.IsOpaque()
  {
    if info.isNullable then "" else " ?: " + DefaultLiteral(info.composeArgumentType).value
  }

  // ----------------------------------------------------------- the defaults

  /** The text standing in a default for the provider's name. */
  function ProviderText(provider: Option<string>): string
  {
    match provider
    case Some(p) => p
    case None => UnitText
  }

  /** A `defaultValue` line is written exactly for a property that has a
      default; it names the provider's member, and a missing provider is
      reported and leaves the logger's return value in the text. */
  lemma DefaultLineText(info: PropertyInfo, provider: Option<string>)
    ensures DefaultLineEffect(info, provider).ops == [] <==> !info.hasDefaultValue
    ensures info.hasDefaultValue ==>
              Flat(DefaultLineEffect(info, provider).ops)
                == "defaultValue = " + (ProviderText(provider) + "." + info.propertyName)
    ensures DefaultLineEffect(info, provider).errors
         == if info.hasDefaultValue && provider.None? then [NoProviderFound(info.propertyName)] else []
  {
    if info.hasDefaultValue {
      var head := Emit([Line("defaultValue = ")]);
      var value := DefaultValueEffect("", provider, info.propertyName);
      FlatThen(head, value);
      FlatSingle(Line("defaultValue = "));
      match provider
      case Some(p) =>
        FlatPhrase("" + p + "." + info.propertyName);
        assert "" + p == p;
      case None =>
        FlatPhrase("" + UnitText + "." + info.propertyName);
        assert "" + UnitText == UnitText;
    }
  }

  /** A builder parameter gets ` = ` and the provider's member exactly when
      its property has a default, with the same report when the provider is
      missing. */
  lemma DefaultParameterText(info: PropertyInfo, provider: Option<string>)
    ensures DefaultParameterEffect(info, provider).ops == [] <==> !info.hasDefaultValue
    ensures info.hasDefaultValue ==>
              Flat(DefaultParameterEffect(info, provider).ops) == " = " + ProviderText(provider) + "." + info.propertyName
    ensures DefaultParameterEffect(info, provider).errors
         == if info.hasDefaultValue && provider.None? then [NoProviderFound(info.propertyName)] else []
  {
    if info.hasDefaultValue {
      match provider
      case Some(p) =>
        FlatPhrase(" = " + p + "." + info.propertyName);
      case None =>
        FlatPhrase(" = " + UnitText + "." + info.propertyName);
    }
  }

  /** The report for every property with a default, among the first `n`, in
      declaration order. */
  function MissingProviders(props: seq<PropertyDecl>, pm: map<PropertyDecl, PropertyInfo>, n: nat): seq<Diagnostic>
    requires n <= MappedPrefix(props, pm)
  {
    if n == 0 then []
    else
      var info := pm[props[n - 1]];
      MissingProviders(props, pm, n - 1) + (if info.hasDefaultValue then [NoProviderFound(info.propertyName)] else [])
  }

  /** The argument list reports a missing provider once per property with a
      default, and never when there is a provider. */
  lemma {:induction false} RegistrationDiagnostics(
    s: Setting, route: string, provider: Option<string>, props: seq<PropertyDecl>, n: nat)
    requires n <= MappedPrefix(props, s.propertyMap)
    ensures PrefixEffect(s, Registrations(route, provider), props, n).errors
         == if provider.None? then MissingProviders(props, s.propertyMap, n) else []
  {
    if n > 0 {
      var loop := Registrations(route, provider);
      var info := s.propertyMap[props[n - 1]];
      RegistrationDiagnostics(s, route, provider, props, n - 1);
      ItemNow(s, loop, info, n);
      NavArgumentErrors(route, info, provider);
      assert PrefixEffect(s, loop, props, n)
          == PrefixEffect(s, loop, props, n - 1).Then(ItemAfter(3, s, loop, info, n));
    }
  }

  /** One registration reports a missing provider when its property has a
      default and there is no provider, and nothing otherwise. */
  lemma NavArgumentErrors(route: string, info: PropertyInfo, provider: Option<string>)
    ensures NavArgumentEffect(route, info, provider).errors
         == if info.hasDefaultValue && provider.None? then [NoProviderFound(info.propertyName)] else []
  {
    DefaultLineText(info, provider);
    assert NavArgumentHead(route, info).errors == [];
    assert NavArgumentEffect(route, info, provider).errors
        == [] + DefaultLineEffect(info, provider).errors + [] + [] + [];
  }

  /** With no property map entry that has a default, nothing is missing. */
  lemma {:induction false} NothingMissing(props: seq<PropertyDecl>, pm: map<PropertyDecl, PropertyInfo>, n: nat)
    requires n <= MappedPrefix(props, pm) && !AnyDefault(pm)
    ensures MissingProviders(props, pm, n) == []
  {
    if n > 0 {
      NothingMissing(props, pm, n - 1);
      assert props[n - 1] in pm;
    }
  }

  /** The argument list's reports: a missing provider for every property with
      a default, before the first miss, unless the route class has a provider
      registered; then the miss itself. */
  lemma ArgumentListDiagnostics(s: Setting, cls: ClassDecl)
    ensures
      var provider := ProviderClassName(cls, s.argumentProviderMap, s.propertyMap);
      var k := MappedPrefix(cls.properties, s.propertyMap);
      LoopEffect(s, Registrations(cls.simpleName, provider), cls.properties).errors
        == (if cls in s.argumentProviderMap then [] else MissingProviders(cls.properties, s.propertyMap, k))
           + (if k < |cls.properties| then [InvalidTypeArgument] else [])
  {
    var provider := ProviderClassName(cls, s.argumentProviderMap, s.propertyMap);
    var k := MappedPrefix(cls.properties, s.propertyMap);
    RegistrationDiagnostics(s, cls.simpleName, provider, cls.properties, k);
    if cls in s.argumentProviderMap && provider.None? {
      NothingMissing(cls.properties, s.propertyMap, k);
    }
    if cls !in s.argumentProviderMap {
      assert provider.None?;
    }
  }

  // ------------------------------------------------------ the route builder

  /** One entry of the builder's query, closed by `close`. */
  function EntryText(info: PropertyInfo, close: string): string
  {
    "\"" + info.propertyName + "=" + RouteEncoding(info.composeArgumentType, info.propertyName) + close + " + "
  }

  lemma EntryIsText(info: PropertyInfo, count: int, size: int)
    ensures Flat(EntryEffect(info, count, size).ops) == EntryText(info, EntryClose(count, size))
    ensures EntryEffect(info, count, size).errors == []
  {
    var a := Emit([Line("\"" + info.propertyName + "=")]);
    var b := Emit([Phrase(RouteEncoding(info.composeArgumentType, info.propertyName))]);
    var c := Emit([Phrase(EntryClose(count, size))]);
    FlatThen(a, b);
    FlatThen(a.Then(b), c);
    FlatThen(a.Then(b).Then(c), Emit([Phrase(" + ")]));
    FlatSingle(Line("\"" + info.propertyName + "="));
    FlatPhrase(RouteEncoding(info.composeArgumentType, info.propertyName));
    FlatPhrase(EntryClose(count, size));
    FlatPhrase(" + ");
  }

  /** When the map holds exactly the class's properties, the entry at
      position `count` is closed by `"` exactly when it is the last, and by
      `,"` otherwise; the query pattern puts its commas at the same places. */
  lemma EntryCloses(props: seq<PropertyDecl>, pm: map<PropertyDecl, PropertyInfo>, count: int)
    requires AllMapped(props, pm) && |pm| == |props| && 0 < count <= |props|
    ensures EntryClose(count, |pm|) == (if count == |props| then "\"" else ",\"")
    ensures ArgumentString(props, pm, count, |pm|)
         == ArgumentString(props, pm, count - 1, |pm|) + Placeholder(pm[props[count - 1]].propertyName)
            + (if count == |props| then "" else ",")
  {
  }

  /** The builder's body opens with the route, followed by `?` exactly when
      the property map is not empty, and closes with the empty literal. */
  lemma BuilderBodyText(route: string, size: int)
    ensures Flat(BuilderBodyHead(route, size).ops)
         == "): String {" + ("return \"" + route + (if size > 0 then "?" else "") + "\" + ")
    ensures Flat(BuilderBodyTail().ops) == "\"\"" + "}"
  {
    var a := Emit([Phrase("): String {")]);
    var i := Emit([Indent]);
    var r := Emit([Line(ReturnLine(route, size))]);
    FlatThen(a, i);
    FlatThen(a.Then(i), r);
    FlatThen(a.Then(i).Then(r), i);
    FlatThen(a.Then(i).Then(r).Then(i), i);
    FlatPhrase("): String {");
    FlatSingle(Indent);
    FlatSingle(Line(ReturnLine(route, size)));
    RightUnit("): String {");
    RightUnit("): String {" + ReturnLine(route, size));
    var l := Emit([Line("\"\"")]);
    var d := Emit([Dedent]);
    FlatThen(l, d);
    FlatThen(l.Then(d), d);
    FlatThen(l.Then(d).Then(d), d);
    FlatThen(l.Then(d).Then(d).Then(d), Emit([Line("}")]));
    FlatSingle(Line("\"\""));
    FlatSingle(Dedent);
    FlatSingle(Line("}"));
    RightUnit("\"\"");
  }

  // ------------------------------------------------------ the route property

  /** The `route` property reads as its declaration and the route literal. */
  lemma RouteText(s: Setting, route: string, argumentString: string)
    ensures Flat(RouteEffect(s, route, argumentString).ops)
         == "val " + s.Extension() + "route" + "get() = " + RouteLiteral(route, argumentString)
    ensures RouteEffect(s, route, argumentString).errors == []
  {
    var decl := "val " + s.Extension() + "route";
    var a := Emit([Line(decl)]);
    var i := Emit([Indent]);
    var g := Emit([Line("get() = ")]);
    var o := Emit([Phrase("\"" + route)]);
    var q := RouteQuery(argumentString);
    var c := Emit([Phrase("\"")]);
    FlatThen(a, i);
    FlatThen(a.Then(i), g);
    FlatThen(a.Then(i).Then(g), o);
    FlatThen(a.Then(i).Then(g).Then(o), q);
    FlatThen(a.Then(i).Then(g).Then(o).Then(q), c);
    FlatThen(a.Then(i).Then(g).Then(o).Then(q).Then(c), Emit([Dedent]));
    FlatSingle(Line(decl));
    FlatSingle(Indent);
    FlatSingle(Line("get() = "));
    FlatPhrase("\"" + route);
    FlatPhrase("\"");
    FlatSingle(Dedent);
    RightUnit(decl);
    var query := if argumentString != "" then "?" + argumentString else "";
    if argumentString != "" {
      FlatThen(Emit([Phrase("?")]), Emit([Phrase(argumentString)]));
      FlatPhrase("?");
      FlatPhrase(argumentString);
    }
    assert Flat(q.ops) == query;
    var body := decl + "get() = " + ("\"" + route) + query + "\"";
    RightUnit(body);
    assert Flat(RouteEffect(s, route, argumentString).ops) == body;
    ConcatAssoc(decl + "get() = ", "\"" + route, query);
    ConcatAssoc(decl + "get() = ", "\"" + route + query, "\"");
  }

  // ------------------------------------------------- the decoder headers

  /** The saved-state decoder's header as the source writes it: the
      signature passed in is a bare parameter, so the header declares a
      function named after the parameter and has no parameter list; with
      no parenthesis in the receiver or the class name there is none in the
      header at all. */
  lemma StateHeaderAsWritten(s: Setting, dataClassName: string)
    requires '(' !in s.Extension() && '(' !in dataClassName
    ensures ParseFunctionHeader(s, dataClassName, StateSignatureAsWritten)
         == "fun " + s.Extension() + StateParameter + ": " + dataClassName + " {"
    ensures '(' !in ParseFunctionHeader(s, dataClassName, StateSignatureAsWritten)
  {
    assert '(' !in "fun ";
    assert '(' !in StateParameter;
    assert '(' !in ": ";
    assert '(' !in " {";
  }

  /** With the function name restored, both decoders are declared as
      `parseArguments` on the same receiver and return the same class; they
      differ only in their one parameter. */
  lemma DecoderHeaders(s: Setting, dataClassName: string)
    ensures ParseFunctionHeader(s, dataClassName, BundleSignature)
         == ("fun " + s.Extension() + "parseArguments(") + BundleParameter + ("): " + dataClassName + " {")
    ensures ParseFunctionHeader(s, dataClassName, StateSignature)
         == ("fun " + s.Extension() + "parseArguments(") + StateParameter + ("): " + dataClassName + " {")
  {
    Regroup("fun " + s.Extension(), "parseArguments(", BundleParameter, ")", ": " + dataClassName + " {");
    Regroup("fun " + s.Extension(), "parseArguments(", StateParameter, ")", ": " + dataClassName + " {");
  }

  lemma Regroup(p: string, a: string, b: string, c: string, t: string)
    ensures p + (a + b + c) + t == (p + a) + b + (c + t)
  {
    ConcatAssoc(p, a + b, c);
    ConcatAssoc(p + (a + b), c, t);
    ConcatAssoc(p, a, b);
    ConcatAssoc(p + a + b, c, t);
  }
}
