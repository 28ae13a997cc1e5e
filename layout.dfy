/** The indentation the generator leaves behind. Every section is written at
    some depth above where the visit started and never goes below that start;
    a visit whose properties the map all knows returns to the depth it
    started at, and a visit that stops at a lookup miss leaves blocks open. */
module Layout {
  import opened Descriptors
  import opened Emission
  import opened Rules
  import opened TypeRendering
  import opened Sections

  /** Started `d` levels above the visit's start, `ops` never goes below it. */
  ghost predicate Within(ops: seq<Op>, d: int)
  {
    forall k :: 0 <= k <= |ops| ==> d + Net(ops[..k]) >= 0
  }

  /** Written `d` levels above the visit's start, `e` never goes below that
      start and moves the depth by `m`. */
  ghost predicate Moves(e: Effect, d: int, m: int)
  {
    Within(e.ops, d) && Net(e.ops) == m
  }

  /** The level of an effect that writes only text. */
  ghost predicate Inline(e: Effect)
  {
    forall i :: 0 <= i < |e.ops| ==> e.ops[i].Line? || e.ops[i].Phrase?
  }

  // ----------------------------------------------------------- composition

  lemma WithinAppend(a: seq<Op>, b: seq<Op>, d: int)
    requires Within(a, d) && Within(b, d + Net(a))
    ensures Within(a + b, d) && Net(a + b) == Net(a) + Net(b)
  {
    NetAppend(a, b);
    assert a[..|a|] == a;
    forall k | 0 <= k <= |a + b|
      ensures d + Net((a + b)[..k]) >= 0
    {
      if k <= |a| {
        assert (a + b)[..k] == a[..k];
      } else {
        assert (a + b)[..k] == a + b[..k - |a|];
        NetAppend(a, b[..k - |a|]);
      }
    }
  }

  lemma ThenMoves(a: Effect, b: Effect, d: int, m: int, n: int)
    requires Moves(a, d, m) && Moves(b, d + m, n)
    ensures Moves(a.Then(b), d, m + n)
  {
    WithinAppend(a.ops, b.ops, d);
  }

  lemma OpMoves(op: Op, d: int)
    requires d >= 0 && d + Delta(op) >= 0
    ensures Moves(Emit([op]), d, Delta(op))
  {
    assert [op][..0] == [];
    assert [op][..1] == [op];
  }

  lemma NothingMoves(e: Effect, d: int)
    requires e.ops == [] && d >= 0
    ensures Moves(e, d, 0)
  {
  }

  lemma {:induction false} InlineNet(ops: seq<Op>)
    requires forall i :: 0 <= i < |ops| ==> ops[i].Line? || ops[i].Phrase?
    ensures Net(ops) == 0
    decreases |ops|
  {
    if ops != [] {
      InlineNet(ops[..|ops| - 1]);
    }
  }

  /** Text alone leaves the depth where it is. */
  lemma InlineMoves(e: Effect, d: int)
    requires Inline(e) && d >= 0
    ensures Moves(e, d, 0)
  {
    forall k | 0 <= k <= |e.ops|
      ensures Net(e.ops[..k]) == 0
    {
      InlineNet(e.ops[..k]);
    }
    InlineNet(e.ops);
    assert e.ops[..|e.ops|] == e.ops;
  }

  lemma InlineThen(a: Effect, b: Effect)
    requires Inline(a) && Inline(b)
    ensures Inline(a.Then(b))
  {
    forall i | 0 <= i < |a.Then(b).ops|
      ensures a.Then(b).ops[i].Line? || a.Then(b).ops[i].Phrase?
    {
      if i >= |a.ops| {
        assert a.Then(b).ops[i] == b.ops[i - |a.ops|];
      }
    }
  }

  lemma InlineVariableType(info: PropertyInfo, ig: bool)
    ensures Inline(VariableTypeEffect(info, ig))
  {
    VariableTypeLayout(info, ig);
  }

  lemma InlineChildArguments(args: seq<TypeArgument>, ig: bool)
    ensures Inline(ChildArgumentsEffect(args, ig))
  {
    ChildArgumentsLayout(args, ig);
  }

  // --------------------------------------------------------------- the items

  lemma InlineDefaultValue(prefix: string, provider: Option<string>, name: string)
    ensures Inline(DefaultValueEffect(prefix, provider, name))
  {
  }

  lemma InlineParsedElement(decoder: Decoder, info: PropertyInfo, ig: bool)
    ensures Inline(ParsedElementEffect(decoder, info, ig))
  {
    var name := info.propertyName;
    var mark := Emit(ThrowIfMissing(info));
    match info.composeArgumentType
    case Parcelable =>
      var a := Emit([Phrase(BundleReceiver + "getParcelable<")]);
      InlineVariableType(info, ig);
      InlineThen(a, VariableTypeEffect(info, ig));
      InlineThen(a.Then(VariableTypeEffect(info, ig)), Emit([Phrase(">(\"" + name + "\")")]));
      InlineThen(a.Then(VariableTypeEffect(info, ig)).Then(Emit([Phrase(">(\"" + name + "\")")])), mark);
    case ParcelableArray =>
      var a := Emit([Phrase(BundleReceiver + "getParcelableArrayList")]);
      var c := ChildArgumentsEffect(info.typeArguments, ig);
      InlineChildArguments(info.typeArguments, ig);
      InlineThen(a, c);
      InlineThen(a.Then(c), Emit([Phrase("(\"" + name + "\")")]));
      InlineThen(a.Then(c).Then(Emit([Phrase("(\"" + name + "\")")])), mark);
    case Serializable =>
      var a := Emit([Phrase(BundleReceiver + "getSerializable")]);
      var b := Emit([Phrase("(\"" + name + "\") as")]);
      var q := Emit(PhraseIf(info.isNullable, "?"));
      var sp := Emit([Phrase(" ")]);
      var t := VariableTypeEffect(info, ig);
      InlineVariableType(info, ig);
      InlineThen(a, b);
      InlineThen(a.Then(b), q);
      InlineThen(a.Then(b).Then(q), sp);
      InlineThen(a.Then(b).Then(q).Then(sp), t);
      InlineThen(a.Then(b).Then(q).Then(sp).Then(t), mark);
    case _ =>
  }

  /** What a loop writes for one property leaves the depth where it is. */
  lemma ItemMoves(s: Setting, loop: Loop, info: PropertyInfo, count: nat, d: int)
    requires d >= 0
    ensures Moves(ItemEffect(s, loop, info, count), d, 0)
  {
    var ig := s.IgnoreGenericArgs();
    match loop
    case Fields =>
      var a := Emit([Line("val " + info.propertyName + ": ")]);
      InlineVariableType(info, ig);
      InlineThen(a, VariableTypeEffect(info, ig));
      InlineThen(a.Then(VariableTypeEffect(info, ig)), Emit([Phrase(", ")]));
      InlineMoves(FieldEffect(s, info), d);
    case ParseItems(decoder) =>
      var a := Emit([Line(info.propertyName + " = ")]);
      InlineParsedElement(decoder, info, ig);
      InlineThen(a, ParsedElementEffect(decoder, info, ig));
      InlineThen(a.Then(ParsedElementEffect(decoder, info, ig)), Emit([Phrase(", ")]));
      InlineMoves(ParseItemEffect(decoder, info, ig), d);
    case Registrations(route, provider) =>
      NavArgumentMoves(route, info, provider, d);
    case Parameters(provider) =>
      var a := Emit([Phrase(info.propertyName + ": ")]);
      var t := VariableTypeEffect(info, ig);
      var dp := DefaultParameterEffect(info, provider);
      InlineVariableType(info, ig);
      InlineDefaultValue(" = ", provider, info.propertyName);
      InlineThen(a, t);
      InlineThen(a.Then(t), dp);
      InlineThen(a.Then(t).Then(dp), Emit([Phrase(", ")]));
      InlineMoves(ParameterEffect(s, info, provider), d);
    case Entries =>
      InlineMoves(EntryEffect(info, count, |s.propertyMap|), d);
  }

  /** A registration opens and closes its own two levels. */
  lemma NavArgumentMoves(route: string, info: PropertyInfo, provider: Option<string>, d: int)
    requires d >= 0
    ensures Moves(NavArgumentEffect(route, info, provider), d, 0)
  {
    var i, l1 := Emit([Indent]), Emit([Line("navArgument(\"" + info.propertyName + "\") {")]);
    var l2 := Emit([Line("type = " + NavTypeTag(route, info))]);
    var l3 := Emit([Line("nullable = " + BoolText(info.isNullable))]);
    OpMoves(Indent, d);
    OpMoves(Line("navArgument(\"" + info.propertyName + "\") {"), d + 1);
    ThenMoves(i, l1, d, 1, 0);
    OpMoves(Indent, d + 1);
    ThenMoves(i.Then(l1), i, d, 1, 1);
    OpMoves(Line("type = " + NavTypeTag(route, info)), d + 2);
    ThenMoves(i.Then(l1).Then(i), l2, d, 2, 0);
    OpMoves(Line("nullable = " + BoolText(info.isNullable)), d + 2);
    ThenMoves(i.Then(l1).Then(i).Then(l2), l3, d, 2, 0);
    var head := NavArgumentHead(route, info);
    var dl := DefaultLineEffect(info, provider);
    if info.hasDefaultValue {
      InlineDefaultValue("", provider, info.propertyName);
      InlineThen(Emit([Line("defaultValue = ")]), DefaultValueEffect("", provider, info.propertyName));
    }
    InlineMoves(dl, d + 2);
    ThenMoves(head, dl, d, 2, 0);
    var o := Emit([Dedent]);
    var c := Emit([Line("},")]);
    OpMoves(Dedent, d + 2);
    ThenMoves(head.Then(dl), o, d, 2, -1);
    OpMoves(Line("},"), d + 1);
    ThenMoves(head.Then(dl).Then(o), c, d, 1, 0);
    OpMoves(Dedent, d + 1);
    ThenMoves(head.Then(dl).Then(o).Then(c), o, d, 1, -1);
  }

  // --------------------------------------------------------------- the loops

  lemma {:induction false} PrefixMoves(s: Setting, loop: Loop, props: seq<PropertyDecl>, n: nat, d: int)
    requires n <= MappedPrefix(props, s.propertyMap) && d >= 0
    ensures Moves(PrefixEffect(s, loop, props, n), d, 0)
  {
    if n == 0 {
      NothingMoves(Emit([]), d);
    } else {
      var info := s.propertyMap[props[n - 1]];
      PrefixMoves(s, loop, props, n - 1, d);
      ItemNow(s, loop, info, n);
      ItemMoves(s, loop, info, n, d);
      ThenMoves(PrefixEffect(s, loop, props, n - 1), ItemAfter(3, s, loop, info, n), d, 0, 0);
    }
  }

  /** A loop leaves the depth where it is, whether or not it misses. */
  lemma LoopMoves(s: Setting, loop: Loop, props: seq<PropertyDecl>, d: int)
    requires d >= 0
    ensures Moves(LoopEffect(s, loop, props), d, 0)
  {
    var k := MappedPrefix(props, s.propertyMap);
    PrefixMoves(s, loop, props, k, d);
    if k < |props| {
      NothingMoves(Report(InvalidTypeArgument), d);
      ThenMoves(PrefixEffect(s, loop, props, k), Report(InvalidTypeArgument), d, 0, 0);
    }
  }

  // ------------------------------------------------------------ the sections

  /** The depth of the wrapper and the companion: one level each, when there
      is no singleton receiver. */
  function Wrap(s: Setting): int
  {
    if s.Wrapped() then 1 else 0
  }

  lemma OpenMoves(s: Setting, route: string, d: int)
    requires d >= 0
    ensures Moves(WrapperOpen(s, route), d, Wrap(s))
    ensures Moves(CompanionOpen(s), d, Wrap(s))
  {
    if s.Wrapped() {
      OpMoves(Line("class " + route + "Destination {"), d);
      OpMoves(Indent, d);
      ThenMoves(Emit([Line("class " + route + "Destination {")]), Emit([Indent]), d, 0, 1);
      OpMoves(Line("companion object {"), d);
      ThenMoves(Emit([Line("companion object {")]), Emit([Indent]), d, 0, 1);
    }
  }

  lemma CloseMoves(s: Setting, d: int)
    requires d >= Wrap(s) && d >= 0
    ensures Moves(BlockClose(s), d, -Wrap(s))
  {
    if s.Wrapped() {
      OpMoves(Dedent, d);
      OpMoves(Line("}"), d - 1);
      ThenMoves(Emit([Dedent]), Emit([Line("}")]), d, -1, 0);
    }
  }

  lemma WhenMoves(c: bool, e: Effect, d: int, m: int)
    requires d >= 0 && (c ==> Moves(e, d, m))
    ensures Moves(When(c, e), d, if c then m else 0)
  {
    if !c {
      NothingMoves(Emit([]), d);
    }
  }

  /** A head that opens one level, a body that keeps it, and a close that
      shuts it when the body completed. */
  lemma SectionMoves(head: Effect, body: Effect, done: bool, close: Effect, d: int, m: int)
    requires d >= 0 && m >= 0
    requires Moves(head, d, m) && Moves(body, d + m, 0) && (done ==> Moves(close, d + m, -m))
    ensures Moves(head.Then(body).Then(When(done, close)), d, if done then 0 else m)
  {
    ThenMoves(head, body, d, m, 0);
    WhenMoves(done, close, d + m, -m);
    ThenMoves(head.Then(body), When(done, close), d, m, if done then -m else 0);
  }

  lemma DataClassMoves(s: Setting, name: string, props: seq<PropertyDecl>, d: int)
    requires d >= 0
    ensures Moves(DataClassEffect(s, name, props), d, if AllMapped(props, s.propertyMap) then 0 else 1)
  {
    OpMoves(Line("data class " + name + " ("), d);
    OpMoves(Indent, d);
    ThenMoves(Emit([Line("data class " + name + " (")]), Emit([Indent]), d, 0, 1);
    LoopMoves(s, Fields, props, d + 1);
    OpMoves(Dedent, d + 1);
    OpMoves(Line(")"), d);
    ThenMoves(Emit([Dedent]), Emit([Line(")")]), d + 1, -1, 0);
    SectionMoves(DataClassHead(name), LoopEffect(s, Fields, props), AllMapped(props, s.propertyMap),
                 DataClassClose(), d, 1);
  }

  lemma ParseFunctionMoves(s: Setting, name: string, props: seq<PropertyDecl>, signature: string, decoder: Decoder, d: int)
    requires d >= 0
    ensures Moves(ParseFunctionEffect(s, name, props, signature, decoder), d,
                  if AllMapped(props, s.propertyMap) then 0 else 2)
  {
    var l := Emit([Line(ParseFunctionHeader(s, name, signature))]);
    var i := Emit([Indent]);
    var r := Emit([Line("return ")]);
    var p := Emit([Phrase(name + "(")]);
    OpMoves(Line(ParseFunctionHeader(s, name, signature)), d);
    OpMoves(Indent, d);
    ThenMoves(l, i, d, 0, 1);
    OpMoves(Line("return "), d + 1);
    ThenMoves(l.Then(i), r, d, 1, 0);
    OpMoves(Phrase(name + "("), d + 1);
    ThenMoves(l.Then(i).Then(r), p, d, 1, 0);
    OpMoves(Indent, d + 1);
    ThenMoves(l.Then(i).Then(r).Then(p), i, d, 1, 1);
    LoopMoves(s, ParseItems(decoder), props, d + 2);
    var o := Emit([Dedent]);
    OpMoves(Dedent, d + 2);
    OpMoves(Line(")"), d + 1);
    ThenMoves(o, Emit([Line(")")]), d + 2, -1, 0);
    OpMoves(Dedent, d + 1);
    ThenMoves(o.Then(Emit([Line(")")])), o, d + 2, -1, -1);
    OpMoves(Line("}"), d);
    ThenMoves(o.Then(Emit([Line(")")])).Then(o), Emit([Line("}")]), d + 2, -2, 0);
    SectionMoves(ParseFunctionHead(s, name, signature), LoopEffect(s, ParseItems(decoder), props),
                 AllMapped(props, s.propertyMap), ParseFunctionClose(), d, 2);
  }

  lemma ArgumentListMoves(s: Setting, route: string, props: seq<PropertyDecl>, provider: Option<string>, d: int)
    requires d >= 0
    ensures Moves(ArgumentListEffect(s, route, props, provider), d, if AllMapped(props, s.propertyMap) then 0 else 1)
  {
    var l := Emit([Line("val " + s.Extension() + "argumentList")]);
    var p := Emit([Phrase(": MutableList<NamedNavArgument> ")]);
    OpMoves(Line("val " + s.Extension() + "argumentList"), d);
    OpMoves(Phrase(": MutableList<NamedNavArgument> "), d);
    ThenMoves(l, p, d, 0, 0);
    OpMoves(Indent, d);
    ThenMoves(l.Then(p), Emit([Indent]), d, 0, 1);
    OpMoves(Line("get() = mutableListOf("), d + 1);
    ThenMoves(l.Then(p).Then(Emit([Indent])), Emit([Line("get() = mutableListOf(")]), d, 1, 0);
    LoopMoves(s, Registrations(route, provider), props, d + 1);
    OpMoves(Line(")"), d + 1);
    OpMoves(Dedent, d + 1);
    ThenMoves(Emit([Line(")")]), Emit([Dedent]), d + 1, 0, -1);
    SectionMoves(ArgumentListHead(s), LoopEffect(s, Registrations(route, provider), props),
                 AllMapped(props, s.propertyMap), ArgumentListClose(), d, 1);
  }

  lemma BuilderMoves(s: Setting, route: string, props: seq<PropertyDecl>, provider: Option<string>, d: int)
    requires d >= 0 && AllMapped(props, s.propertyMap)
    ensures Moves(BuilderEffect(s, route, props, provider), d, 0)
  {
    var size := |s.propertyMap|;
    var l := Emit([Line("fun " + s.Extension() + "getDestination(")]);
    var params := PrefixEffect(s, Parameters(provider), props, |props|);
    var entries := PrefixEffect(s, Entries, props, |props|);
    OpMoves(Line("fun " + s.Extension() + "getDestination("), d);
    PrefixMoves(s, Parameters(provider), props, |props|, d);
    BodyHeadMoves(route, size, d);
    PrefixMoves(s, Entries, props, |props|, d + 3);
    BodyTailMoves(d + 3);
    BodyMoves(l, params, BuilderBodyHead(route, size), entries, BuilderBodyTail(), d);
  }

  /** A head and parameters at the start depth, a body opening three levels,
      entries inside them, and a tail closing them. */
  lemma BodyMoves(l: Effect, params: Effect, head: Effect, entries: Effect, tail: Effect, d: int)
    requires Moves(l, d, 0) && Moves(params, d, 0) && Moves(head, d, 3)
    requires Moves(entries, d + 3, 0) && Moves(tail, d + 3, -3)
    ensures Moves(l.Then(params).Then(head).Then(entries).Then(tail), d, 0)
  {
    ThenMoves(l, params, d, 0, 0);
    ThenMoves(l.Then(params), head, d, 0, 3);
    ThenMoves(l.Then(params).Then(head), entries, d, 3, 0);
    ThenMoves(l.Then(params).Then(head).Then(entries), tail, d, 3, -3);
  }

  lemma BodyHeadMoves(route: string, size: int, d: int)
    requires d >= 0
    ensures Moves(BuilderBodyHead(route, size), d, 3)
  {
    var p, i, r := Emit([Phrase("): String {")]), Emit([Indent]), Emit([Line(ReturnLine(route, size))]);
    OpMoves(Phrase("): String {"), d);
    OpMoves(Indent, d);
    ThenMoves(p, i, d, 0, 1);
    OpMoves(Line(ReturnLine(route, size)), d + 1);
    ThenMoves(p.Then(i), r, d, 1, 0);
    OpMoves(Indent, d + 1);
    ThenMoves(p.Then(i).Then(r), i, d, 1, 1);
    OpMoves(Indent, d + 2);
    ThenMoves(p.Then(i).Then(r).Then(i), i, d, 2, 1);
  }

  lemma BodyTailMoves(d: int)
    requires d >= 3
    ensures Moves(BuilderBodyTail(), d, -3)
  {
    var l, o := Emit([Line("\"\"")]), Emit([Dedent]);
    OpMoves(Line("\"\""), d);
    OpMoves(Dedent, d);
    ThenMoves(l, o, d, 0, -1);
    OpMoves(Dedent, d - 1);
    ThenMoves(l.Then(o), o, d, -1, -1);
    OpMoves(Dedent, d - 2);
    ThenMoves(l.Then(o).Then(o), o, d, -2, -1);
    OpMoves(Line("}"), d - 3);
    ThenMoves(l.Then(o).Then(o).Then(o), Emit([Line("}")]), d, -3, 0);
  }

  lemma RouteMoves(s: Setting, route: string, argumentString: string, d: int)
    requires d >= 0
    ensures Moves(RouteEffect(s, route, argumentString), d, 0)
  {
    var l, i := Emit([Line("val " + s.Extension() + "route")]), Emit([Indent]);
    var g, o := Emit([Line("get() = ")]), Emit([Phrase("\"" + route)]);
    var q, c := RouteQuery(argumentString), Emit([Phrase("\"")]);
    OpMoves(Line("val " + s.Extension() + "route"), d);
    OpMoves(Indent, d);
    ThenMoves(l, i, d, 0, 1);
    OpMoves(Line("get() = "), d + 1);
    ThenMoves(l.Then(i), g, d, 1, 0);
    OpMoves(Phrase("\"" + route), d + 1);
    ThenMoves(l.Then(i).Then(g), o, d, 1, 0);
    if argumentString != "" {
      InlineThen(Emit([Phrase("?")]), Emit([Phrase(argumentString)]));
    }
    InlineMoves(q, d + 1);
    ThenMoves(l.Then(i).Then(g).Then(o), q, d, 1, 0);
    OpMoves(Phrase("\""), d + 1);
    ThenMoves(l.Then(i).Then(g).Then(o).Then(q), c, d, 1, 0);
    OpMoves(Dedent, d + 1);
    ThenMoves(l.Then(i).Then(g).Then(o).Then(q).Then(c), Emit([Dedent]), d, 1, -1);
  }

  // --------------------------------------------------------- the whole visit

  lemma OpeningMoves(s: Setting, cls: ClassDecl)
    ensures Moves(OpeningEffect(s, cls), 0,
                  Wrap(s) + if |s.propertyMap| > 0 && !AllMapped(cls.properties, s.propertyMap) then 1 else 0)
  {
    var w := Wrap(s);
    OpenMoves(s, cls.simpleName, 0);
    DataClassMoves(s, cls.simpleName + "Args", cls.properties, w);
    var m := if AllMapped(cls.properties, s.propertyMap) then 0 else 1;
    WhenMoves(|s.propertyMap| > 0, DataClassEffect(s, cls.simpleName + "Args", cls.properties), w, m);
    ThenMoves(WrapperOpen(s, cls.simpleName),
              When(|s.propertyMap| > 0, DataClassEffect(s, cls.simpleName + "Args", cls.properties)),
              0, w, if |s.propertyMap| > 0 then m else 0);
  }

  lemma CompanionMoves(s: Setting, cls: ClassDecl, d: int)
    requires d >= 0 && (|s.propertyMap| == 0 || AllMapped(cls.properties, s.propertyMap))
    ensures Moves(CompanionEffect(s, cls), d, Wrap(s))
  {
    var w := Wrap(s);
    var name := cls.simpleName + "Args";
    var bundle := ParseFunctionEffect(s, name, cls.properties, BundleSignature, BackStackEntry);
    var state := ParseFunctionEffect(s, name, cls.properties, StateSignatureAsWritten, SavedStateHandle);
    OpenMoves(s, cls.simpleName, d);
    if |s.propertyMap| > 0 {
      ParseFunctionMoves(s, name, cls.properties, BundleSignature, BackStackEntry, d + w);
      ParseFunctionMoves(s, name, cls.properties, StateSignatureAsWritten, SavedStateHandle, d + w);
      ThenMoves(bundle, state, d + w, 0, 0);
    }
    WhenMoves(|s.propertyMap| > 0, bundle.Then(state), d + w, 0);
    ThenMoves(CompanionOpen(s), When(|s.propertyMap| > 0, bundle.Then(state)), d, w, 0);
  }

  /** Four effects in a row, each starting where the previous one left off. */
  lemma ChainMoves(a: Effect, b: Effect, c: Effect, e: Effect, d: int, m: int, n: int, o: int, q: int)
    requires Moves(a, d, m) && Moves(b, d + m, n) && Moves(c, d + m + n, o) && Moves(e, d + m + n + o, q)
    ensures Moves(a.Then(b).Then(c), d, m + n + o)
    ensures Moves(a.Then(b).Then(c).Then(e), d, m + n + o + q)
  {
    ThenMoves(a, b, d, m, n);
    ThenMoves(a.Then(b), c, d, m + n, o);
    ThenMoves(a.Then(b).Then(c), e, d, m + n + o, q);
  }

  lemma TailMoves(s: Setting, cls: ClassDecl, d: int)
    requires AllMapped(cls.properties, s.propertyMap) && d >= 2 * Wrap(s)
    ensures Moves(TailEffect(s, cls), d, -2 * Wrap(s))
  {
    var w := Wrap(s);
    var provider := ProviderClassName(cls, s.argumentProviderMap, s.propertyMap);
    var a := ArgumentString(cls.properties, s.propertyMap, |cls.properties|, |s.propertyMap|);
    BuilderMoves(s, cls.simpleName, cls.properties, provider, d);
    RouteMoves(s, cls.simpleName, a, d);
    CloseMoves(s, d);
    CloseMoves(s, d - w);
    ChainMoves(BuilderEffect(s, cls.simpleName, cls.properties, provider), RouteEffect(s, cls.simpleName, a),
               BlockClose(s), BlockClose(s), d, 0, 0, -w, -w);
  }

  /** The depth a visit leaves the output at, relative to where it started:
      none when the map knows every property, and otherwise the blocks that
      were open at the miss. The visit never closes a block it did not
      open. */
  lemma VisitMoves(s: Setting, cls: ClassDecl)
    ensures Moves(VisitEffect(s, cls), 0,
                  if AllMapped(cls.properties, s.propertyMap) then 0
                  else if |s.propertyMap| > 0 then Wrap(s) + 1
                  else 2 * Wrap(s) + 1)
  {
    var props := cls.properties;
    var w := Wrap(s);
    OpeningMoves(s, cls);
    if !(|s.propertyMap| > 0 && !AllMapped(props, s.propertyMap)) {
      var provider := ProviderClassName(cls, s.argumentProviderMap, s.propertyMap);
      var list := ArgumentListEffect(s, cls.simpleName, props, provider);
      var m := if AllMapped(props, s.propertyMap) then 0 else 1;
      CompanionMoves(s, cls, w);
      ArgumentListMoves(s, cls.simpleName, props, provider, 2 * w);
      if AllMapped(props, s.propertyMap) {
        TailMoves(s, cls, 2 * w);
        ChainMoves(OpeningEffect(s, cls), CompanionEffect(s, cls), list, TailEffect(s, cls), 0, w, w, 0, -2 * w);
      } else {
        ThenMoves(OpeningEffect(s, cls), CompanionEffect(s, cls), 0, w, w);
        ThenMoves(OpeningEffect(s, cls).Then(CompanionEffect(s, cls)), list, 0, 2 * w, 1);
      }
    }
  }

  /** The visit leaves the emitter's indentation as it found it exactly when
      the property map knows every property of the class; in every case no
      block is closed that the visit did not open. */
  lemma VisitBalance(s: Setting, cls: ClassDecl)
    ensures Nested(VisitEffect(s, cls).ops)
    ensures Balanced(VisitEffect(s, cls).ops) <==> AllMapped(cls.properties, s.propertyMap)
  {
    VisitMoves(s, cls);
  }

  /** The same on the output: after the visit the emitter is at the depth it
      was at before exactly when every property is known. */
  lemma VisitDepth(s: Setting, cls: ClassDecl, before: Doc)
    ensures Exec(before, VisitEffect(s, cls).ops).depth == before.depth
        <==> AllMapped(cls.properties, s.propertyMap)
  {
    VisitMoves(s, cls);
  }
}
