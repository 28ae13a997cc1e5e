/** The generator itself: a visitor that, for one route class, writes the
    navigation glue through the emitter and reports problems to the logger.
    Every routine is proved to write exactly the ops, and report exactly the
    diagnostics, of its effect in `Sections` and `TypeRendering`. */
module Visitor {
  import opened Descriptors
  import opened Emission
  import opened Rules
  import opened TypeRendering
  import opened Sections

  class ComposeDestinationVisitor {
    const file: Emitter
    const logger: Logger
    const options: map<string, string>
    const argumentProviderMap: map<ClassDecl, ClassDecl>
    const propertyMap: map<PropertyDecl, PropertyInfo>
    const singletonClass: Option<ClassDecl>

    constructor (
      file: Emitter, logger: Logger, options: map<string, string>,
      argumentProviderMap: map<ClassDecl, ClassDecl>,
      propertyMap: map<PropertyDecl, PropertyInfo>, singletonClass: Option<ClassDecl>)
      ensures this.file == file && this.logger == logger && this.options == options
      ensures this.argumentProviderMap == argumentProviderMap && this.propertyMap == propertyMap
      ensures this.singletonClass == singletonClass
    {
      this.file, this.logger, this.options := file, logger, options;
      this.argumentProviderMap, this.propertyMap, this.singletonClass := argumentProviderMap, propertyMap, singletonClass;
    }

    /** The configuration the effects are stated in. */
    function Config(): Setting
    {
      Setting(options, argumentProviderMap, propertyMap, singletonClass)
    }

    /** Writes one type argument. */
    method VisitTypeArgument(arg: TypeArgument)
      requires file.Valid()
      modifies file, logger
      ensures file.Valid()
      ensures file.history == old(file.history) + ArgumentEffect(arg, Config().IgnoreGenericArgs()).ops
      ensures logger.errors == old(logger.errors) + ArgumentEffect(arg, Config().IgnoreGenericArgs()).errors
      decreases arg, 1
    {
      var ignoreGenericArgs := Config().IgnoreGenericArgs();
      ghost var h0, e0 := file.history, logger.errors;
      if ignoreGenericArgs || arg.variance.Star? {
        ArgumentStar(arg, ignoreGenericArgs);
        RightUnit(e0);
        file.AddPhrase("*");
      } else {
        VisitVariantArgument(arg);
      }
    }

    /** The part of `VisitTypeArgument` for a kept argument that is not a star
        projection. */
    method VisitVariantArgument(arg: TypeArgument)
      requires file.Valid()
      requires !Config().IgnoreGenericArgs() && !arg.variance.Star?
      modifies file, logger
      ensures file.Valid()
      ensures file.history == old(file.history) + ArgumentEffect(arg, false).ops
      ensures logger.errors == old(logger.errors) + ArgumentEffect(arg, false).errors
      decreases arg, 0
    {
      ghost var ignoreGenericArgs := false;
      ghost var h0, e0 := file.history, logger.errors;
      ghost var prefix := VarianceOps(arg.variance);
      if arg.variance.Covariant? || arg.variance.Contravariant? {
        file.AddPhrase(arg.variance.Label());
        ghost var h1 := file.history;
        file.AddPhrase(" ");
        Grew(h0, [Phrase(arg.variance.Label())], h1, [Phrase(" ")], file.history);
      } else {
        RightUnit(h0);
      }
      assert file.history == h0 + prefix;
      match arg.reference {
        case None =>
          ArgumentUnresolved(arg, ignoreGenericArgs);
          logger.Error(InvalidTypeArgument);
        case Some(t) =>
          ArgumentResolved(arg, ignoreGenericArgs);
          ghost var children := ChildArgumentsEffect(t.arguments, ignoreGenericArgs);
          ghost var h1 := file.history;
          file.AddPhrase(t.simpleName);
          ghost var h2 := file.history;
          file.AddPhrase(NullableMarker(t.isNullable));
          Grew(h0, prefix, h1, [Phrase(t.simpleName)], h2);
          Grew(h0, prefix + [Phrase(t.simpleName)], h2, [Phrase(NullableMarker(t.isNullable))], file.history);
          assert prefix + [Phrase(t.simpleName)] + [Phrase(NullableMarker(t.isNullable))]
              == prefix + [Phrase(t.simpleName), Phrase(NullableMarker(t.isNullable))];
          ghost var h3 := file.history;
          VisitChildTypeArguments(t.arguments);
          Grew(h0, prefix + [Phrase(t.simpleName), Phrase(NullableMarker(t.isNullable))], h3, children.ops, file.history);
      }
    }

    /** Writes a type-argument list, when it is not empty, between angle
        brackets, with a separator line between arguments. */
    method VisitChildTypeArguments(args: seq<TypeArgument>)
      requires file.Valid()
      modifies file, logger
      ensures file.Valid()
      ensures file.history == old(file.history) + ChildArgumentsEffect(args, Config().IgnoreGenericArgs()).ops
      ensures logger.errors == old(logger.errors) + ChildArgumentsEffect(args, Config().IgnoreGenericArgs()).errors
      decreases args, 3
    {
      ghost var ig := Config().IgnoreGenericArgs();
      ghost var h0, e0 := file.history, logger.errors;
      ChildArgumentsShape(args, ig);
      if |args| > 0 {
        ghost var body := IterationsEffect(args, |args|, ig);
        file.AddPhrase("<");
        ghost var h1 := file.history;
        VisitListEntries(args);
        ghost var h2 := file.history;
        file.AddPhrase(">");
        Grew(h0, [Phrase("<")], h1, body.ops, h2);
        Grew(h0, [Phrase("<")] + body.ops, h2, [Phrase(">")], file.history);
      } else {
        RightUnit(h0);
        RightUnit(e0);
      }
    }

    /** The loop in `VisitChildTypeArguments`, over every argument. */
    method VisitListEntries(args: seq<TypeArgument>)
      requires file.Valid()
      modifies file, logger
      ensures file.Valid()
      ensures file.history == old(file.history) + IterationsEffect(args, |args|, Config().IgnoreGenericArgs()).ops
      ensures logger.errors == old(logger.errors) + IterationsEffect(args, |args|, Config().IgnoreGenericArgs()).errors
      decreases args, 2
    {
      ghost var ig := Config().IgnoreGenericArgs();
      ghost var h1, e1 := file.history, logger.errors;
      assert IterationsEffect(args, 0, ig) == Effect([], []);
      RightUnit(h1);
      RightUnit(e1);
      var i := 0;
      while i < |args|
        invariant 0 <= i <= |args|
        invariant file.Valid()
        invariant file.history == h1 + IterationsEffect(args, i, ig).ops
        invariant logger.errors == e1 + IterationsEffect(args, i, ig).errors
      {
        VisitListEntry(args, i, h1, e1);
        i := i + 1;
      }
    }

    /** One pass of the loop in `VisitChildTypeArguments`: the argument, then
        a separator line unless it is the last one. */
    method VisitListEntry(args: seq<TypeArgument>, i: nat, ghost h1: seq<Op>, ghost e1: seq<Diagnostic>)
      requires file.Valid() && i < |args|
      requires file.history == h1 + IterationsEffect(args, i, Config().IgnoreGenericArgs()).ops
      requires logger.errors == e1 + IterationsEffect(args, i, Config().IgnoreGenericArgs()).errors
      modifies file, logger
      ensures file.Valid()
      ensures file.history == h1 + IterationsEffect(args, i + 1, Config().IgnoreGenericArgs()).ops
      ensures logger.errors == e1 + IterationsEffect(args, i + 1, Config().IgnoreGenericArgs()).errors
      decreases args, 1
    {
      ghost var ig := Config().IgnoreGenericArgs();
      ghost var one := ArgumentEffect(args[i], ig);
      IterationsShape(args, i, ig);
      ghost var h0, e0 := file.history, logger.errors;
      VisitTypeArgument(args[i]);
      ghost var h2 := file.history;
      if i < |args| - 1 {
        file.AddLine(", ");
      } else {
        RightUnit(h2);
      }
      Grew(h0, one.ops, h2, if i < |args| - 1 then [Line(", ")] else [], file.history);
      Grew(h1, IterationsEffect(args, i, ig).ops, h0, one.ops + (if i < |args| - 1 then [Line(", ")] else []), file.history);
      Grew(e1, IterationsEffect(args, i, ig).errors, e0, one.errors, logger.errors);
    }

    /** Writes a property's declared type. */
    method AddVariableType(info: PropertyInfo)
      requires file.Valid()
      modifies file, logger
      ensures file.Valid()
      ensures file.history == old(file.history) + VariableTypeEffect(info, Config().IgnoreGenericArgs()).ops
      ensures logger.errors == old(logger.errors) + VariableTypeEffect(info, Config().IgnoreGenericArgs()).errors
    {
      ghost var ig := Config().IgnoreGenericArgs();
      ghost var children := ChildArgumentsEffect(info.typeArguments, ig);
      VariableTypeShape(info, ig);
      ghost var h0 := file.history;
      file.AddPhrase(info.resolvedClassSimpleName);
      ghost var h1 := file.history;
      VisitChildTypeArguments(info.typeArguments);
      Grew(h0, [Phrase(info.resolvedClassSimpleName)], h1, children.ops, file.history);
      ghost var h2 := file.history;
      file.AddPhrase(NullableMarker(info.isNullable));
      Grew(h0, [Phrase(info.resolvedClassSimpleName)] + children.ops, h2, [Phrase(NullableMarker(info.isNullable))], file.history);
    }

    // ------------------------------------------------------------ wrappers

    method OpenWrapper(route: string)
      requires file.Valid()
      modifies file
      ensures file.Valid()
      ensures file.history == old(file.history) + WrapperOpen(Config(), route).ops
      ensures logger.errors == old(logger.errors) + WrapperOpen(Config(), route).errors
    {
      ghost var h0, e0 := file.history, logger.errors;
      if singletonClass == None {
        var header := "class " + route + "Destination {";
        file.AddLine(header);
        Started(h0, e0, [Line(header)], file.history);
        ghost var h := file.history;
        file.IncreaseIndent();
        Wrote(h0, e0, Emit([Line(header)]), h, e0, [Indent], file.history);
      } else {
        Skipped(h0, e0);
      }
    }

    method OpenCompanion()
      requires file.Valid()
      modifies file
      ensures file.Valid()
      ensures file.history == old(file.history) + CompanionOpen(Config()).ops
      ensures logger.errors == old(logger.errors) + CompanionOpen(Config()).errors
    {
      ghost var h0, e0 := file.history, logger.errors;
      if singletonClass == None {
        file.AddLine("companion object {");
        Started(h0, e0, [Line("companion object {")], file.history);
        ghost var h := file.history;
        file.IncreaseIndent();
        Wrote(h0, e0, Emit([Line("companion object {")]), h, e0, [Indent], file.history);
      } else {
        Skipped(h0, e0);
      }
    }

    method CloseBlock()
      requires file.Valid()
      modifies file
      ensures file.Valid()
      ensures file.history == old(file.history) + BlockClose(Config()).ops
      ensures logger.errors == old(logger.errors) + BlockClose(Config()).errors
    {
      ghost var h0, e0 := file.history, logger.errors;
      if singletonClass == None {
        file.DecreaseIndent();
        Started(h0, e0, [Dedent], file.history);
        ghost var h := file.history;
        file.AddLine("}");
        Wrote(h0, e0, Emit([Dedent]), h, e0, [Line("}")], file.history);
      } else {
        Skipped(h0, e0);
      }
    }

    /** The diagnostic for a property the map does not know. */
    method ReportInvalid()
      modifies logger
      ensures file.history == old(file.history) + Report(InvalidTypeArgument).ops
      ensures logger.errors == old(logger.errors) + Report(InvalidTypeArgument).errors
    {
      logger.Error(InvalidTypeArgument);
      RightUnit(file.history);
    }

    // ---------------------------------------------------- the arguments class

    method AddField(info: PropertyInfo)
      requires file.Valid()
      modifies file, logger
      ensures file.Valid()
      ensures file.history == old(file.history) + FieldEffect(Config(), info).ops
      ensures logger.errors == old(logger.errors) + FieldEffect(Config(), info).errors
    {
      ghost var ig := Config().IgnoreGenericArgs();
      ghost var h0, e0 := file.history, logger.errors;
      var line := "val " + info.propertyName + ": ";
      file.AddLine(line);
      Started(h0, e0, [Line(line)], file.history);
      ghost var h, e := file.history, logger.errors;
      AddVariableType(info);
      Compose(h0, e0, Emit([Line(line)]), h, e, VariableTypeEffect(info, ig), file.history, logger.errors);
      h, e := file.history, logger.errors;
      file.AddPhrase(", ");
      Wrote(h0, e0, Emit([Line(line)]).Then(VariableTypeEffect(info, ig)), h, e, [Phrase(", ")], file.history);
    }

    /** The constructor parameter for the mapped property at index `i`,
        after those before it. */
    method AddFieldAt(props: seq<PropertyDecl>, i: nat, ghost h0: seq<Op>, ghost e0: seq<Diagnostic>)
      requires file.Valid()
      requires i < MappedPrefix(props, propertyMap)
      requires file.history == h0 + PrefixEffect(Config(), Fields, props, i).ops
      requires logger.errors == e0 + PrefixEffect(Config(), Fields, props, i).errors
      modifies file, logger
      ensures file.Valid()
      ensures file.history == h0 + PrefixEffect(Config(), Fields, props, i + 1).ops
      ensures logger.errors == e0 + PrefixEffect(Config(), Fields, props, i + 1).errors
    {
      ghost var s := Config();
      ghost var done := PrefixEffect(s, Fields, props, i);
      ghost var h, e := file.history, logger.errors;
      var info := propertyMap[props[i]];
      AddField(info);
      ItemNow(s, Fields, info, i + 1);
      Compose(h0, e0, done, h, e, ItemAfter(3, s, Fields, info, i + 1), file.history, logger.errors);
    }

    /** The constructor parameters of the arguments data class, up to the
        first property the map does not know; `ok` is false at a miss. */
    method AddFields(props: seq<PropertyDecl>) returns (ok: bool)
      requires file.Valid()
      modifies file, logger
      ensures file.Valid()
      ensures ok == AllMapped(props, propertyMap)
      ensures file.history == old(file.history) + LoopEffect(Config(), Fields, props).ops
      ensures logger.errors == old(logger.errors) + LoopEffect(Config(), Fields, props).errors
    {
      ghost var h0, e0 := file.history, logger.errors;
      Skipped(h0, e0);
      var i := 0;
      while i < |props| && props[i] in propertyMap
        invariant i <= MappedPrefix(props, propertyMap)
        invariant file.Valid()
        invariant file.history == h0 + PrefixEffect(Config(), Fields, props, i).ops
        invariant logger.errors == e0 + PrefixEffect(Config(), Fields, props, i).errors
      {
        StillMapped(props, propertyMap, i);
        AddFieldAt(props, i, h0, e0);
        i := i + 1;
      }
      ok := i == |props|;
      if !ok {
        FirstMiss(props, propertyMap, i);
        ghost var h, e := file.history, logger.errors;
        ReportInvalid();
        Compose(h0, e0, PrefixEffect(Config(), Fields, props, i), h, e,
                Report(InvalidTypeArgument), file.history, logger.errors);
      } else {
        assert MappedPrefix(props, propertyMap) == i;
      }
    }

    /** The arguments data class; `ok` is false when a property lookup
        missed, after which the visit stops. */
    method AddDataClass(dataClassName: string, props: seq<PropertyDecl>) returns (ok: bool)
      requires file.Valid()
      modifies file, logger
      ensures file.Valid()
      ensures ok == AllMapped(props, propertyMap)
      ensures file.history == old(file.history) + DataClassEffect(Config(), dataClassName, props).ops
      ensures logger.errors == old(logger.errors) + DataClassEffect(Config(), dataClassName, props).errors
    {
      ghost var s := Config();
      ghost var h0, e0 := file.history, logger.errors;
      AddDataClassHead(dataClassName);
      ghost var acc := DataClassHead(dataClassName);
      ghost var h, e := file.history, logger.errors;
      ok := AddFields(props);
      Compose(h0, e0, acc, h, e, LoopEffect(s, Fields, props), file.history, logger.errors);
      acc := acc.Then(LoopEffect(s, Fields, props));
      h, e := file.history, logger.errors;
      if ok {
        AddDataClassClose();
      } else {
        Skipped(h, e);
      }
      Compose(h0, e0, acc, h, e, When(ok, DataClassClose()), file.history, logger.errors);
    }

    method AddDataClassHead(dataClassName: string)
      requires file.Valid()
      modifies file
      ensures file.Valid()
      ensures file.history == old(file.history) + DataClassHead(dataClassName).ops
      ensures logger.errors == old(logger.errors) + DataClassHead(dataClassName).errors
    {
      ghost var h0, e0 := file.history, logger.errors;
      var header := "data class " + dataClassName + " (";
      file.AddLine(header);
      Started(h0, e0, [Line(header)], file.history);
      ghost var h := file.history;
      file.IncreaseIndent();
      Wrote(h0, e0, Emit([Line(header)]), h, e0, [Indent], file.history);
    }

    method AddDataClassClose()
      requires file.Valid()
      modifies file
      ensures file.Valid()
      ensures file.history == old(file.history) + DataClassClose().ops
      ensures logger.errors == old(logger.errors) + DataClassClose().errors
    {
      ghost var h0, e0 := file.history, logger.errors;
      file.DecreaseIndent();
      Started(h0, e0, [Dedent], file.history);
      ghost var h := file.history;
      file.AddLine(")");
      Wrote(h0, e0, Emit([Dedent]), h, e0, [Line(")")], file.history);
    }

    // --------------------------------------------------------- the decoders

    /** How `decoder` reads one property, with its fallback. */
    method GetParsedElement(decoder: Decoder, info: PropertyInfo)
      requires file.Valid()
      modifies file, logger
      ensures file.Valid()
      ensures file.history == old(file.history) + ParsedElementEffect(decoder, info, Config().IgnoreGenericArgs()).ops
      ensures logger.errors == old(logger.errors) + ParsedElementEffect(decoder, info, Config().IgnoreGenericArgs()).errors
    {
      var kind := info.composeArgumentType;
      if kind.Parcelable? {
        GetParcelable(info);
      } else if kind.ParcelableArray? {
        GetParcelableArray(info);
      } else if kind.Serializable? {
        GetSerializable(info);
      } else {
        GetScalar(decoder, info);
      }
    }

    method GetParcelable(info: PropertyInfo)
      requires file.Valid()
      modifies file, logger
      ensures file.Valid()
      ensures file.history == old(file.history) + ParcelableRead(info, Config().IgnoreGenericArgs()).ops
      ensures logger.errors == old(logger.errors) + ParcelableRead(info, Config().IgnoreGenericArgs()).errors
    {
      ghost var ig := Config().IgnoreGenericArgs();
      ghost var h0, e0 := file.history, logger.errors;
      var read := BundleReceiver + "getParcelable<";
      file.AddPhrase(read);
      Started(h0, e0, [Phrase(read)], file.history);
      ghost var acc := Emit([Phrase(read)]);
      ghost var h, e := file.history, logger.errors;
      AddVariableType(info);
      Compose(h0, e0, acc, h, e, VariableTypeEffect(info, ig), file.history, logger.errors);
      acc := acc.Then(VariableTypeEffect(info, ig));
      h, e := file.history, logger.errors;
      var key := ">(\"" + info.propertyName + "\")";
      file.AddPhrase(key);
      Wrote(h0, e0, acc, h, e, [Phrase(key)], file.history);
      acc := acc.Then(Emit([Phrase(key)]));
      h := file.history;
      file.AddPhraseIf(!info.isNullable, NotFoundFallback);
      Wrote(h0, e0, acc, h, e, ThrowIfMissing(info), file.history);
    }

    method GetParcelableArray(info: PropertyInfo)
      requires file.Valid()
      modifies file, logger
      ensures file.Valid()
      ensures file.history == old(file.history) + ParcelableArrayRead(info, Config().IgnoreGenericArgs()).ops
      ensures logger.errors == old(logger.errors) + ParcelableArrayRead(info, Config().IgnoreGenericArgs()).errors
    {
      ghost var ig := Config().IgnoreGenericArgs();
      ghost var h0, e0 := file.history, logger.errors;
      var read := BundleReceiver + "getParcelableArrayList";
      file.AddPhrase(read);
      Started(h0, e0, [Phrase(read)], file.history);
      ghost var acc := Emit([Phrase(read)]);
      ghost var h, e := file.history, logger.errors;
      VisitChildTypeArguments(info.typeArguments);
      Compose(h0, e0, acc, h, e, ChildArgumentsEffect(info.typeArguments, ig), file.history, logger.errors);
      acc := acc.Then(ChildArgumentsEffect(info.typeArguments, ig));
      h, e := file.history, logger.errors;
      var key := "(\"" + info.propertyName + "\")";
      file.AddPhrase(key);
      Wrote(h0, e0, acc, h, e, [Phrase(key)], file.history);
      acc := acc.Then(Emit([Phrase(key)]));
      h := file.history;
      file.AddPhraseIf(!info.isNullable, NotFoundFallback);
      Wrote(h0, e0, acc, h, e, ThrowIfMissing(info), file.history);
    }

    method GetSerializable(info: PropertyInfo)
      requires file.Valid()
      modifies file, logger
      ensures file.Valid()
      ensures file.history == old(file.history) + SerializableRead(info, Config().IgnoreGenericArgs()).ops
      ensures logger.errors == old(logger.errors) + SerializableRead(info, Config().IgnoreGenericArgs()).errors
    {
      ghost var ig := Config().IgnoreGenericArgs();
      ghost var h0, e0 := file.history, logger.errors;
      var read := BundleReceiver + "getSerializable";
      file.AddPhrase(read);
      Started(h0, e0, [Phrase(read)], file.history);
      ghost var acc := Emit([Phrase(read)]);
      ghost var h, e := file.history, logger.errors;
      var key := "(\"" + info.propertyName + "\") as";
      file.AddPhrase(key);
      Wrote(h0, e0, acc, h, e, [Phrase(key)], file.history);
      acc := acc.Then(Emit([Phrase(key)]));
      h := file.history;
      file.AddPhraseIf(info.isNullable, "?");
      Wrote(h0, e0, acc, h, e, PhraseIf(info.isNullable, "?"), file.history);
      acc := acc.Then(Emit(PhraseIf(info.isNullable, "?")));
      h := file.history;
      file.AddPhrase(" ");
      Wrote(h0, e0, acc, h, e, [Phrase(" ")], file.history);
      acc := acc.Then(Emit([Phrase(" ")]));
      h := file.history;
      AddVariableType(info);
      Compose(h0, e0, acc, h, e, VariableTypeEffect(info, ig), file.history, logger.errors);
      acc := acc.Then(VariableTypeEffect(info, ig));
      h, e := file.history, logger.errors;
      file.AddPhraseIf(!info.isNullable, NotFoundFallback);
      Wrote(h0, e0, acc, h, e, ThrowIfMissing(info), file.history);
    }

    /** The scalar and primitive-array kinds: the decoder's own read, and the
        kind's literal when the property is not nullable. */
    method GetScalar(decoder: Decoder, info: PropertyInfo)
      requires file.Valid() && !info.composeArgumentType.IsOpaque()
      modifies file
      ensures file.Valid()
      ensures file.history == old(file.history) + ScalarRead(decoder, info).ops
      ensures logger.errors == old(logger.errors) + ScalarRead(decoder, info).errors
    {
      ghost var h0, e0 := file.history, logger.errors;
      var kind := info.composeArgumentType;
      var read := DecoderPhrase(decoder, kind, info.propertyName).value;
      file.AddPhrase(read);
      Started(h0, e0, [Phrase(read)], file.history);
      ghost var h := file.history;
      var fallback := " ?: " + DefaultLiteral(kind).value;
      file.AddPhraseIf(!info.isNullable, fallback);
      Wrote(h0, e0, Emit([Phrase(read)]), h, e0, PhraseIf(!info.isNullable, fallback), file.history);
    }

    /** One named argument of the decoder's constructor call. */
    method AddParseItem(decoder: Decoder, info: PropertyInfo)
      requires file.Valid()
      modifies file, logger
      ensures file.Valid()
      ensures file.history == old(file.history) + ParseItemEffect(decoder, info, Config().IgnoreGenericArgs()).ops
      ensures logger.errors == old(logger.errors) + ParseItemEffect(decoder, info, Config().IgnoreGenericArgs()).errors
    {
      ghost var ig := Config().IgnoreGenericArgs();
      ghost var h0, e0 := file.history, logger.errors;
      var line := info.propertyName + " = ";
      file.AddLine(line);
      Started(h0, e0, [Line(line)], file.history);
      ghost var h, e := file.history, logger.errors;
      GetParsedElement(decoder, info);
      Compose(h0, e0, Emit([Line(line)]), h, e, ParsedElementEffect(decoder, info, ig), file.history, logger.errors);
      h, e := file.history, logger.errors;
      file.AddPhrase(", ");
      Wrote(h0, e0, Emit([Line(line)]).Then(ParsedElementEffect(decoder, info, ig)), h, e, [Phrase(", ")], file.history);
    }

    /** The named argument for the mapped property at index `i`, after those
        before it. */
    method AddParseItemAt(decoder: Decoder, props: seq<PropertyDecl>, i: nat, ghost h0: seq<Op>, ghost e0: seq<Diagnostic>)
      requires file.Valid()
      requires i < MappedPrefix(props, propertyMap)
      requires file.history == h0 + PrefixEffect(Config(), ParseItems(decoder), props, i).ops
      requires logger.errors == e0 + PrefixEffect(Config(), ParseItems(decoder), props, i).errors
      modifies file, logger
      ensures file.Valid()
      ensures file.history == h0 + PrefixEffect(Config(), ParseItems(decoder), props, i + 1).ops
      ensures logger.errors == e0 + PrefixEffect(Config(), ParseItems(decoder), props, i + 1).errors
    {
      ghost var ig := Config().IgnoreGenericArgs();
      ghost var done := PrefixEffect(Config(), ParseItems(decoder), props, i);
      ghost var h, e := file.history, logger.errors;
      var info := propertyMap[props[i]];
      AddParseItem(decoder, info);
      ItemNow(Config(), ParseItems(decoder), info, i + 1);
      Compose(h0, e0, done, h, e, ItemAfter(3, Config(), ParseItems(decoder), info, i + 1), file.history, logger.errors);
    }

    /** The decoder's named arguments, up to the first property the map does
        not know; `ok` is false at a miss. */
    method AddParseItems(decoder: Decoder, props: seq<PropertyDecl>) returns (ok: bool)
      requires file.Valid()
      modifies file, logger
      ensures file.Valid()
      ensures ok == AllMapped(props, propertyMap)
      ensures file.history == old(file.history) + LoopEffect(Config(), ParseItems(decoder), props).ops
      ensures logger.errors == old(logger.errors) + LoopEffect(Config(), ParseItems(decoder), props).errors
    {
      ghost var ig := Config().IgnoreGenericArgs();
      ghost var h0, e0 := file.history, logger.errors;
      Skipped(h0, e0);
      var i := 0;
      while i < |props| && props[i] in propertyMap
        invariant i <= MappedPrefix(props, propertyMap)
        invariant file.Valid()
        invariant file.history == h0 + PrefixEffect(Config(), ParseItems(decoder), props, i).ops
        invariant logger.errors == e0 + PrefixEffect(Config(), ParseItems(decoder), props, i).errors
      {
        StillMapped(props, propertyMap, i);
        AddParseItemAt(decoder, props, i, h0, e0);
        i := i + 1;
      }
      ok := i == |props|;
      if !ok {
        FirstMiss(props, propertyMap, i);
        ghost var h, e := file.history, logger.errors;
        ReportInvalid();
        Compose(h0, e0, PrefixEffect(Config(), ParseItems(decoder), props, i), h, e,
                Report(InvalidTypeArgument), file.history, logger.errors);
      } else {
        assert MappedPrefix(props, propertyMap) == i;
      }
    }

    /** A decoder function: its header with `signature`, then a constructor
        call of the arguments class with one named argument per property. At
        a lookup miss the function is left open and the routine returns. */
    method AddParseFunction(dataClassName: string, props: seq<PropertyDecl>, signature: string, decoder: Decoder)
      requires file.Valid()
      modifies file, logger
      ensures file.Valid()
      ensures file.history == old(file.history) + ParseFunctionEffect(Config(), dataClassName, props, signature, decoder).ops
      ensures logger.errors == old(logger.errors) + ParseFunctionEffect(Config(), dataClassName, props, signature, decoder).errors
    {
      ghost var s := Config();
      ghost var h0, e0 := file.history, logger.errors;
      AddParseFunctionHead(dataClassName, signature);
      ghost var acc := ParseFunctionHead(s, dataClassName, signature);
      ghost var h, e := file.history, logger.errors;
      var ok := AddParseItems(decoder, props);
      Compose(h0, e0, acc, h, e, LoopEffect(s, ParseItems(decoder), props), file.history, logger.errors);
      acc := acc.Then(LoopEffect(s, ParseItems(decoder), props));
      h, e := file.history, logger.errors;
      if ok {
        AddParseFunctionClose();
      } else {
        Skipped(h, e);
      }
      Compose(h0, e0, acc, h, e, When(ok, ParseFunctionClose()), file.history, logger.errors);
    }

    method AddParseFunctionHead(dataClassName: string, signature: string)
      requires file.Valid()
      modifies file
      ensures file.Valid()
      ensures file.history == old(file.history) + ParseFunctionHead(Config(), dataClassName, signature).ops
      ensures logger.errors == old(logger.errors) + ParseFunctionHead(Config(), dataClassName, signature).errors
    {
      ghost var h0, e0 := file.history, logger.errors;
      var header := "fun " + SingletonExtension(singletonClass) + signature + ": " + dataClassName + " {";
      file.AddLine(header);
      Started(h0, e0, [Line(header)], file.history);
      ghost var acc := Emit([Line(header)]);
      ghost var h := file.history;
      file.IncreaseIndent();
      Wrote(h0, e0, acc, h, e0, [Indent], file.history);
      acc := acc.Then(Emit([Indent]));
      h := file.history;
      file.AddLine("return ");
      Wrote(h0, e0, acc, h, e0, [Line("return ")], file.history);
      acc := acc.Then(Emit([Line("return ")]));
      h := file.history;
      file.AddPhrase(dataClassName + "(");
      Wrote(h0, e0, acc, h, e0, [Phrase(dataClassName + "(")], file.history);
      acc := acc.Then(Emit([Phrase(dataClassName + "(")]));
      h := file.history;
      file.IncreaseIndent();
      Wrote(h0, e0, acc, h, e0, [Indent], file.history);
    }

    method AddParseFunctionClose()
      requires file.Valid()
      modifies file
      ensures file.Valid()
      ensures file.history == old(file.history) + ParseFunctionClose().ops
      ensures logger.errors == old(logger.errors) + ParseFunctionClose().errors
    {
      ghost var h0, e0 := file.history, logger.errors;
      file.DecreaseIndent();
      Started(h0, e0, [Dedent], file.history);
      ghost var acc := Emit([Dedent]);
      ghost var h := file.history;
      file.AddLine(")");
      Wrote(h0, e0, acc, h, e0, [Line(")")], file.history);
      acc := acc.Then(Emit([Line(")")]));
      h := file.history;
      file.DecreaseIndent();
      Wrote(h0, e0, acc, h, e0, [Dedent], file.history);
      acc := acc.Then(Emit([Dedent]));
      h := file.history;
      file.AddLine("}");
      Wrote(h0, e0, acc, h, e0, [Line("}")], file.history);
    }

    // ---------------------------------------------------- the argument list

    /** The text standing for a default value after `prefix`: the provider's
        member, or, with no provider, a diagnostic and the text the logger's
        return value has in the template. */
    method AddDefaultValue(prefix: string, provider: Option<string>, name: string)
      requires file.Valid()
      modifies file, logger
      ensures file.Valid()
      ensures file.history == old(file.history) + DefaultValueEffect(prefix, provider, name).ops
      ensures logger.errors == old(logger.errors) + DefaultValueEffect(prefix, provider, name).errors
    {
      ghost var h0, e0 := file.history, logger.errors;
      match provider {
        case Some(p) =>
          file.AddPhrase(prefix + p + "." + name);
          Started(h0, e0, [Phrase(prefix + p + "." + name)], file.history);
        case None =>
          logger.Error(NoProviderFound(name));
          RightUnit(h0);
          ghost var e := logger.errors;
          file.AddPhrase(prefix + UnitText + "." + name);
          Wrote(h0, e0, Report(NoProviderFound(name)), h0, e, [Phrase(prefix + UnitText + "." + name)], file.history);
      }
    }

    method AddNavArgumentHead(route: string, info: PropertyInfo)
      requires file.Valid()
      modifies file
      ensures file.Valid()
      ensures file.history == old(file.history) + NavArgumentHead(route, info).ops
      ensures logger.errors == old(logger.errors) + NavArgumentHead(route, info).errors
    {
      ghost var h0, e0 := file.history, logger.errors;
      file.IncreaseIndent();
      Started(h0, e0, [Indent], file.history);
      ghost var acc := Emit([Indent]);
      ghost var h := file.history;
      var open := "navArgument(\"" + info.propertyName + "\") {";
      file.AddLine(open);
      Wrote(h0, e0, acc, h, e0, [Line(open)], file.history);
      acc := acc.Then(Emit([Line(open)]));
      h := file.history;
      file.IncreaseIndent();
      Wrote(h0, e0, acc, h, e0, [Indent], file.history);
      acc := acc.Then(Emit([Indent]));
      h := file.history;
      var typeLine := "type = " + NavTypeTag(route, info);
      file.AddLine(typeLine);
      Wrote(h0, e0, acc, h, e0, [Line(typeLine)], file.history);
      acc := acc.Then(Emit([Line(typeLine)]));
      h := file.history;
      var nullableLine := "nullable = " + BoolText(info.isNullable);
      file.AddLine(nullableLine);
      Wrote(h0, e0, acc, h, e0, [Line(nullableLine)], file.history);
    }

    method AddDefaultLine(info: PropertyInfo, provider: Option<string>)
      requires file.Valid()
      modifies file, logger
      ensures file.Valid()
      ensures file.history == old(file.history) + DefaultLineEffect(info, provider).ops
      ensures logger.errors == old(logger.errors) + DefaultLineEffect(info, provider).errors
    {
      ghost var h0, e0 := file.history, logger.errors;
      if info.hasDefaultValue {
        file.AddLine("defaultValue = ");
        Started(h0, e0, [Line("defaultValue = ")], file.history);
        ghost var h, e := file.history, logger.errors;
        AddDefaultValue("", provider, info.propertyName);
        Compose(h0, e0, Emit([Line("defaultValue = ")]), h, e, DefaultValueEffect("", provider, info.propertyName),
                file.history, logger.errors);
      } else {
        Skipped(h0, e0);
      }
    }

    /** One `navArgument` registration of the argument list. */
    method AddNavArgument(route: string, info: PropertyInfo, provider: Option<string>)
      requires file.Valid()
      modifies file, logger
      ensures file.Valid()
      ensures file.history == old(file.history) + NavArgumentEffect(route, info, provider).ops
      ensures logger.errors == old(logger.errors) + NavArgumentEffect(route, info, provider).errors
    {
      ghost var h0, e0 := file.history, logger.errors;
      AddNavArgumentHead(route, info);
      ghost var acc := NavArgumentHead(route, info);
      ghost var h, e := file.history, logger.errors;
      AddDefaultLine(info, provider);
      Compose(h0, e0, acc, h, e, DefaultLineEffect(info, provider), file.history, logger.errors);
      acc := acc.Then(DefaultLineEffect(info, provider));
      h, e := file.history, logger.errors;
      file.DecreaseIndent();
      Wrote(h0, e0, acc, h, e, [Dedent], file.history);
      acc := acc.Then(Emit([Dedent]));
      h := file.history;
      file.AddLine("},");
      Wrote(h0, e0, acc, h, e, [Line("},")], file.history);
      acc := acc.Then(Emit([Line("},")]));
      h := file.history;
      file.DecreaseIndent();
      Wrote(h0, e0, acc, h, e, [Dedent], file.history);
    }

    /** The registration of the mapped property at index `i`, after those
        before it. */
    method AddRegistration(
      route: string, props: seq<PropertyDecl>, provider: Option<string>, i: nat,
      ghost h0: seq<Op>, ghost e0: seq<Diagnostic>)
      requires file.Valid()
      requires i < MappedPrefix(props, propertyMap)
      requires file.history == h0 + PrefixEffect(Config(), Registrations(route, provider), props, i).ops
      requires logger.errors == e0 + PrefixEffect(Config(), Registrations(route, provider), props, i).errors
      modifies file, logger
      ensures file.Valid()
      ensures file.history == h0 + PrefixEffect(Config(), Registrations(route, provider), props, i + 1).ops
      ensures logger.errors == e0 + PrefixEffect(Config(), Registrations(route, provider), props, i + 1).errors
    {
      ghost var done := PrefixEffect(Config(), Registrations(route, provider), props, i);
      ghost var h, e := file.history, logger.errors;
      var info := propertyMap[props[i]];
      AddNavArgument(route, info, provider);
      ItemNow(Config(), Registrations(route, provider), info, i + 1);
      Compose(h0, e0, done, h, e, ItemAfter(3, Config(), Registrations(route, provider), info, i + 1), file.history, logger.errors);
    }

    /** The route query after the mapped property at index `i` and position
        `count`: its placeholder, with a comma unless `count` is the size of
        the property map. */
    method AppendPlaceholder(props: seq<PropertyDecl>, i: nat, count: int, before: string) returns (after: string)
      requires i < MappedPrefix(props, propertyMap) && count == i + 1
      requires before == ArgumentString(props, propertyMap, i, |propertyMap|)
      ensures after == ArgumentString(props, propertyMap, i + 1, |propertyMap|)
    {
      var info := propertyMap[props[i]];
      after := before + Placeholder(info.propertyName);
      if count != |propertyMap| {
        after := after + ",";
      } else {
        RightUnit(after);
      }
      ArgumentStringStep(props, propertyMap, i, count, |propertyMap|, before, after);
    }

    /** The registrations of the argument list, up to the first property the
        map does not know, and the route query they accumulate; `ok` is false
        at a miss. */
    method AddNavArguments(route: string, props: seq<PropertyDecl>, provider: Option<string>)
      returns (ok: bool, argumentString: string)
      requires file.Valid()
      modifies file, logger
      ensures file.Valid()
      ensures ok == AllMapped(props, propertyMap)
      ensures ok ==> argumentString == ArgumentString(props, propertyMap, |props|, |propertyMap|)
      ensures file.history == old(file.history) + LoopEffect(Config(), Registrations(route, provider), props).ops
      ensures logger.errors == old(logger.errors) + LoopEffect(Config(), Registrations(route, provider), props).errors
    {
      ghost var h0, e0 := file.history, logger.errors;
      Skipped(h0, e0);
      argumentString := "";
      var count := 0;
      var i := 0;
      while i < |props| && props[i] in propertyMap
        invariant i <= MappedPrefix(props, propertyMap)
        invariant count == i
        invariant file.Valid()
        invariant argumentString == ArgumentString(props, propertyMap, i, |propertyMap|)
        invariant file.history == h0 + PrefixEffect(Config(), Registrations(route, provider), props, i).ops
        invariant logger.errors == e0 + PrefixEffect(Config(), Registrations(route, provider), props, i).errors
      {
        count := count + 1;
        StillMapped(props, propertyMap, i);
        AddRegistration(route, props, provider, i, h0, e0);
        argumentString := AppendPlaceholder(props, i, count, argumentString);
        i := i + 1;
      }
      ok := i == |props|;
      if !ok {
        FirstMiss(props, propertyMap, i);
        ghost var h, e := file.history, logger.errors;
        ReportInvalid();
        Compose(h0, e0, PrefixEffect(Config(), Registrations(route, provider), props, i), h, e,
                Report(InvalidTypeArgument), file.history, logger.errors);
      } else {
        assert MappedPrefix(props, propertyMap) == i;
      }
    }

    method AddArgumentListHead()
      requires file.Valid()
      modifies file
      ensures file.Valid()
      ensures file.history == old(file.history) + ArgumentListHead(Config()).ops
      ensures logger.errors == old(logger.errors) + ArgumentListHead(Config()).errors
    {
      ghost var h0, e0 := file.history, logger.errors;
      var line := "val " + SingletonExtension(singletonClass) + "argumentList";
      file.AddLine(line);
      Started(h0, e0, [Line(line)], file.history);
      ghost var acc := Emit([Line(line)]);
      ghost var h := file.history;
      file.AddPhrase(": MutableList<NamedNavArgument> ");
      Wrote(h0, e0, acc, h, e0, [Phrase(": MutableList<NamedNavArgument> ")], file.history);
      acc := acc.Then(Emit([Phrase(": MutableList<NamedNavArgument> ")]));
      h := file.history;
      file.IncreaseIndent();
      Wrote(h0, e0, acc, h, e0, [Indent], file.history);
      acc := acc.Then(Emit([Indent]));
      h := file.history;
      file.AddLine("get() = mutableListOf(");
      Wrote(h0, e0, acc, h, e0, [Line("get() = mutableListOf(")], file.history);
    }

    /** The argument list: one registration per property. At a lookup miss
        the list is left open and `ok` is false, after which the visit stops. */
    method AddArgumentList(route: string, props: seq<PropertyDecl>, provider: Option<string>)
      returns (ok: bool, argumentString: string)
      requires file.Valid()
      modifies file, logger
      ensures file.Valid()
      ensures ok == AllMapped(props, propertyMap)
      ensures ok ==> argumentString == ArgumentString(props, propertyMap, |props|, |propertyMap|)
      ensures file.history == old(file.history) + ArgumentListEffect(Config(), route, props, provider).ops
      ensures logger.errors == old(logger.errors) + ArgumentListEffect(Config(), route, props, provider).errors
    {
      ghost var s := Config();
      ghost var h0, e0 := file.history, logger.errors;
      AddArgumentListHead();
      ghost var acc := ArgumentListHead(s);
      ghost var h, e := file.history, logger.errors;
      ok, argumentString := AddNavArguments(route, props, provider);
      Compose(h0, e0, acc, h, e, LoopEffect(s, Registrations(route, provider), props), file.history, logger.errors);
      acc := acc.Then(LoopEffect(s, Registrations(route, provider), props));
      h, e := file.history, logger.errors;
      if ok {
        AddArgumentListClose();
      } else {
        Skipped(h, e);
      }
      Compose(h0, e0, acc, h, e, When(ok, ArgumentListClose()), file.history, logger.errors);
    }

    method AddArgumentListClose()
      requires file.Valid()
      modifies file
      ensures file.Valid()
      ensures file.history == old(file.history) + ArgumentListClose().ops
      ensures logger.errors == old(logger.errors) + ArgumentListClose().errors
    {
      ghost var h0, e0 := file.history, logger.errors;
      file.AddLine(")");
      Started(h0, e0, [Line(")")], file.history);
      ghost var h := file.history;
      file.DecreaseIndent();
      Wrote(h0, e0, Emit([Line(")")]), h, e0, [Dedent], file.history);
    }

    // ---------------------------------------------------- the route builder

    method AddDefaultParameter(info: PropertyInfo, provider: Option<string>)
      requires file.Valid()
      modifies file, logger
      ensures file.Valid()
      ensures file.history == old(file.history) + DefaultParameterEffect(info, provider).ops
      ensures logger.errors == old(logger.errors) + DefaultParameterEffect(info, provider).errors
    {
      if info.hasDefaultValue {
        AddDefaultValue(" = ", provider, info.propertyName);
      } else {
        Skipped(file.history, logger.errors);
      }
    }

    /** One parameter of the builder: the name, the declared type and the
        default when there is one. */
    method AddParameter(info: PropertyInfo, provider: Option<string>)
      requires file.Valid()
      modifies file, logger
      ensures file.Valid()
      ensures file.history == old(file.history) + ParameterEffect(Config(), info, provider).ops
      ensures logger.errors == old(logger.errors) + ParameterEffect(Config(), info, provider).errors
    {
      ghost var ig := Config().IgnoreGenericArgs();
      ghost var h0, e0 := file.history, logger.errors;
      var name := info.propertyName + ": ";
      file.AddPhrase(name);
      Started(h0, e0, [Phrase(name)], file.history);
      ghost var acc := Emit([Phrase(name)]);
      ghost var h, e := file.history, logger.errors;
      AddVariableType(info);
      Compose(h0, e0, acc, h, e, VariableTypeEffect(info, ig), file.history, logger.errors);
      acc := acc.Then(VariableTypeEffect(info, ig));
      h, e := file.history, logger.errors;
      AddDefaultParameter(info, provider);
      Compose(h0, e0, acc, h, e, DefaultParameterEffect(info, provider), file.history, logger.errors);
      acc := acc.Then(DefaultParameterEffect(info, provider));
      h, e := file.history, logger.errors;
      file.AddPhrase(", ");
      Wrote(h0, e0, acc, h, e, [Phrase(", ")], file.history);
    }

    /** The builder's parameter for the property at index `i`, after those
        before it. */
    method AddParameterAt(props: seq<PropertyDecl>, provider: Option<string>, i: nat, ghost h0: seq<Op>, ghost e0: seq<Diagnostic>)
      requires file.Valid()
      requires i < MappedPrefix(props, propertyMap)
      requires file.history == h0 + PrefixEffect(Config(), Parameters(provider), props, i).ops
      requires logger.errors == e0 + PrefixEffect(Config(), Parameters(provider), props, i).errors
      modifies file, logger
      ensures file.Valid()
      ensures file.history == h0 + PrefixEffect(Config(), Parameters(provider), props, i + 1).ops
      ensures logger.errors == e0 + PrefixEffect(Config(), Parameters(provider), props, i + 1).errors
    {
      ghost var s := Config();
      ghost var done := PrefixEffect(s, Parameters(provider), props, i);
      ghost var h, e := file.history, logger.errors;
      var info := propertyMap[props[i]];
      AddParameter(info, provider);
      ItemNow(s, Parameters(provider), info, i + 1);
      Compose(h0, e0, done, h, e, ItemAfter(3, s, Parameters(provider), info, i + 1), file.history, logger.errors);
    }

    /** The builder's parameters, for properties the map all knows. */
    method AddParameters(props: seq<PropertyDecl>, provider: Option<string>)
      requires file.Valid()
      requires AllMapped(props, propertyMap)
      modifies file, logger
      ensures file.Valid()
      ensures file.history == old(file.history) + PrefixEffect(Config(), Parameters(provider), props, |props|).ops
      ensures logger.errors == old(logger.errors) + PrefixEffect(Config(), Parameters(provider), props, |props|).errors
    {
      ghost var h0, e0 := file.history, logger.errors;
      Skipped(h0, e0);
      var i := 0;
      while i < |props|
        invariant i <= |props|
        invariant file.Valid()
        invariant file.history == h0 + PrefixEffect(Config(), Parameters(provider), props, i).ops
        invariant logger.errors == e0 + PrefixEffect(Config(), Parameters(provider), props, i).errors
      {
        AddParameterAt(props, provider, i, h0, e0);
        i := i + 1;
      }
      assert i == |props|;
    }

    /** The builder's entry for a property at position `count`. */
    method AddEntry(info: PropertyInfo, count: int)
      requires file.Valid()
      modifies file
      ensures file.Valid()
      ensures file.history == old(file.history) + EntryEffect(info, count, |propertyMap|).ops
      ensures logger.errors == old(logger.errors) + EntryEffect(info, count, |propertyMap|).errors
    {
      ghost var h0, e0 := file.history, logger.errors;
      var open := "\"" + info.propertyName + "=";
      file.AddLine(open);
      Started(h0, e0, [Line(open)], file.history);
      ghost var acc := Emit([Line(open)]);
      ghost var h := file.history;
      var value := RouteEncoding(info.composeArgumentType, info.propertyName);
      file.AddPhrase(value);
      Wrote(h0, e0, acc, h, e0, [Phrase(value)], file.history);
      acc := acc.Then(Emit([Phrase(value)]));
      h := file.history;
      var close := if count == |propertyMap| then "\"" else ",\"";
      file.AddPhrase(close);
      Wrote(h0, e0, acc, h, e0, [Phrase(close)], file.history);
      acc := acc.Then(Emit([Phrase(close)]));
      h := file.history;
      file.AddPhrase(" + ");
      Wrote(h0, e0, acc, h, e0, [Phrase(" + ")], file.history);
    }

    /** The builder's entry for the property at index `i`, at position
        `count`, after those before it. */
    method AddEntryAt(props: seq<PropertyDecl>, i: nat, count: int, ghost h0: seq<Op>, ghost e0: seq<Diagnostic>)
      requires file.Valid()
      requires i < MappedPrefix(props, propertyMap) && count == i + 1
      requires file.history == h0 + PrefixEffect(Config(), Entries, props, i).ops
      requires logger.errors == e0 + PrefixEffect(Config(), Entries, props, i).errors
      modifies file
      ensures file.Valid()
      ensures file.history == h0 + PrefixEffect(Config(), Entries, props, i + 1).ops
      ensures logger.errors == e0 + PrefixEffect(Config(), Entries, props, i + 1).errors
    {
      ghost var done := PrefixEffect(Config(), Entries, props, i);
      ghost var h := file.history;
      var info := propertyMap[props[i]];
      AddEntry(info, count);
      ItemNow(Config(), Entries, info, i + 1);
      Compose(h0, e0, done, h, logger.errors, ItemAfter(3, Config(), Entries, info, i + 1), file.history, logger.errors);
    }

    /** The builder's entries, for properties the map all knows. */
    method AddEntries(props: seq<PropertyDecl>)
      requires file.Valid()
      requires AllMapped(props, propertyMap)
      modifies file
      ensures file.Valid()
      ensures file.history == old(file.history) + PrefixEffect(Config(), Entries, props, |props|).ops
      ensures logger.errors == old(logger.errors) + PrefixEffect(Config(), Entries, props, |props|).errors
    {
      ghost var h0, e0 := file.history, logger.errors;
      Skipped(h0, e0);
      var count := 0;
      var i := 0;
      while i < |props|
        invariant i <= |props| && count == i
        invariant file.Valid()
        invariant file.history == h0 + PrefixEffect(Config(), Entries, props, i).ops
        invariant logger.errors == e0 + PrefixEffect(Config(), Entries, props, i).errors
      {
        count := count + 1;
        AddEntryAt(props, i, count, h0, e0);
        i := i + 1;
      }
      assert i == |props|;
    }

    method AddBuilderBodyHead(route: string)
      requires file.Valid()
      modifies file
      ensures file.Valid()
      ensures file.history == old(file.history) + BuilderBodyHead(route, |propertyMap|).ops
      ensures logger.errors == old(logger.errors) + BuilderBodyHead(route, |propertyMap|).errors
    {
      ghost var h0, e0 := file.history, logger.errors;
      file.AddPhrase("): String {");
      Started(h0, e0, [Phrase("): String {")], file.history);
      ghost var acc := Emit([Phrase("): String {")]);
      ghost var h := file.history;
      file.IncreaseIndent();
      Wrote(h0, e0, acc, h, e0, [Indent], file.history);
      acc := acc.Then(Emit([Indent]));
      h := file.history;
      var line := ReturnLine(route, |propertyMap|);
      file.AddLine(line);
      Wrote(h0, e0, acc, h, e0, [Line(line)], file.history);
      acc := acc.Then(Emit([Line(line)]));
      h := file.history;
      file.IncreaseIndent();
      Wrote(h0, e0, acc, h, e0, [Indent], file.history);
      acc := acc.Then(Emit([Indent]));
      h := file.history;
      file.IncreaseIndent();
      Wrote(h0, e0, acc, h, e0, [Indent], file.history);
    }

    method AddBuilderBodyTail()
      requires file.Valid()
      modifies file
      ensures file.Valid()
      ensures file.history == old(file.history) + BuilderBodyTail().ops
      ensures logger.errors == old(logger.errors) + BuilderBodyTail().errors
    {
      ghost var h0, e0 := file.history, logger.errors;
      file.AddLine("\"\"");
      Started(h0, e0, [Line("\"\"")], file.history);
      ghost var acc := Emit([Line("\"\"")]);
      ghost var h := file.history;
      file.DecreaseIndent();
      Wrote(h0, e0, acc, h, e0, [Dedent], file.history);
      acc := acc.Then(Emit([Dedent]));
      h := file.history;
      file.DecreaseIndent();
      Wrote(h0, e0, acc, h, e0, [Dedent], file.history);
      acc := acc.Then(Emit([Dedent]));
      h := file.history;
      file.DecreaseIndent();
      Wrote(h0, e0, acc, h, e0, [Dedent], file.history);
      acc := acc.Then(Emit([Dedent]));
      h := file.history;
      file.AddLine("}");
      Wrote(h0, e0, acc, h, e0, [Line("}")], file.history);
    }

    /** The `getDestination` builder, for properties the map all knows. */
    method AddDestinationBuilder(route: string, props: seq<PropertyDecl>, provider: Option<string>)
      requires file.Valid()
      requires AllMapped(props, propertyMap)
      modifies file, logger
      ensures file.Valid()
      ensures file.history == old(file.history) + BuilderEffect(Config(), route, props, provider).ops
      ensures logger.errors == old(logger.errors) + BuilderEffect(Config(), route, props, provider).errors
    {
      ghost var s := Config();
      ghost var h0, e0 := file.history, logger.errors;
      var header := "fun " + SingletonExtension(singletonClass) + "getDestination(";
      file.AddLine(header);
      Started(h0, e0, [Line(header)], file.history);
      ghost var acc := Emit([Line(header)]);
      ghost var h, e := file.history, logger.errors;
      AddParameters(props, provider);
      Compose(h0, e0, acc, h, e, PrefixEffect(s, Parameters(provider), props, |props|), file.history, logger.errors);
      acc := acc.Then(PrefixEffect(s, Parameters(provider), props, |props|));
      h, e := file.history, logger.errors;
      AddBuilderBodyHead(route);
      Compose(h0, e0, acc, h, e, BuilderBodyHead(route, |propertyMap|), file.history, logger.errors);
      acc := acc.Then(BuilderBodyHead(route, |propertyMap|));
      h, e := file.history, logger.errors;
      AddEntries(props);
      Compose(h0, e0, acc, h, e, PrefixEffect(Config(), Entries, props, |props|), file.history, logger.errors);
      acc := acc.Then(PrefixEffect(Config(), Entries, props, |props|));
      h, e := file.history, logger.errors;
      AddBuilderBodyTail();
      Compose(h0, e0, acc, h, e, BuilderBodyTail(), file.history, logger.errors);
    }

    // ---------------------------------------------------- the route pattern

    method AddRouteQuery(argumentString: string)
      requires file.Valid()
      modifies file
      ensures file.Valid()
      ensures file.history == old(file.history) + RouteQuery(argumentString).ops
      ensures logger.errors == old(logger.errors) + RouteQuery(argumentString).errors
    {
      ghost var h0, e0 := file.history, logger.errors;
      if argumentString != "" {
        file.AddPhrase("?");
        Started(h0, e0, [Phrase("?")], file.history);
        ghost var h := file.history;
        file.AddPhrase(argumentString);
        Wrote(h0, e0, Emit([Phrase("?")]), h, e0, [Phrase(argumentString)], file.history);
      } else {
        Skipped(h0, e0);
      }
    }

    /** The `route` property: the route name and the accumulated query. */
    method AddRoute(route: string, argumentString: string)
      requires file.Valid()
      modifies file
      ensures file.Valid()
      ensures file.history == old(file.history) + RouteEffect(Config(), route, argumentString).ops
      ensures logger.errors == old(logger.errors) + RouteEffect(Config(), route, argumentString).errors
    {
      ghost var h0, e0 := file.history, logger.errors;
      var line := "val " + SingletonExtension(singletonClass) + "route";
      file.AddLine(line);
      Started(h0, e0, [Line(line)], file.history);
      ghost var acc := Emit([Line(line)]);
      ghost var h := file.history;
      file.IncreaseIndent();
      Wrote(h0, e0, acc, h, e0, [Indent], file.history);
      acc := acc.Then(Emit([Indent]));
      h := file.history;
      file.AddLine("get() = ");
      Wrote(h0, e0, acc, h, e0, [Line("get() = ")], file.history);
      acc := acc.Then(Emit([Line("get() = ")]));
      h := file.history;
      var open := "\"" + route;
      file.AddPhrase(open);
      Wrote(h0, e0, acc, h, e0, [Phrase(open)], file.history);
      acc := acc.Then(Emit([Phrase(open)]));
      h := file.history;
      AddRouteQuery(argumentString);
      Compose(h0, e0, acc, h, e0, RouteQuery(argumentString), file.history, logger.errors);
      acc := acc.Then(RouteQuery(argumentString));
      h := file.history;
      file.AddPhrase("\"");
      Wrote(h0, e0, acc, h, e0, [Phrase("\"")], file.history);
      acc := acc.Then(Emit([Phrase("\"")]));
      h := file.history;
      file.DecreaseIndent();
      Wrote(h0, e0, acc, h, e0, [Dedent], file.history);
    }
    // ------------------------------------------------------- the whole visit

    /** The wrapper class and the arguments class; `ok` is false when the
        arguments class met a property the map does not know. */
    method AddOpening(cls: ClassDecl) returns (ok: bool)
      requires file.Valid()
      modifies file, logger
      ensures file.Valid()
      ensures ok <==> |propertyMap| == 0 || AllMapped(cls.properties, propertyMap)
      ensures file.history == old(file.history) + OpeningEffect(Config(), cls).ops
      ensures logger.errors == old(logger.errors) + OpeningEffect(Config(), cls).errors
    {
      ghost var s := Config();
      ghost var h0, e0 := file.history, logger.errors;
      OpenWrapper(cls.simpleName);
      ghost var h, e := file.history, logger.errors;
      if |propertyMap| > 0 {
        ok := AddDataClass(cls.simpleName + "Args", cls.properties);
      } else {
        ok := true;
        Skipped(h, e);
      }
      Compose(h0, e0, WrapperOpen(s, cls.simpleName), h, e,
              When(|propertyMap| > 0, DataClassEffect(s, cls.simpleName + "Args", cls.properties)),
              file.history, logger.errors);
    }

    /** Both decoders, when the map is not empty. */
    method AddParseFunctions(dataClassName: string, props: seq<PropertyDecl>)
      requires file.Valid()
      modifies file, logger
      ensures file.Valid()
      ensures file.history == old(file.history)
        + ParseFunctionEffect(Config(), dataClassName, props, BundleSignature, BackStackEntry)
            .Then(ParseFunctionEffect(Config(), dataClassName, props, StateSignatureAsWritten, SavedStateHandle)).ops
      ensures logger.errors == old(logger.errors)
        + ParseFunctionEffect(Config(), dataClassName, props, BundleSignature, BackStackEntry)
            .Then(ParseFunctionEffect(Config(), dataClassName, props, StateSignatureAsWritten, SavedStateHandle)).errors
    {
      ghost var s := Config();
      ghost var h0, e0 := file.history, logger.errors;
      AddParseFunction(dataClassName, props, BundleSignature, BackStackEntry);
      ghost var h, e := file.history, logger.errors;
      AddParseFunction(dataClassName, props, StateSignatureAsWritten, SavedStateHandle);
      Compose(h0, e0, ParseFunctionEffect(s, dataClassName, props, BundleSignature, BackStackEntry), h, e,
              ParseFunctionEffect(s, dataClassName, props, StateSignatureAsWritten, SavedStateHandle),
              file.history, logger.errors);
    }

    /** The companion object and, when the map is not empty, both decoders. */
    method AddCompanion(cls: ClassDecl)
      requires file.Valid()
      modifies file, logger
      ensures file.Valid()
      ensures file.history == old(file.history) + CompanionEffect(Config(), cls).ops
      ensures logger.errors == old(logger.errors) + CompanionEffect(Config(), cls).errors
    {
      ghost var s := Config();
      ghost var h0, e0 := file.history, logger.errors;
      var dataClassName := cls.simpleName + "Args";
      OpenCompanion();
      ghost var h, e := file.history, logger.errors;
      if |propertyMap| > 0 {
        AddParseFunctions(dataClassName, cls.properties);
      } else {
        Skipped(h, e);
      }
      Compose(h0, e0, CompanionOpen(s), h, e,
              When(|propertyMap| > 0,
                   ParseFunctionEffect(s, dataClassName, cls.properties, BundleSignature, BackStackEntry)
                     .Then(ParseFunctionEffect(s, dataClassName, cls.properties, StateSignatureAsWritten, SavedStateHandle))),
              file.history, logger.errors);
    }

    /** The builder, the route and the closing braces, once the argument list
        is complete. */
    method AddTail(cls: ClassDecl, provider: Option<string>, argumentString: string)
      requires file.Valid()
      requires AllMapped(cls.properties, propertyMap)
      requires provider == ProviderClassName(cls, argumentProviderMap, propertyMap)
      requires argumentString == ArgumentString(cls.properties, propertyMap, |cls.properties|, |propertyMap|)
      modifies file, logger
      ensures file.Valid()
      ensures file.history == old(file.history) + TailEffect(Config(), cls).ops
      ensures logger.errors == old(logger.errors) + TailEffect(Config(), cls).errors
    {
      ghost var s := Config();
      ghost var h0, e0 := file.history, logger.errors;
      AddDestinationBuilder(cls.simpleName, cls.properties, provider);
      ghost var acc := BuilderEffect(s, cls.simpleName, cls.properties, provider);
      ghost var h, e := file.history, logger.errors;
      AddRoute(cls.simpleName, argumentString);
      Compose(h0, e0, acc, h, e, RouteEffect(s, cls.simpleName, argumentString), file.history, logger.errors);
      acc := acc.Then(RouteEffect(s, cls.simpleName, argumentString));
      h, e := file.history, logger.errors;
      CloseBlock();
      Compose(h0, e0, acc, h, e, BlockClose(s), file.history, logger.errors);
      acc := acc.Then(BlockClose(s));
      h, e := file.history, logger.errors;
      CloseBlock();
      Compose(h0, e0, acc, h, e, BlockClose(s), file.history, logger.errors);
    }

    /** Visits one route class: writes its navigation glue and reports every
        property the map does not know, stopping at the first such miss. */
    method VisitClassDeclaration(cls: ClassDecl)
      requires file.Valid()
      modifies file, logger
      ensures file.Valid()
      ensures file.history == old(file.history) + VisitEffect(Config(), cls).ops
      ensures logger.errors == old(logger.errors) + VisitEffect(Config(), cls).errors
    {
      ghost var s := Config();
      ghost var h0, e0 := file.history, logger.errors;
      var ok := AddOpening(cls);
      if !ok {
        return;
      }
      ghost var acc := OpeningEffect(s, cls);
      ghost var h, e := file.history, logger.errors;
      AddCompanion(cls);
      Compose(h0, e0, acc, h, e, CompanionEffect(s, cls), file.history, logger.errors);
      acc := acc.Then(CompanionEffect(s, cls));
      var provider := ProviderClassName(cls, argumentProviderMap, propertyMap);
      h, e := file.history, logger.errors;
      var listed, argumentString := AddArgumentList(cls.simpleName, cls.properties, provider);
      Compose(h0, e0, acc, h, e, ArgumentListEffect(s, cls.simpleName, cls.properties, provider), file.history, logger.errors);
      acc := acc.Then(ArgumentListEffect(s, cls.simpleName, cls.properties, provider));
      if !listed {
        return;
      }
      h, e := file.history, logger.errors;
      AddTail(cls, provider, argumentString);
      Compose(h0, e0, acc, h, e, TailEffect(s, cls), file.history, logger.errors);
    }
  }
}
