/** How the generator writes a property's declared type: the class name, its
    type arguments in angle brackets, and a nullability marker.

    `ArgumentEffect`, `ChildArgumentsEffect` and `IterationsEffect` give what
    the type-argument visitor writes, op by op; `ArgumentText` and
    `ArgumentsText` give, independently, the text the visitor's writes read
    as, layout aside. The lemmas connect the two and say what else the
    rendering does and does not do: the only line breaks are before the
    separators, it never touches the indent depth, and it reports a
    diagnostic exactly for arguments it cannot resolve.

    The visitor writes a type argument's nullability marker right after its
    name, before the argument's own type arguments, so a nullable generic
    argument comes out as `List?<String>`. The effects and texts below follow
    that order; `ArgumentEffectCorrected` puts the marker after the arguments,
    where a Kotlin type has it. */
module TypeRendering {
  import opened Descriptors
  import opened Emission

  function NullableMarker(isNullable: bool): string
  {
    if isNullable then "?" else ""
  }

  /** The variance keyword and its space, for the variances that have one. */
  function VariancePrefix(v: Variance): string
  {
    if v.Covariant? || v.Contravariant? then v.Label() + " " else ""
  }

  /** The writes of the variance keyword and its space. */
  function VarianceOps(v: Variance): seq<Op>
  {
    if v.Covariant? || v.Contravariant? then [Phrase(v.Label())] + [Phrase(" ")] else []
  }

  // ---------------------------------------------------------------- effects

  /** What visiting one type argument writes. With generic arguments ignored,
      and for a star projection, a `*`. Otherwise the variance keyword, then
      the argument's type: its name, `?` when it is nullable, and then its own
      type arguments. An argument with no type reports a diagnostic after the
      variance keyword and writes nothing more. */
  function ArgumentEffect(arg: TypeArgument, ignoreGenericArgs: bool): Effect
    decreases arg
  {
    if ignoreGenericArgs || arg.variance.Star? then Emit([Phrase("*")])
    else
      var prefix := VarianceOps(arg.variance);
      match arg.reference
      case None => Effect(prefix, [InvalidTypeArgument])
      case Some(t) =>
        Emit(prefix + [Phrase(t.simpleName), Phrase(NullableMarker(t.isNullable))])
          .Then(ChildArgumentsEffect(t.arguments, ignoreGenericArgs))
  }

  /** What visiting a type-argument list writes: nothing for an empty list,
      otherwise the arguments between angle brackets. */
  function ChildArgumentsEffect(args: seq<TypeArgument>, ignoreGenericArgs: bool): Effect
    decreases args, 1
  {
    if args == [] then Emit([])
    else
      Emit([Phrase("<")])
        .Then(IterationsEffect(args, |args|, ignoreGenericArgs))
        .Then(Emit([Phrase(">")]))
  }

  /** The first `i` iterations of the loop over a type-argument list: each
      argument, followed by a separator started on a new line unless it is the
      last one. */
  function IterationsEffect(args: seq<TypeArgument>, i: nat, ignoreGenericArgs: bool): Effect
    requires i <= |args|
    decreases args, 0, i
  {
    if i == 0 then Emit([])
    else
      IterationsEffect(args, i - 1, ignoreGenericArgs)
        .Then(ArgumentEffect(args[i - 1], ignoreGenericArgs))
        .Then(Emit(if i - 1 < |args| - 1 then [Line(", ")] else []))
  }

  /** What writing a property's declared type writes. */
  function VariableTypeEffect(info: PropertyInfo, ignoreGenericArgs: bool): Effect
  {
    Emit([Phrase(info.resolvedClassSimpleName)])
      .Then(ChildArgumentsEffect(info.typeArguments, ignoreGenericArgs))
      .Then(Emit([Phrase(NullableMarker(info.isNullable))]))
  }

  // ------------------------------------------------------------- shapes
  // Each effect above written out as the concatenation the visitor builds.

  lemma ArgumentStar(arg: TypeArgument, ignoreGenericArgs: bool)
    requires ignoreGenericArgs || arg.variance.Star?
    ensures ArgumentEffect(arg, ignoreGenericArgs).ops == [Phrase("*")]
    ensures ArgumentEffect(arg, ignoreGenericArgs).errors == []
  {
  }

  lemma ArgumentUnresolved(arg: TypeArgument, ignoreGenericArgs: bool)
    requires !ignoreGenericArgs && !arg.variance.Star? && arg.reference.None?
    ensures ArgumentEffect(arg, ignoreGenericArgs).ops == VarianceOps(arg.variance)
    ensures ArgumentEffect(arg, ignoreGenericArgs).errors == [InvalidTypeArgument]
  {
  }

  lemma ArgumentResolved(arg: TypeArgument, ignoreGenericArgs: bool)
    requires !ignoreGenericArgs && !arg.variance.Star? && arg.reference.Some?
    ensures ArgumentEffect(arg, ignoreGenericArgs).ops
         == VarianceOps(arg.variance)
            + [Phrase(arg.reference.value.simpleName), Phrase(NullableMarker(arg.reference.value.isNullable))]
            + ChildArgumentsEffect(arg.reference.value.arguments, ignoreGenericArgs).ops
    ensures ArgumentEffect(arg, ignoreGenericArgs).errors
         == ChildArgumentsEffect(arg.reference.value.arguments, ignoreGenericArgs).errors
  {
    var c := ChildArgumentsEffect(arg.reference.value.arguments, ignoreGenericArgs).errors;
    assert [] + c == c;
  }

  lemma ChildArgumentsShape(args: seq<TypeArgument>, ignoreGenericArgs: bool)
    ensures args == [] ==> ChildArgumentsEffect(args, ignoreGenericArgs) == Effect([], [])
    ensures args != [] ==>
      ChildArgumentsEffect(args, ignoreGenericArgs).ops
        == [Phrase("<")] + IterationsEffect(args, |args|, ignoreGenericArgs).ops + [Phrase(">")]
    ensures args != [] ==>
      ChildArgumentsEffect(args, ignoreGenericArgs).errors == IterationsEffect(args, |args|, ignoreGenericArgs).errors
  {
    if args != [] {
      var c := IterationsEffect(args, |args|, ignoreGenericArgs).errors;
      assert [] + c + [] == c;
    }
  }

  lemma IterationsShape(args: seq<TypeArgument>, i: nat, ignoreGenericArgs: bool)
    requires i < |args|
    ensures IterationsEffect(args, 0, ignoreGenericArgs) == Effect([], [])
    ensures IterationsEffect(args, i + 1, ignoreGenericArgs).ops
         == IterationsEffect(args, i, ignoreGenericArgs).ops
            + (ArgumentEffect(args[i], ignoreGenericArgs).ops + (if i < |args| - 1 then [Line(", ")] else []))
    ensures IterationsEffect(args, i + 1, ignoreGenericArgs).errors
         == IterationsEffect(args, i, ignoreGenericArgs).errors + ArgumentEffect(args[i], ignoreGenericArgs).errors
  {
    var a := IterationsEffect(args, i, ignoreGenericArgs).errors + ArgumentEffect(args[i], ignoreGenericArgs).errors;
    assert a + [] == a;
  }

  lemma VariableTypeShape(info: PropertyInfo, ignoreGenericArgs: bool)
    ensures VariableTypeEffect(info, ignoreGenericArgs).ops
         == [Phrase(info.resolvedClassSimpleName)] + ChildArgumentsEffect(info.typeArguments, ignoreGenericArgs).ops
            + [Phrase(NullableMarker(info.isNullable))]
    ensures VariableTypeEffect(info, ignoreGenericArgs).errors
         == ChildArgumentsEffect(info.typeArguments, ignoreGenericArgs).errors
  {
    var c := ChildArgumentsEffect(info.typeArguments, ignoreGenericArgs).errors;
    assert [] + c + [] == c;
  }

  // ------------------------------------------------------- reference texts

  /** The text a type argument reads as: the variance keyword, the name, the
      nullability marker and the bracketed type arguments. */
  function ArgumentText(arg: TypeArgument, ignoreGenericArgs: bool): string
    decreases arg
  {
    if ignoreGenericArgs || arg.variance.Star? then "*"
    else
      VariancePrefix(arg.variance) +
      match arg.reference
      case None => ""
      case Some(t) => t.simpleName + NullableMarker(t.isNullable) + ArgumentsText(t.arguments, ignoreGenericArgs)
  }

  /** The text of a type-argument list: empty, or `<a1, a2, ...>`. */
  function ArgumentsText(args: seq<TypeArgument>, ignoreGenericArgs: bool): string
    decreases args, 1
  {
    if args == [] then "" else "<" + JoinText(args, ignoreGenericArgs) + ">"
  }

  /** The arguments' texts separated by ", ". */
  function JoinText(args: seq<TypeArgument>, ignoreGenericArgs: bool): string
    decreases args, 0
  {
    if args == [] then ""
    else if |args| == 1 then ArgumentText(args[0], ignoreGenericArgs)
    else JoinText(args[..|args| - 1], ignoreGenericArgs) + ", " + ArgumentText(args[|args| - 1], ignoreGenericArgs)
  }

  /** The text a property's declared type reads as. */
  function VariableTypeText(info: PropertyInfo, ignoreGenericArgs: bool): string
  {
    info.resolvedClassSimpleName + ArgumentsText(info.typeArguments, ignoreGenericArgs) + NullableMarker(info.isNullable)
  }

  // ------------------------------------------------------------ the lemmas

  lemma {:induction false} FlatArgument(arg: TypeArgument, ignoreGenericArgs: bool)
    ensures Flat(ArgumentEffect(arg, ignoreGenericArgs).ops) == ArgumentText(arg, ignoreGenericArgs)
    decreases arg
  {
    if ignoreGenericArgs || arg.variance.Star? {
      FlatSingle(Phrase("*"));
    } else if arg.reference.None? {
      FlatPrefix(arg.variance);
      assert VariancePrefix(arg.variance) + "" == VariancePrefix(arg.variance);
    } else {
      FlatChildArguments(arg.reference.value.arguments, ignoreGenericArgs);
      FlatReference(arg, ignoreGenericArgs);
    }
  }

  lemma FlatPrefix(v: Variance)
    ensures Flat(VarianceOps(v)) == VariancePrefix(v)
  {
    if v.Covariant? || v.Contravariant? {
      FlatSingle(Phrase(v.Label()));
      FlatSingle(Phrase(" "));
      FlatAppend([Phrase(v.Label())], [Phrase(" ")]);
    }
  }

  /** The step of `FlatArgument` for an argument with a type, given the
      children's reading. */
  lemma FlatReference(arg: TypeArgument, ignoreGenericArgs: bool)
    requires !ignoreGenericArgs && !arg.variance.Star? && arg.reference.Some?
    requires Flat(ChildArgumentsEffect(arg.reference.value.arguments, ignoreGenericArgs).ops)
          == ArgumentsText(arg.reference.value.arguments, ignoreGenericArgs)
    ensures Flat(ArgumentEffect(arg, ignoreGenericArgs).ops) == ArgumentText(arg, ignoreGenericArgs)
  {
    var t := arg.reference.value;
    var prefix := VarianceOps(arg.variance);
    var children := ChildArgumentsEffect(t.arguments, ignoreGenericArgs);
    var named := [Phrase(t.simpleName), Phrase(NullableMarker(t.isNullable))];
    var pre, name, inner, mark := VariancePrefix(arg.variance), t.simpleName, ArgumentsText(t.arguments, ignoreGenericArgs), NullableMarker(t.isNullable);
    FlatPrefix(arg.variance);
    FlatPair(Phrase(name), Phrase(mark));
    FlatAppend(prefix, named);
    FlatAppend(prefix + named, children.ops);
    assert ArgumentEffect(arg, ignoreGenericArgs).ops == prefix + named + children.ops;
    assert Flat(prefix + named + children.ops) == pre + (name + mark) + inner;
    assert ArgumentText(arg, ignoreGenericArgs) == pre + (name + mark + inner);
    ConcatAssoc(pre, name + mark, inner);
  }

  lemma FlatPair(a: Op, b: Op)
    ensures Flat([a, b]) == OpText(a) + OpText(b)
  {
    assert [a, b] == [a] + [b];
    FlatAppend([a], [b]);
    FlatSingle(a);
    FlatSingle(b);
  }

  lemma {:induction false} FlatChildArguments(args: seq<TypeArgument>, ignoreGenericArgs: bool)
    ensures Flat(ChildArgumentsEffect(args, ignoreGenericArgs).ops) == ArgumentsText(args, ignoreGenericArgs)
    decreases args, 1
  {
    if args != [] {
      var body := IterationsEffect(args, |args|, ignoreGenericArgs);
      FlatIterations(args, |args|, ignoreGenericArgs);
      assert args[..|args|] == args;
      FlatSingle(Phrase("<"));
      FlatSingle(Phrase(">"));
      FlatAppend([Phrase("<")], body.ops);
      FlatAppend([Phrase("<")] + body.ops, [Phrase(">")]);
      assert ChildArgumentsEffect(args, ignoreGenericArgs).ops == [Phrase("<")] + body.ops + [Phrase(">")];
      assert Flat(body.ops) == JoinText(args, ignoreGenericArgs) + "";
      assert JoinText(args, ignoreGenericArgs) + "" == JoinText(args, ignoreGenericArgs);
    }
  }

  lemma {:induction false} FlatIterations(args: seq<TypeArgument>, i: nat, ignoreGenericArgs: bool)
    requires i <= |args|
    ensures Flat(IterationsEffect(args, i, ignoreGenericArgs).ops)
         == JoinText(args[..i], ignoreGenericArgs) + (if 0 < i < |args| then ", " else "")
    decreases args, 0, i
  {
    if i == 0 {
      assert args[..0] == [];
    } else {
      FlatIterations(args, i - 1, ignoreGenericArgs);
      FlatArgument(args[i - 1], ignoreGenericArgs);
      IterationsStep(args, i, ignoreGenericArgs);
      JoinTextStep(args, i, ignoreGenericArgs);
    }
  }

  /** One more iteration of the loop adds the argument and its separator. */
  lemma IterationsStep(args: seq<TypeArgument>, i: nat, ignoreGenericArgs: bool)
    requires 0 < i <= |args|
    ensures Flat(IterationsEffect(args, i, ignoreGenericArgs).ops)
         == Flat(IterationsEffect(args, i - 1, ignoreGenericArgs).ops)
          + Flat(ArgumentEffect(args[i - 1], ignoreGenericArgs).ops)
          + (if i < |args| then ", " else "")
  {
    var before := IterationsEffect(args, i - 1, ignoreGenericArgs).ops;
    var one := ArgumentEffect(args[i - 1], ignoreGenericArgs).ops;
    var sep := if i - 1 < |args| - 1 then [Line(", ")] else [];
    assert Flat(sep) == (if i < |args| then ", " else "") by {
      if sep != [] { FlatSingle(Line(", ")); }
    }
    assert IterationsEffect(args, i, ignoreGenericArgs).ops == before + one + sep;
    FlatAppend(before, one);
    FlatAppend(before + one, sep);
  }

  lemma JoinTextStep(args: seq<TypeArgument>, i: nat, ignoreGenericArgs: bool)
    requires 0 < i <= |args|
    ensures JoinText(args[..i], ignoreGenericArgs)
         == JoinText(args[..i - 1], ignoreGenericArgs) + (if 1 < i then ", " else "")
          + ArgumentText(args[i - 1], ignoreGenericArgs)
  {
    PrefixOfPrefix(args, i, i - 1);
    if i == 1 {
      assert args[..i - 1] == [];
    }
  }

  /** Writing a declared type reads as its name, its type arguments in angle
      brackets when it has any, and `?` exactly when it is nullable. */
  lemma FlatVariableType(info: PropertyInfo, ignoreGenericArgs: bool)
    ensures Flat(VariableTypeEffect(info, ignoreGenericArgs).ops) == VariableTypeText(info, ignoreGenericArgs)
  {
    var children := ChildArgumentsEffect(info.typeArguments, ignoreGenericArgs);
    var name, mark := info.resolvedClassSimpleName, NullableMarker(info.isNullable);
    FlatChildArguments(info.typeArguments, ignoreGenericArgs);
    FlatSingle(Phrase(name));
    FlatSingle(Phrase(mark));
    FlatAppend([Phrase(name)], children.ops);
    FlatAppend([Phrase(name)] + children.ops, [Phrase(mark)]);
    assert VariableTypeEffect(info, ignoreGenericArgs).ops == [Phrase(name)] + children.ops + [Phrase(mark)];
  }

  /** The only ops a type rendering writes: phrases, and separator lines. */
  ghost predicate InlineLayout(ops: seq<Op>)
  {
    forall i :: 0 <= i < |ops| ==> ops[i].Phrase? || ops[i] == Line(", ")
  }

  lemma InlineLayoutAppend(a: seq<Op>, b: seq<Op>)
    requires InlineLayout(a) && InlineLayout(b)
    ensures InlineLayout(a + b)
  {
    forall i | 0 <= i < |a + b|
      ensures (a + b)[i].Phrase? || (a + b)[i] == Line(", ")
    {
      if i >= |a| { assert (a + b)[i] == b[i - |a|]; }
    }
  }

  /** Ops without indent changes never move the indent depth. */
  lemma {:induction false} InlineLayoutIsBalanced(ops: seq<Op>)
    requires InlineLayout(ops)
    ensures Balanced(ops)
    decreases |ops|
  {
    if ops != [] {
      InlineLayoutIsBalanced(ops[..|ops| - 1]);
      assert ops == ops[..|ops| - 1] + [ops[|ops| - 1]];
      NestedSingle(ops[|ops| - 1]);
      NestedAppend(ops[..|ops| - 1], [ops[|ops| - 1]]);
    }
  }

  lemma {:induction false} ArgumentLayout(arg: TypeArgument, ignoreGenericArgs: bool)
    ensures InlineLayout(ArgumentEffect(arg, ignoreGenericArgs).ops)
    decreases arg
  {
    if !ignoreGenericArgs && !arg.variance.Star? {
      match arg.reference
      case None =>
      case Some(t) =>
        var prefix := VarianceOps(arg.variance);
        ChildArgumentsLayout(t.arguments, ignoreGenericArgs);
        InlineLayoutAppend(prefix, [Phrase(t.simpleName), Phrase(NullableMarker(t.isNullable))]);
        InlineLayoutAppend(prefix + [Phrase(t.simpleName), Phrase(NullableMarker(t.isNullable))],
                           ChildArgumentsEffect(t.arguments, ignoreGenericArgs).ops);
    }
  }

  lemma {:induction false} ChildArgumentsLayout(args: seq<TypeArgument>, ignoreGenericArgs: bool)
    ensures InlineLayout(ChildArgumentsEffect(args, ignoreGenericArgs).ops)
    decreases args, 1
  {
    if args != [] {
      var body := IterationsEffect(args, |args|, ignoreGenericArgs);
      IterationsLayout(args, |args|, ignoreGenericArgs);
      InlineLayoutAppend([Phrase("<")], body.ops);
      InlineLayoutAppend([Phrase("<")] + body.ops, [Phrase(">")]);
    }
  }

  lemma {:induction false} IterationsLayout(args: seq<TypeArgument>, i: nat, ignoreGenericArgs: bool)
    requires i <= |args|
    ensures InlineLayout(IterationsEffect(args, i, ignoreGenericArgs).ops)
    decreases args, 0, i
  {
    if i > 0 {
      var before := IterationsEffect(args, i - 1, ignoreGenericArgs);
      var one := ArgumentEffect(args[i - 1], ignoreGenericArgs);
      IterationsLayout(args, i - 1, ignoreGenericArgs);
      ArgumentLayout(args[i - 1], ignoreGenericArgs);
      InlineLayoutAppend(before.ops, one.ops);
      InlineLayoutAppend(before.ops + one.ops, if i - 1 < |args| - 1 then [Line(", ")] else []);
    }
  }

  /** Writing a declared type only writes phrases and separator lines, so it
      leaves the indent depth where it was. */
  lemma VariableTypeLayout(info: PropertyInfo, ignoreGenericArgs: bool)
    ensures InlineLayout(VariableTypeEffect(info, ignoreGenericArgs).ops)
    ensures Balanced(VariableTypeEffect(info, ignoreGenericArgs).ops)
  {
    var children := ChildArgumentsEffect(info.typeArguments, ignoreGenericArgs);
    ChildArgumentsLayout(info.typeArguments, ignoreGenericArgs);
    InlineLayoutAppend([Phrase(info.resolvedClassSimpleName)], children.ops);
    InlineLayoutAppend([Phrase(info.resolvedClassSimpleName)] + children.ops, [Phrase(NullableMarker(info.isNullable))]);
    InlineLayoutIsBalanced(VariableTypeEffect(info, ignoreGenericArgs).ops);
  }

  /** Every argument that is not a star projection has a type, all the way
      down. */
  predicate Resolved(arg: TypeArgument)
    decreases arg
  {
    arg.variance.Star? ||
    (arg.reference.Some? && AllResolved(arg.reference.value.arguments))
  }

  predicate AllResolved(args: seq<TypeArgument>)
    decreases args
  {
    forall i :: 0 <= i < |args| ==> Resolved(args[i])
  }

  /** Every diagnostic in the list is the invalid-type-argument one. */
  predicate AllInvalid(errors: seq<Diagnostic>)
  {
    forall j :: 0 <= j < |errors| ==> errors[j] == InvalidTypeArgument
  }

  lemma AllInvalidAppend(a: seq<Diagnostic>, b: seq<Diagnostic>)
    requires AllInvalid(a) && AllInvalid(b)
    ensures AllInvalid(a + b)
  {
    forall j | 0 <= j < |a + b|
      ensures (a + b)[j] == InvalidTypeArgument
    {
      if j >= |a| { assert (a + b)[j] == b[j - |a|]; }
    }
  }

  /** With generic arguments rendered, a type argument reports a diagnostic
      exactly when something in it has no type; every diagnostic is the
      invalid-type-argument one. */
  lemma {:induction false} ArgumentDiagnostics(arg: TypeArgument)
    ensures ArgumentEffect(arg, false).errors == [] <==> Resolved(arg)
    ensures AllInvalid(ArgumentEffect(arg, false).errors)
    decreases arg
  {
    if !arg.variance.Star? {
      match arg.reference
      case None =>
      case Some(t) =>
        ChildArgumentsDiagnostics(t.arguments);
    }
  }

  lemma {:induction false} ChildArgumentsDiagnostics(args: seq<TypeArgument>)
    ensures ChildArgumentsEffect(args, false).errors == [] <==> AllResolved(args)
    ensures AllInvalid(ChildArgumentsEffect(args, false).errors)
    decreases args, 1
  {
    if args != [] {
      IterationsDiagnostics(args, |args|);
    }
  }

  lemma {:induction false} IterationsDiagnostics(args: seq<TypeArgument>, i: nat)
    requires i <= |args|
    ensures IterationsEffect(args, i, false).errors == [] <==> forall j :: 0 <= j < i ==> Resolved(args[j])
    ensures AllInvalid(IterationsEffect(args, i, false).errors)
    decreases args, 0, i
  {
    if i > 0 {
      var a := IterationsEffect(args, i - 1, false).errors;
      var b := ArgumentEffect(args[i - 1], false).errors;
      IterationsDiagnostics(args, i - 1);
      ArgumentDiagnostics(args[i - 1]);
      IterationsErrorsStep(args, i);
      ResolvedStep(args, i);
      ErrorsStep(a, b, IterationsEffect(args, i, false).errors,
                 forall j :: 0 <= j < i - 1 ==> Resolved(args[j]), Resolved(args[i - 1]),
                 forall j :: 0 <= j < i ==> Resolved(args[j]));
    }
  }

  /** Reports joined: none exactly when neither part has one. */
  lemma ErrorsStep(a: seq<Diagnostic>, b: seq<Diagnostic>, c: seq<Diagnostic>, p: bool, q: bool, r: bool)
    requires c == a + b && (a == [] <==> p) && (b == [] <==> q) && (r <==> p && q)
    requires AllInvalid(a) && AllInvalid(b)
    ensures (c == [] <==> r) && AllInvalid(c)
  {
    assert |a + b| == |a| + |b|;
    AllInvalidAppend(a, b);
  }

  lemma ResolvedStep(args: seq<TypeArgument>, i: nat)
    requires 0 < i <= |args|
    ensures (forall j :: 0 <= j < i ==> Resolved(args[j]))
        <==> (forall j :: 0 <= j < i - 1 ==> Resolved(args[j])) && Resolved(args[i - 1])
  {
  }

  lemma IterationsErrorsStep(args: seq<TypeArgument>, i: nat)
    requires 0 < i <= |args|
    ensures IterationsEffect(args, i, false).errors
         == IterationsEffect(args, i - 1, false).errors + ArgumentEffect(args[i - 1], false).errors
  {
    var a := IterationsEffect(args, i - 1, false).errors;
    var b := ArgumentEffect(args[i - 1], false).errors;
    assert IterationsEffect(args, i, false).errors == a + b + [];
    assert a + b + [] == a + b;
  }

  /** With generic arguments ignored, nothing is reported and every argument
      reads as `*`. */
  lemma IgnoredArguments(info: PropertyInfo)
    ensures VariableTypeEffect(info, true).errors == []
    ensures forall j :: 0 <= j < |info.typeArguments| ==> ArgumentText(info.typeArguments[j], true) == "*"
  {
    IgnoredIterations(info.typeArguments, |info.typeArguments|);
  }

  lemma {:induction false} IgnoredIterations(args: seq<TypeArgument>, i: nat)
    requires i <= |args|
    ensures IterationsEffect(args, i, true).errors == []
    decreases i
  {
    if i > 0 {
      IgnoredIterations(args, i - 1);
    }
  }

  // ---------------------------------------- the marker after the arguments

  /** The type-argument visitor with the nullability marker written after the
      argument's own type arguments, where a Kotlin type has it. */
  function ArgumentEffectCorrected(arg: TypeArgument, ignoreGenericArgs: bool): Effect
    decreases arg
  {
    if ignoreGenericArgs || arg.variance.Star? then Emit([Phrase("*")])
    else
      var prefix := VarianceOps(arg.variance);
      match arg.reference
      case None => Effect(prefix, [InvalidTypeArgument])
      case Some(t) =>
        Emit(prefix + [Phrase(t.simpleName)])
          .Then(ChildArgumentsEffectCorrected(t.arguments, ignoreGenericArgs))
          .Then(Emit([Phrase(NullableMarker(t.isNullable))]))
  }

  function ChildArgumentsEffectCorrected(args: seq<TypeArgument>, ignoreGenericArgs: bool): Effect
    decreases args, 1
  {
    if args == [] then Emit([])
    else
      Emit([Phrase("<")])
        .Then(IterationsEffectCorrected(args, |args|, ignoreGenericArgs))
        .Then(Emit([Phrase(">")]))
  }

  function IterationsEffectCorrected(args: seq<TypeArgument>, i: nat, ignoreGenericArgs: bool): Effect
    requires i <= |args|
    decreases args, 0, i
  {
    if i == 0 then Emit([])
    else
      IterationsEffectCorrected(args, i - 1, ignoreGenericArgs)
        .Then(ArgumentEffectCorrected(args[i - 1], ignoreGenericArgs))
        .Then(Emit(if i - 1 < |args| - 1 then [Line(", ")] else []))
  }

  /** A nullable `List<String>` as a type argument: the visitor writes
      `List?<String>`, which is not a Kotlin type; the corrected order writes
      `List<String>?`. */
  lemma NullableGenericArgumentAsWritten()
    ensures Flat(ArgumentEffect(NullableList(), false).ops) == "List?<String>"
    ensures Flat(ArgumentEffectCorrected(NullableList(), false).ops) == "List<String>?"
  {
    var inner := [Phrase("<"), Phrase("String"), Phrase(""), Phrase(">")];
    NullableListOps(inner);
    WrittenFlat(inner);
    CorrectedFlat(inner);
  }

  lemma WrittenFlat(inner: seq<Op>)
    requires inner == [Phrase("<"), Phrase("String"), Phrase(""), Phrase(">")]
    ensures Flat([Phrase("List"), Phrase("?")] + inner) == "List?<String>"
  {
    InnerFlat(inner);
    FlatPair(Phrase("List"), Phrase("?"));
    FlatAppend([Phrase("List"), Phrase("?")], inner);
    assert "List" + "?" + "<String>" == "List?<String>";
  }

  lemma CorrectedFlat(inner: seq<Op>)
    requires inner == [Phrase("<"), Phrase("String"), Phrase(""), Phrase(">")]
    ensures Flat([Phrase("List")] + inner + [Phrase("?")]) == "List<String>?"
  {
    InnerFlat(inner);
    FlatSingle(Phrase("List"));
    FlatSingle(Phrase("?"));
    FlatAppend([Phrase("List")], inner);
    FlatAppend([Phrase("List")] + inner, [Phrase("?")]);
    assert "List" + "<String>" + "?" == "List<String>?";
  }

  lemma NullableListOps(inner: seq<Op>)
    requires inner == [Phrase("<"), Phrase("String"), Phrase(""), Phrase(">")]
    ensures ArgumentEffect(NullableList(), false).ops == [Phrase("List"), Phrase("?")] + inner
    ensures ArgumentEffectCorrected(NullableList(), false).ops == [Phrase("List")] + inner + [Phrase("?")]
  {
    StringListChildren();
  }

  lemma InnerFlat(inner: seq<Op>)
    requires inner == [Phrase("<"), Phrase("String"), Phrase(""), Phrase(">")]
    ensures Flat(inner) == "<String>"
  {
    assert inner == [Phrase("<"), Phrase("String")] + [Phrase(""), Phrase(">")];
    FlatPair(Phrase("<"), Phrase("String"));
    FlatPair(Phrase(""), Phrase(">"));
    FlatAppend([Phrase("<"), Phrase("String")], [Phrase(""), Phrase(">")]);
    assert "<" + "String" + ("" + ">") == "<String>";
  }

  function NullableList(): TypeArgument
  {
    TypeArgument(Invariant, Some(TypeReference("List", true, [StringArgument()])))
  }

  function StringArgument(): TypeArgument
  {
    TypeArgument(Invariant, Some(TypeReference("String", false, [])))
  }

  /** Both orders write `<String>` for the one-argument list. */
  lemma StringListChildren()
    ensures ChildArgumentsEffect([StringArgument()], false).ops
         == [Phrase("<"), Phrase("String"), Phrase(""), Phrase(">")]
    ensures ChildArgumentsEffectCorrected([StringArgument()], false).ops
         == [Phrase("<"), Phrase("String"), Phrase(""), Phrase(">")]
  {
    var str := StringArgument();
    assert ArgumentEffect(str, false).ops == [Phrase("String"), Phrase("")];
    assert ArgumentEffectCorrected(str, false).ops == [Phrase("String"), Phrase("")];
    assert IterationsEffect([str], 1, false).ops == [Phrase("String"), Phrase("")];
    assert IterationsEffectCorrected([str], 1, false).ops == [Phrase("String"), Phrase("")];
  }

  lemma CorrectedShape(arg: TypeArgument, ignoreGenericArgs: bool)
    requires !ignoreGenericArgs && !arg.variance.Star? && arg.reference.Some?
    ensures ArgumentEffectCorrected(arg, ignoreGenericArgs).ops
         == VarianceOps(arg.variance) + [Phrase(arg.reference.value.simpleName)]
            + ChildArgumentsEffectCorrected(arg.reference.value.arguments, ignoreGenericArgs).ops
            + [Phrase(NullableMarker(arg.reference.value.isNullable))]
  {
  }

  /** In the corrected order a nullable argument reads as the same argument
      made non-null, followed by `?`, whatever its own type arguments. */
  lemma NullableArgumentText(v: Variance, t: TypeReference, ignoreGenericArgs: bool)
    requires !ignoreGenericArgs && !v.Star?
    ensures Flat(ArgumentEffectCorrected(TypeArgument(v, Some(t.(isNullable := true))), ignoreGenericArgs).ops)
         == Flat(ArgumentEffectCorrected(TypeArgument(v, Some(t.(isNullable := false))), ignoreGenericArgs).ops) + "?"
  {
    var body := VarianceOps(v) + [Phrase(t.simpleName)] + ChildArgumentsEffectCorrected(t.arguments, ignoreGenericArgs).ops;
    CorrectedShape(TypeArgument(v, Some(t.(isNullable := true))), ignoreGenericArgs);
    CorrectedShape(TypeArgument(v, Some(t.(isNullable := false))), ignoreGenericArgs);
    FlatAppend(body, [Phrase("?")]);
    FlatAppend(body, [Phrase("")]);
    FlatSingle(Phrase("?"));
    FlatSingle(Phrase(""));
    assert Flat(body) + "" == Flat(body);
  }
}
