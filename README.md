# ComposeDestinationVisitor in Dafny

A model of the code generator at the heart of the safe-compose-args
annotation processor. For one route class annotated as a navigation
destination, Kotlin's `ComposeDestinationVisitor` writes generated navigation
glue to an indentation-aware output stream and reports problems to the
compiler's logger. It writes:

- the `<Route>Args` data class;
- two decoders: `parseArguments`, reading a back-stack entry's bundle, and
  one reading a saved-state handle, whose header the code writes with the
  bare parameter in place of a function name (see "## Findings");
- the `argumentList` of `navArgument` registrations;
- a `getDestination` builder;
- the `route` pattern.

With no singleton receiver, everything is wrapped in a `<Route>Destination`
class and its companion object.

The project has these files:

- `descriptors.dfy`: what the generator reads. This covers argument kinds,
  type arguments with their variance, per-property information, and
  property and class declarations.
- `rules.dfy`: the small pure rules. These are the receiver prefix, the
  navigation type tags, default literals, decoder phrases, route encoding
  and the provider lookup.
- `emission.dfy`: the output stream and the logger.
  - `Emitter` is a class whose fields are the output lines and the indent
    depth. Its methods are the four write primitives: start a line, append a
    phrase, indent and dedent. A ghost history records every op it was sent.
  - `Logger` collects diagnostics.
  - `Effect` is the pure description of a routine: the ops it writes and the
    diagnostics it reports.
- `types.dfy`: how a declared type is rendered (`visitTypeArgument`,
  `visitChildTypeArguments`, `addVariableType`). Each routine is given as an
  effect and, independently, as the text the visitor's writes read as,
  layout aside. Lemmas connect the two.
- `sections.dfy`: the effect of every section of
  `visitClassDeclaration` and `addParseFunction`. This includes the lookup
  loops that stop at the first property the map does not know.
- `visitor.dfy`: class `ComposeDestinationVisitor`, with its constructor
  fields as in the source. Every routine is an imperative method over the
  emitter and the logger. It is proved to append exactly its effect's ops to
  the emitter's history and its effect's diagnostics to the logger.
- `properties.dfy`: what the written text says. This covers the route
  pattern and its placeholders, the tags, the decoder expressions, the
  default values, the builder's pieces and the missing-provider reports.
- `layout.dfy`: indentation. A visit never closes a block it did not open.
  It returns the emitter to the depth it started at exactly when the
  property map knows every property of the class.

The discovery step provides the descriptors (`PropertyInfo`, the argument
kinds, the provider map). The files defining them, and the output-stream
extension functions (`addLine`, `addPhrase`, `increaseIndent`,
`decreaseIndent`), are not part of this model. Their behaviour is modelled
from how the visitor uses them.

The visit is modelled as the code writes it, including the two places listed
under "## Findings"; the corrected definitions stand beside it. Two further
facts about the code:

- There are nine built-in navigation types (five scalars, four primitive
  arrays). Every other kind is registered with a generated
  `<Route>_<Name>NavType`.
- The saved-state decoder appends the same non-null fallbacks as the bundle
  decoder (`?: false`, `?: throw …`).

## Model

Source paths are relative to the repository root.

| member | source | states |
|---|---|---|
| Visitor.ComposeDestinationVisitor.constructor | compose-annotation-processor/src/main/java/com/compose/type_safe_args/compose_annotation_processor/ComposeDestinationVisitor.kt:14-22 | the visitor keeps the stream, logger, options, provider map, property map and singleton class it is given |
| Visitor.ComposeDestinationVisitor.VisitTypeArgument | compose-annotation-processor/src/main/java/com/compose/type_safe_args/compose_annotation_processor/ComposeDestinationVisitor.kt:386-415 | writes exactly the ops and reports exactly the diagnostics of `ArgumentEffect`: `*` when generic arguments are ignored or the argument is a star, otherwise the variance keyword, the name, the nullable marker and then the nested arguments (the order of lines 410-414), or an invalid-type-argument report when there is no type |
| Visitor.ComposeDestinationVisitor.VisitVariantArgument | compose-annotation-processor/src/main/java/com/compose/type_safe_args/compose_annotation_processor/ComposeDestinationVisitor.kt:397-414 | the non-star part of a type argument writes and reports `ArgumentEffect`: the variance keyword, the name, the nullable marker, then the nested arguments, or one invalid-type-argument report after the keyword when there is no type |
| Visitor.ComposeDestinationVisitor.VisitChildTypeArguments | compose-annotation-processor/src/main/java/com/compose/type_safe_args/compose_annotation_processor/ComposeDestinationVisitor.kt:369-378 | nothing for no arguments; otherwise `<`, each argument with a line-started `, ` after every non-last one, and `>`, exactly as `ChildArgumentsEffect` |
| Visitor.ComposeDestinationVisitor.VisitListEntries | compose-annotation-processor/src/main/java/com/compose/type_safe_args/compose_annotation_processor/ComposeDestinationVisitor.kt:372-375 | the loop over a type-argument list writes and reports `IterationsEffect` for all the arguments |
| Visitor.ComposeDestinationVisitor.VisitListEntry | compose-annotation-processor/src/main/java/com/compose/type_safe_args/compose_annotation_processor/ComposeDestinationVisitor.kt:372-375 | one iteration of the argument loop extends the effect of the first `i` arguments to the first `i + 1` |
| Visitor.ComposeDestinationVisitor.AddVariableType | compose-annotation-processor/src/main/java/com/compose/type_safe_args/compose_annotation_processor/ComposeDestinationVisitor.kt:380-384 | the class name, its type arguments and `?` exactly when nullable, as `VariableTypeEffect` |
| Visitor.ComposeDestinationVisitor.OpenWrapper | compose-annotation-processor/src/main/java/com/compose/type_safe_args/compose_annotation_processor/ComposeDestinationVisitor.kt:30-33 | opens `class <Route>Destination {` one level deeper only when there is no singleton class |
| Visitor.ComposeDestinationVisitor.OpenCompanion | compose-annotation-processor/src/main/java/com/compose/type_safe_args/compose_annotation_processor/ComposeDestinationVisitor.kt:53-56 | opens `companion object {` only when there is no singleton class |
| Visitor.ComposeDestinationVisitor.CloseBlock | compose-annotation-processor/src/main/java/com/compose/type_safe_args/compose_annotation_processor/ComposeDestinationVisitor.kt:231-234 | dedents and writes `}` only when there is no singleton class |
| Visitor.ComposeDestinationVisitor.ReportInvalid | compose-annotation-processor/src/main/java/com/compose/type_safe_args/compose_annotation_processor/ComposeDestinationVisitor.kt:40-43 | a lookup miss reports one invalid-type-argument diagnostic and writes nothing |
| Visitor.ComposeDestinationVisitor.AddField | compose-annotation-processor/src/main/java/com/compose/type_safe_args/compose_annotation_processor/ComposeDestinationVisitor.kt:44-46 | one field line `val <name>: `, its type and `, ` |
| Visitor.ComposeDestinationVisitor.AddFieldAt | compose-annotation-processor/src/main/java/com/compose/type_safe_args/compose_annotation_processor/ComposeDestinationVisitor.kt:39-47 | one iteration of the field loop extends the first `i` fields to `i + 1` |
| Visitor.ComposeDestinationVisitor.AddFields | compose-annotation-processor/src/main/java/com/compose/type_safe_args/compose_annotation_processor/ComposeDestinationVisitor.kt:39-47 | fields up to the first unknown property, then the miss report; the result says whether every property was known |
| Visitor.ComposeDestinationVisitor.AddDataClass | compose-annotation-processor/src/main/java/com/compose/type_safe_args/compose_annotation_processor/ComposeDestinationVisitor.kt:35-51 | the data class head, its fields and, only when no lookup missed, its close |
| Visitor.ComposeDestinationVisitor.AddDataClassHead | compose-annotation-processor/src/main/java/com/compose/type_safe_args/compose_annotation_processor/ComposeDestinationVisitor.kt:36-37 | `data class <Route>Args (` and one indent |
| Visitor.ComposeDestinationVisitor.AddDataClassClose | compose-annotation-processor/src/main/java/com/compose/type_safe_args/compose_annotation_processor/ComposeDestinationVisitor.kt:49-50 | one dedent and `)` |
| Visitor.ComposeDestinationVisitor.GetParsedElement | compose-annotation-processor/src/main/java/com/compose/type_safe_args/compose_annotation_processor/ComposeDestinationVisitor.kt:270-355 | the decoder expression for one property, by kind, as `ParsedElementEffect` |
| Visitor.ComposeDestinationVisitor.GetParcelable | compose-annotation-processor/src/main/java/com/compose/type_safe_args/compose_annotation_processor/ComposeDestinationVisitor.kt:326-333 | `getParcelable<T>("name")`, with the throwing fallback when not nullable |
| Visitor.ComposeDestinationVisitor.GetParcelableArray | compose-annotation-processor/src/main/java/com/compose/type_safe_args/compose_annotation_processor/ComposeDestinationVisitor.kt:334-341 | `getParcelableArrayList<…>("name")`, with the throwing fallback when not nullable |
| Visitor.ComposeDestinationVisitor.GetSerializable | compose-annotation-processor/src/main/java/com/compose/type_safe_args/compose_annotation_processor/ComposeDestinationVisitor.kt:342-353 | `getSerializable("name") as`, `?` when nullable, the type, and the throwing fallback when not nullable |
| Visitor.ComposeDestinationVisitor.GetScalar | compose-annotation-processor/src/main/java/com/compose/type_safe_args/compose_annotation_processor/ComposeDestinationVisitor.kt:272-325 | the decoder's phrase for a built-in kind followed by the kind's default when not nullable |
| Visitor.ComposeDestinationVisitor.AddParseItem | compose-annotation-processor/src/main/java/com/compose/type_safe_args/compose_annotation_processor/ComposeDestinationVisitor.kt:357-359 | `<name> = `, the decoder expression, `, ` |
| Visitor.ComposeDestinationVisitor.AddParseItemAt | compose-annotation-processor/src/main/java/com/compose/type_safe_args/compose_annotation_processor/ComposeDestinationVisitor.kt:263-360 | one iteration of a decoder's loop extends the first `i` items to `i + 1` |
| Visitor.ComposeDestinationVisitor.AddParseItems | compose-annotation-processor/src/main/java/com/compose/type_safe_args/compose_annotation_processor/ComposeDestinationVisitor.kt:263-360 | items up to the first unknown property, then the miss report; the result says whether all were known |
| Visitor.ComposeDestinationVisitor.AddParseFunction | compose-annotation-processor/src/main/java/com/compose/type_safe_args/compose_annotation_processor/ComposeDestinationVisitor.kt:250-367 | the header, the items and, only when no lookup missed, the two closing lines, as `ParseFunctionEffect` |
| Visitor.ComposeDestinationVisitor.AddParseFunctionHead | compose-annotation-processor/src/main/java/com/compose/type_safe_args/compose_annotation_processor/ComposeDestinationVisitor.kt:256-261 | the `fun <receiver><signature>: <Route>Args {` header, `return <Route>Args(` and two indents |
| Visitor.ComposeDestinationVisitor.AddParseFunctionClose | compose-annotation-processor/src/main/java/com/compose/type_safe_args/compose_annotation_processor/ComposeDestinationVisitor.kt:362-366 | dedent, `)`, dedent, `}` |
| Visitor.ComposeDestinationVisitor.AddParseFunctions | compose-annotation-processor/src/main/java/com/compose/type_safe_args/compose_annotation_processor/ComposeDestinationVisitor.kt:58-83 | the bundle decoder with the signature `parseArguments(backStackEntry: NavBackStackEntry)`, then the saved-state decoder with the signature the code passes, the bare `savedStateHandle: SavedStateHandle` |
| Visitor.ComposeDestinationVisitor.AddDefaultValue | compose-annotation-processor/src/main/java/com/compose/type_safe_args/compose_annotation_processor/ComposeDestinationVisitor.kt:135-140 | `<provider>.<name>`, or `kotlin.Unit.<name>` together with a no-provider report when there is no provider |
| Visitor.ComposeDestinationVisitor.AddNavArgumentHead | compose-annotation-processor/src/main/java/com/compose/type_safe_args/compose_annotation_processor/ComposeDestinationVisitor.kt:128-132 | indent, `navArgument("<name>") {`, indent, then the `type =` and `nullable =` lines |
| Visitor.ComposeDestinationVisitor.AddDefaultLine | compose-annotation-processor/src/main/java/com/compose/type_safe_args/compose_annotation_processor/ComposeDestinationVisitor.kt:133-141 | the `defaultValue = ` line only for a property with a default |
| Visitor.ComposeDestinationVisitor.AddNavArgument | compose-annotation-processor/src/main/java/com/compose/type_safe_args/compose_annotation_processor/ComposeDestinationVisitor.kt:128-144 | one registration, as `NavArgumentEffect` |
| Visitor.ComposeDestinationVisitor.AddRegistration | compose-annotation-processor/src/main/java/com/compose/type_safe_args/compose_annotation_processor/ComposeDestinationVisitor.kt:102-150 | one iteration of the registration loop extends the first `i` registrations to `i + 1` |
| Visitor.ComposeDestinationVisitor.AppendPlaceholder | compose-annotation-processor/src/main/java/com/compose/type_safe_args/compose_annotation_processor/ComposeDestinationVisitor.kt:146-149 | appending `<name>={<name>}`, and `,` unless the count equals the property map's size, extends the argument string of `i` properties to `i + 1` |
| Visitor.ComposeDestinationVisitor.AddNavArguments | compose-annotation-processor/src/main/java/com/compose/type_safe_args/compose_annotation_processor/ComposeDestinationVisitor.kt:101-150 | registrations up to the first unknown property, then the miss report; when all are known, the argument string is `ArgumentString` of all properties |
| Visitor.ComposeDestinationVisitor.AddArgumentListHead | compose-annotation-processor/src/main/java/com/compose/type_safe_args/compose_annotation_processor/ComposeDestinationVisitor.kt:97-100 | `val <receiver>argumentList`, its type, an indent and `get() = mutableListOf(` |
| Visitor.ComposeDestinationVisitor.AddArgumentList | compose-annotation-processor/src/main/java/com/compose/type_safe_args/compose_annotation_processor/ComposeDestinationVisitor.kt:95-152 | the head, the registrations and, only when no lookup missed, the close, as `ArgumentListEffect` |
| Visitor.ComposeDestinationVisitor.AddArgumentListClose | compose-annotation-processor/src/main/java/com/compose/type_safe_args/compose_annotation_processor/ComposeDestinationVisitor.kt:151-152 | `)` and one dedent |
| Visitor.ComposeDestinationVisitor.AddDefaultParameter | compose-annotation-processor/src/main/java/com/compose/type_safe_args/compose_annotation_processor/ComposeDestinationVisitor.kt:165-176 | ` = <provider>.<name>` only for a property with a default |
| Visitor.ComposeDestinationVisitor.AddParameter | compose-annotation-processor/src/main/java/com/compose/type_safe_args/compose_annotation_processor/ComposeDestinationVisitor.kt:163-177 | `<name>: `, its type, its default, `, ` |
| Visitor.ComposeDestinationVisitor.AddParameterAt | compose-annotation-processor/src/main/java/com/compose/type_safe_args/compose_annotation_processor/ComposeDestinationVisitor.kt:155-178 | one iteration of the parameter loop extends the first `i` parameters to `i + 1` |
| Visitor.ComposeDestinationVisitor.AddParameters | compose-annotation-processor/src/main/java/com/compose/type_safe_args/compose_annotation_processor/ComposeDestinationVisitor.kt:155-178 | the parameters of all properties, which are all known here |
| Visitor.ComposeDestinationVisitor.AddEntry | compose-annotation-processor/src/main/java/com/compose/type_safe_args/compose_annotation_processor/ComposeDestinationVisitor.kt:195-210 | `"<name>=`, the kind's route encoding, `"` for the last count or `,"` before it, and ` + ` |
| Visitor.ComposeDestinationVisitor.AddEntryAt | compose-annotation-processor/src/main/java/com/compose/type_safe_args/compose_annotation_processor/ComposeDestinationVisitor.kt:186-211 | one iteration of the entry loop extends the first `i` entries to `i + 1` |
| Visitor.ComposeDestinationVisitor.AddEntries | compose-annotation-processor/src/main/java/com/compose/type_safe_args/compose_annotation_processor/ComposeDestinationVisitor.kt:185-211 | the entries of all properties |
| Visitor.ComposeDestinationVisitor.AddBuilderBodyHead | compose-annotation-processor/src/main/java/com/compose/type_safe_args/compose_annotation_processor/ComposeDestinationVisitor.kt:179-184 | `): String {`, an indent, the `return "<Route>?" + ` line (no `?` for an empty map) and two indents |
| Visitor.ComposeDestinationVisitor.AddBuilderBodyTail | compose-annotation-processor/src/main/java/com/compose/type_safe_args/compose_annotation_processor/ComposeDestinationVisitor.kt:212-217 | `""`, three dedents, `}` |
| Visitor.ComposeDestinationVisitor.AddDestinationBuilder | compose-annotation-processor/src/main/java/com/compose/type_safe_args/compose_annotation_processor/ComposeDestinationVisitor.kt:154-217 | the whole `getDestination` builder, as `BuilderEffect` |
| Visitor.ComposeDestinationVisitor.AddRouteQuery | compose-annotation-processor/src/main/java/com/compose/type_safe_args/compose_annotation_processor/ComposeDestinationVisitor.kt:223-226 | `?` and the argument string only when it is not empty |
| Visitor.ComposeDestinationVisitor.AddRoute | compose-annotation-processor/src/main/java/com/compose/type_safe_args/compose_annotation_processor/ComposeDestinationVisitor.kt:218-229 | the `route` property, as `RouteEffect` |
| Visitor.ComposeDestinationVisitor.AddOpening | compose-annotation-processor/src/main/java/com/compose/type_safe_args/compose_annotation_processor/ComposeDestinationVisitor.kt:25-51 | the wrapper and, for a non-empty map, the data class; the result is false exactly when a lookup there missed |
| Visitor.ComposeDestinationVisitor.AddCompanion | compose-annotation-processor/src/main/java/com/compose/type_safe_args/compose_annotation_processor/ComposeDestinationVisitor.kt:53-84 | the companion and, for a non-empty map, both decoders with the signatures the code passes them |
| Visitor.ComposeDestinationVisitor.AddTail | compose-annotation-processor/src/main/java/com/compose/type_safe_args/compose_annotation_processor/ComposeDestinationVisitor.kt:154-239 | the builder, the route and the two wrapper closes, as `TailEffect` |
| Visitor.ComposeDestinationVisitor.VisitClassDeclaration | compose-annotation-processor/src/main/java/com/compose/type_safe_args/compose_annotation_processor/ComposeDestinationVisitor.kt:24-240 | the whole visit writes and reports exactly `VisitEffect`, the code as written (the saved-state header and the marker order of "## Findings" included), which ends at the data class on a miss there and at the argument list on a miss there |
| Emission.Emitter.AddLine | compose-annotation-processor/src/main/java/com/compose/type_safe_args/compose_annotation_processor/ComposeDestinationVisitor.kt:31 | a line write is recorded and the output remains what the recorded ops make of an empty stream |
| Emission.Emitter.AddPhrase | compose-annotation-processor/src/main/java/com/compose/type_safe_args/compose_annotation_processor/ComposeDestinationVisitor.kt:46 | a phrase write is recorded and the output stays consistent with the history |
| Emission.Emitter.IncreaseIndent | compose-annotation-processor/src/main/java/com/compose/type_safe_args/compose_annotation_processor/ComposeDestinationVisitor.kt:32 | an indent is recorded and the output stays consistent with the history |
| Emission.Emitter.DecreaseIndent | compose-annotation-processor/src/main/java/com/compose/type_safe_args/compose_annotation_processor/ComposeDestinationVisitor.kt:49 | a dedent is recorded and the output stays consistent with the history |
| Emission.Logger.Error | compose-annotation-processor/src/main/java/com/compose/type_safe_args/compose_annotation_processor/ComposeDestinationVisitor.kt:41 | a report is appended to the logger's diagnostics, in order |
| Emission.Step | compose-annotation-processor/src/main/java/com/compose/type_safe_args/compose_annotation_processor/ComposeDestinationVisitor.kt:31-32 | a write never changes finished lines; a line write adds exactly one line at the current depth; a phrase leaves the line count and indent alone; the depth moves by the op's delta |
| Emission.Exec | compose-annotation-processor/src/main/java/com/compose/type_safe_args/compose_annotation_processor/ComposeDestinationVisitor.kt:24-240 | after a run of writes, the depth has moved by the run's net indentation and finished lines are kept |
| Rules.SingletonExtension | compose-annotation-processor/src/main/java/com/compose/type_safe_args/compose_annotation_processor/ComposeDestinationVisitor.kt:242-248 | the receiver prefix is empty exactly when there is no singleton class, and otherwise is its name followed by `.` |
| Rules.UpperCase | compose-annotation-processor/src/main/java/com/compose/type_safe_args/compose_annotation_processor/ComposeDestinationVisitor.kt:123 | a lower-case ASCII letter moves to its upper-case letter; any other character stays |
| Rules.Capitalize | compose-annotation-processor/src/main/java/com/compose/type_safe_args/compose_annotation_processor/ComposeDestinationVisitor.kt:123 | only the first character changes, to its upper case; the length is kept |
| Rules.NavTypeTag | compose-annotation-processor/src/main/java/com/compose/type_safe_args/compose_annotation_processor/ComposeDestinationVisitor.kt:111-126 | the synthesised tag of an opaque kind is `<route>_<Name>NavType` |
| Rules.DefaultLiteral | compose-annotation-processor/src/main/java/com/compose/type_safe_args/compose_annotation_processor/ComposeDestinationVisitor.kt:272-325 | a built-in kind has a default literal and an opaque kind has none |
| Rules.BundleAccessor | compose-annotation-processor/src/main/java/com/compose/type_safe_args/compose_annotation_processor/ComposeDestinationVisitor.kt:63-74 | the bundle lambda has a getter exactly for the built-in kinds, each reading `("<name>")` off `backStackEntry.arguments?.` |
| Rules.StateAccessor | compose-annotation-processor/src/main/java/com/compose/type_safe_args/compose_annotation_processor/ComposeDestinationVisitor.kt:81-83 | the saved-state lambda reads `("<name>")`, whatever the kind |
| Rules.DecoderPhrase | compose-annotation-processor/src/main/java/com/compose/type_safe_args/compose_annotation_processor/ComposeDestinationVisitor.kt:59-83 | a lambda phrase exists for the saved-state decoder always and for the bundle decoder exactly on built-in kinds |
| Rules.RouteEncoding | compose-annotation-processor/src/main/java/com/compose/type_safe_args/compose_annotation_processor/ComposeDestinationVisitor.kt:197-204 | a value is substituted as `$<name>` exactly when its kind is a scalar, and every other kind as `${Uri.encode(gson.toJson(<name>))}` |
| Rules.BoolText | compose-annotation-processor/src/main/java/com/compose/type_safe_args/compose_annotation_processor/ComposeDestinationVisitor.kt:132 | a boolean prints as `true` exactly when it holds and as `false` exactly when it does not |
| Rules.ProviderClassName | compose-annotation-processor/src/main/java/com/compose/type_safe_args/compose_annotation_processor/ComposeDestinationVisitor.kt:86-93 | there is a provider name exactly when some map entry has a default and the class has a registered provider, and it is that provider's simple name |
| Sections.MappedPrefix | compose-annotation-processor/src/main/java/com/compose/type_safe_args/compose_annotation_processor/ComposeDestinationVisitor.kt:39-43 | the loops stop at the first property the map does not know: all before it are known and it is not |
| Sections.ArgumentStringStep | compose-annotation-processor/src/main/java/com/compose/type_safe_args/compose_annotation_processor/ComposeDestinationVisitor.kt:146-149 | one loop step's append matches the argument-string specification |
| TypeRendering.ArgumentStar | compose-annotation-processor/src/main/java/com/compose/type_safe_args/compose_annotation_processor/ComposeDestinationVisitor.kt:387-396 | with generic arguments ignored or a star projection, the argument writes `*` and reports nothing |
| TypeRendering.ArgumentUnresolved | compose-annotation-processor/src/main/java/com/compose/type_safe_args/compose_annotation_processor/ComposeDestinationVisitor.kt:405-409 | an argument with no type writes only its variance keyword and reports one invalid-type-argument |
| TypeRendering.ArgumentResolved | compose-annotation-processor/src/main/java/com/compose/type_safe_args/compose_annotation_processor/ComposeDestinationVisitor.kt:397-414 | a resolved argument writes variance, name, its nullable marker and then its own arguments, reporting only what its arguments report |
| TypeRendering.ChildArgumentsShape | compose-annotation-processor/src/main/java/com/compose/type_safe_args/compose_annotation_processor/ComposeDestinationVisitor.kt:369-378 | no arguments write and report nothing; otherwise `<`, the iterations and `>` |
| TypeRendering.IterationsShape | compose-annotation-processor/src/main/java/com/compose/type_safe_args/compose_annotation_processor/ComposeDestinationVisitor.kt:372-375 | the `i + 1`-th iteration adds one argument and a `, ` line exactly when it is not the last |
| TypeRendering.VariableTypeShape | compose-annotation-processor/src/main/java/com/compose/type_safe_args/compose_annotation_processor/ComposeDestinationVisitor.kt:380-384 | a declared type writes its name, its arguments and its marker, reporting what its arguments report |
| TypeRendering.FlatPrefix | compose-annotation-processor/src/main/java/com/compose/type_safe_args/compose_annotation_processor/ComposeDestinationVisitor.kt:392-404 | the variance ops read as `out `, `in `, or nothing |
| TypeRendering.FlatArgument | compose-annotation-processor/src/main/java/com/compose/type_safe_args/compose_annotation_processor/ComposeDestinationVisitor.kt:386-415 | what a type argument writes reads, layout aside, as its independent text rendering `ArgumentText`: the variance keyword, the name, the marker, then the bracketed arguments |
| TypeRendering.FlatChildArguments | compose-annotation-processor/src/main/java/com/compose/type_safe_args/compose_annotation_processor/ComposeDestinationVisitor.kt:369-378 | the written argument list reads as `<a, b, …>`, or nothing for no arguments |
| TypeRendering.FlatIterations | compose-annotation-processor/src/main/java/com/compose/type_safe_args/compose_annotation_processor/ComposeDestinationVisitor.kt:372-375 | the first `i` iterations read as those arguments joined by `, `, with a trailing `, ` while more follow |
| TypeRendering.FlatVariableType | compose-annotation-processor/src/main/java/com/compose/type_safe_args/compose_annotation_processor/ComposeDestinationVisitor.kt:380-384 | a declared type reads as its name, its arguments in angle brackets and `?` exactly when nullable |
| TypeRendering.ArgumentLayout | compose-annotation-processor/src/main/java/com/compose/type_safe_args/compose_annotation_processor/ComposeDestinationVisitor.kt:386-415 | a type argument writes only phrases and `, ` lines, and never indents |
| TypeRendering.ChildArgumentsLayout | compose-annotation-processor/src/main/java/com/compose/type_safe_args/compose_annotation_processor/ComposeDestinationVisitor.kt:369-378 | an argument list writes only phrases and `, ` lines |
| TypeRendering.IterationsLayout | compose-annotation-processor/src/main/java/com/compose/type_safe_args/compose_annotation_processor/ComposeDestinationVisitor.kt:372-375 | so do its iterations |
| TypeRendering.VariableTypeLayout | compose-annotation-processor/src/main/java/com/compose/type_safe_args/compose_annotation_processor/ComposeDestinationVisitor.kt:380-384 | a declared type writes only phrases and `, ` lines, and leaves the indent depth balanced |
| TypeRendering.ArgumentDiagnostics | compose-annotation-processor/src/main/java/com/compose/type_safe_args/compose_annotation_processor/ComposeDestinationVisitor.kt:405-409 | an argument reports nothing exactly when it and every nested argument resolve, and every report is invalid-type-argument |
| TypeRendering.ChildArgumentsDiagnostics | compose-annotation-processor/src/main/java/com/compose/type_safe_args/compose_annotation_processor/ComposeDestinationVisitor.kt:369-378 | an argument list reports nothing exactly when all its arguments resolve |
| TypeRendering.IterationsDiagnostics | compose-annotation-processor/src/main/java/com/compose/type_safe_args/compose_annotation_processor/ComposeDestinationVisitor.kt:372-375 | the first `i` iterations report nothing exactly when those arguments resolve |
| TypeRendering.IgnoredArguments | compose-annotation-processor/src/main/java/com/compose/type_safe_args/compose_annotation_processor/ComposeDestinationVisitor.kt:387-390 | with `ignoreGenericArgs` set to `true`, a declared type reports nothing and each of its arguments reads `*` |
| TypeRendering.IgnoredIterations | compose-annotation-processor/src/main/java/com/compose/type_safe_args/compose_annotation_processor/ComposeDestinationVisitor.kt:387-390 | ignored arguments report nothing |
| TypeRendering.NullableArgumentText | compose-annotation-processor/src/main/java/com/compose/type_safe_args/compose_annotation_processor/ComposeDestinationVisitor.kt:410-414 | with the marker moved after the nested arguments (`ArgumentEffectCorrected`), a nullable argument's text is its non-null text followed by `?`, whatever its own arguments |
| TypeRendering.NullableGenericArgumentAsWritten | compose-annotation-processor/src/main/java/com/compose/type_safe_args/compose_annotation_processor/ComposeDestinationVisitor.kt:410-414 | the visitor's order renders a nullable `List` of `String` as `List?<String>`; the corrected order renders `List<String>?` |
| Properties.Placeholders | compose-annotation-processor/src/main/java/com/compose/type_safe_args/compose_annotation_processor/ComposeDestinationVisitor.kt:146 | the `j`-th placeholder is `<name>={<name>}` of the `j`-th property |
| Properties.ArgumentStringOpen | compose-annotation-processor/src/main/java/com/compose/type_safe_args/compose_annotation_processor/ComposeDestinationVisitor.kt:146-149 | while the count stays below the map's size, every placeholder is followed by `,`, so a map larger than the class leaves a trailing comma |
| Properties.ArgumentStringJoined | compose-annotation-processor/src/main/java/com/compose/type_safe_args/compose_annotation_processor/ComposeDestinationVisitor.kt:146-149 | with every property known and the map the class's size, the argument string is the placeholders joined by `,` |
| Properties.ArgumentStringEmpty | compose-annotation-processor/src/main/java/com/compose/type_safe_args/compose_annotation_processor/ComposeDestinationVisitor.kt:146-149 | the argument string is empty exactly when no property was appended |
| Properties.RoutePattern | compose-annotation-processor/src/main/java/com/compose/type_safe_args/compose_annotation_processor/ComposeDestinationVisitor.kt:218-227 | the route is `"<Route>"` for no properties and `"<Route>?a={a},b={b}"` otherwise |
| Properties.NavTypeTagShape | compose-annotation-processor/src/main/java/com/compose/type_safe_args/compose_annotation_processor/ComposeDestinationVisitor.kt:111-126 | an opaque tag starts with `<route>_`; a built-in tag depends only on the kind |
| Properties.NavTypeTagSuffix | compose-annotation-processor/src/main/java/com/compose/type_safe_args/compose_annotation_processor/ComposeDestinationVisitor.kt:111-126 | a tag ends in `NavType` exactly for the opaque kinds |
| Properties.NavTypeTagsDistinct | compose-annotation-processor/src/main/java/com/compose/type_safe_args/compose_annotation_processor/ComposeDestinationVisitor.kt:113-121 | two built-in tags are equal exactly when the kinds are |
| Properties.ParcelableReadText | compose-annotation-processor/src/main/java/com/compose/type_safe_args/compose_annotation_processor/ComposeDestinationVisitor.kt:326-333 | the parcelable read reads `backStackEntry.arguments?.getParcelable<T>("name")`, then the throw when not nullable |
| Properties.ParcelableArrayReadText | compose-annotation-processor/src/main/java/com/compose/type_safe_args/compose_annotation_processor/ComposeDestinationVisitor.kt:334-341 | the parcelable-array read reads `…getParcelableArrayList<args>("name")`, then the throw when not nullable |
| Properties.SerializableReadText | compose-annotation-processor/src/main/java/com/compose/type_safe_args/compose_annotation_processor/ComposeDestinationVisitor.kt:342-353 | the serializable read reads `…getSerializable("name") as? T` or `as T ?: throw …` |
| Properties.ScalarReadText | compose-annotation-processor/src/main/java/com/compose/type_safe_args/compose_annotation_processor/ComposeDestinationVisitor.kt:272-325 | a built-in read is the decoder's phrase, then ` ?: <default>` exactly when not nullable, and reports nothing |
| Properties.DecodersCompared | compose-annotation-processor/src/main/java/com/compose/type_safe_args/compose_annotation_processor/ComposeDestinationVisitor.kt:59-83 | the two decoders write the same opaque reads (both from the bundle) and differ for built-in kinds only in the accessor |
| Properties.DefaultLineText | compose-annotation-processor/src/main/java/com/compose/type_safe_args/compose_annotation_processor/ComposeDestinationVisitor.kt:133-141 | the default line is written exactly for a default, reads `defaultValue = <provider>.<name>`, and reports no-provider exactly when there is a default and no provider |
| Properties.DefaultParameterText | compose-annotation-processor/src/main/java/com/compose/type_safe_args/compose_annotation_processor/ComposeDestinationVisitor.kt:165-176 | the same for the builder parameter's ` = <provider>.<name>` |
| Properties.RegistrationDiagnostics | compose-annotation-processor/src/main/java/com/compose/type_safe_args/compose_annotation_processor/ComposeDestinationVisitor.kt:102-150 | the registrations report one no-provider per property with a default, in order, exactly when there is no provider |
| Properties.NavArgumentErrors | compose-annotation-processor/src/main/java/com/compose/type_safe_args/compose_annotation_processor/ComposeDestinationVisitor.kt:128-144 | one registration reports no-provider exactly for a default with no provider |
| Properties.NothingMissing | compose-annotation-processor/src/main/java/com/compose/type_safe_args/compose_annotation_processor/ComposeDestinationVisitor.kt:86-93 | with no default anywhere in the map, no property needs a provider |
| Properties.ArgumentListDiagnostics | compose-annotation-processor/src/main/java/com/compose/type_safe_args/compose_annotation_processor/ComposeDestinationVisitor.kt:86-150 | the argument list reports the missing providers before the first miss unless the class has a registered provider, then the miss itself |
| Properties.EntryIsText | compose-annotation-processor/src/main/java/com/compose/type_safe_args/compose_annotation_processor/ComposeDestinationVisitor.kt:195-210 | one builder entry reads `"<name>=<encoding><close> + ` and reports nothing |
| Properties.EntryCloses | compose-annotation-processor/src/main/java/com/compose/type_safe_args/compose_annotation_processor/ComposeDestinationVisitor.kt:205-209 | with the map the class's size, the entry's close is `"` exactly for the last property, and the argument string's comma follows the same rule |
| Properties.BuilderBodyText | compose-annotation-processor/src/main/java/com/compose/type_safe_args/compose_annotation_processor/ComposeDestinationVisitor.kt:179-217 | the builder body opens with `): String {return "<Route>?" + ` (no `?` for an empty map) and ends with `""}` |
| Properties.RouteText | compose-annotation-processor/src/main/java/com/compose/type_safe_args/compose_annotation_processor/ComposeDestinationVisitor.kt:218-229 | the route property reads `val <receiver>routeget() = <route literal>` and reports nothing |
| Properties.StateHeaderAsWritten | compose-annotation-processor/src/main/java/com/compose/type_safe_args/compose_annotation_processor/ComposeDestinationVisitor.kt:77-80 | with the signature as passed, the saved-state decoder's header has no parameter list at all |
| Properties.DecoderHeaders | compose-annotation-processor/src/main/java/com/compose/type_safe_args/compose_annotation_processor/ComposeDestinationVisitor.kt:59-80 | with the corrected signature, both decoder headers are `fun <receiver>parseArguments(<param>): <Route>Args {` and differ only in the parameter |
| Layout.InlineParsedElement | compose-annotation-processor/src/main/java/com/compose/type_safe_args/compose_annotation_processor/ComposeDestinationVisitor.kt:270-355 | a decoder expression writes only text |
| Layout.ItemMoves | compose-annotation-processor/src/main/java/com/compose/type_safe_args/compose_annotation_processor/ComposeDestinationVisitor.kt:39-211 | whatever a loop writes for one property never goes below its starting depth and returns to it |
| Layout.NavArgumentMoves | compose-annotation-processor/src/main/java/com/compose/type_safe_args/compose_annotation_processor/ComposeDestinationVisitor.kt:128-144 | a registration opens two levels and closes both |
| Layout.PrefixMoves | compose-annotation-processor/src/main/java/com/compose/type_safe_args/compose_annotation_processor/ComposeDestinationVisitor.kt:39-211 | the items of a loop leave the depth where it was |
| Layout.LoopMoves | compose-annotation-processor/src/main/java/com/compose/type_safe_args/compose_annotation_processor/ComposeDestinationVisitor.kt:39-211 | a loop leaves the depth where it was, whether or not it misses |
| Layout.OpenMoves | compose-annotation-processor/src/main/java/com/compose/type_safe_args/compose_annotation_processor/ComposeDestinationVisitor.kt:30-56 | the wrapper and the companion each open one level exactly when there is no singleton receiver |
| Layout.CloseMoves | compose-annotation-processor/src/main/java/com/compose/type_safe_args/compose_annotation_processor/ComposeDestinationVisitor.kt:231-239 | a wrapper close shuts that level |
| Layout.DataClassMoves | compose-annotation-processor/src/main/java/com/compose/type_safe_args/compose_annotation_processor/ComposeDestinationVisitor.kt:35-51 | the data class leaves the depth alone, or one level open after a miss |
| Layout.ParseFunctionMoves | compose-annotation-processor/src/main/java/com/compose/type_safe_args/compose_annotation_processor/ComposeDestinationVisitor.kt:250-367 | a decoder leaves the depth alone, or two levels open after a miss |
| Layout.ArgumentListMoves | compose-annotation-processor/src/main/java/com/compose/type_safe_args/compose_annotation_processor/ComposeDestinationVisitor.kt:95-152 | the argument list leaves the depth alone, or one level open after a miss |
| Layout.BuilderMoves | compose-annotation-processor/src/main/java/com/compose/type_safe_args/compose_annotation_processor/ComposeDestinationVisitor.kt:154-217 | the builder returns to its starting depth |
| Layout.BodyHeadMoves | compose-annotation-processor/src/main/java/com/compose/type_safe_args/compose_annotation_processor/ComposeDestinationVisitor.kt:179-184 | the builder body opens three levels |
| Layout.BodyTailMoves | compose-annotation-processor/src/main/java/com/compose/type_safe_args/compose_annotation_processor/ComposeDestinationVisitor.kt:212-217 | the builder tail closes those three |
| Layout.RouteMoves | compose-annotation-processor/src/main/java/com/compose/type_safe_args/compose_annotation_processor/ComposeDestinationVisitor.kt:218-229 | the route property returns to its starting depth |
| Layout.OpeningMoves | compose-annotation-processor/src/main/java/com/compose/type_safe_args/compose_annotation_processor/ComposeDestinationVisitor.kt:25-51 | the opening leaves the wrapper's level open, plus one after a data-class miss |
| Layout.CompanionMoves | compose-annotation-processor/src/main/java/com/compose/type_safe_args/compose_annotation_processor/ComposeDestinationVisitor.kt:53-84 | the companion leaves its own level open |
| Layout.TailMoves | compose-annotation-processor/src/main/java/com/compose/type_safe_args/compose_annotation_processor/ComposeDestinationVisitor.kt:154-239 | the tail closes the wrapper and the companion |
| Layout.VisitMoves | compose-annotation-processor/src/main/java/com/compose/type_safe_args/compose_annotation_processor/ComposeDestinationVisitor.kt:24-240 | a visit never goes below its starting depth and ends at it when every property is known; otherwise Wrap+1 levels stay open after a data-class miss and 2·Wrap+1 after an argument-list miss, where Wrap is 1 without a singleton receiver and 0 with one |
| Layout.VisitBalance | compose-annotation-processor/src/main/java/com/compose/type_safe_args/compose_annotation_processor/ComposeDestinationVisitor.kt:24-240 | a visit is always nested, and balanced exactly when the map knows every property of the class |
| Layout.VisitDepth | compose-annotation-processor/src/main/java/com/compose/type_safe_args/compose_annotation_processor/ComposeDestinationVisitor.kt:24-240 | after a visit the emitter is back at its depth exactly when every property is known |

## Left out

- `logger.info` when a provider supplies a default (lines 166-169) is
  left out. It only produces a message and writes nothing to the file.
- The `resolver` constructor parameter is left out because the visitor
  never uses it.
- The symbol-processing API is modelled on values. Property lookup is a
  `map` keyed by declarations. `getAllProperties`, `resolve()` and the nested
  `element.typeArguments` are given as already-resolved descriptors.
- Output encoding is left out. The stream is modelled as lines of
  characters, and the bytes the extension functions write are not.
- `replaceFirstChar { it.uppercase() }` is modelled for ASCII letters only.
  Other characters are kept as written, since there is no Unicode case
  mapping here.
- The bundle lambda's `throw IllegalStateException("Unsupported type")`
  (line 74) is absent. `getParsedElement` never calls the lambda for the
  opaque kinds, so the throw is unreachable.
- The builder, parameter and entry loops (lines 155-211) are modelled only
  for classes whose properties are all known. Their own miss branches are
  unreachable because the argument-list loop misses first and ends the visit.
- Visitor.ComposeDestinationVisitor.AddParameters: requires every property
  to be known. That is the only state in which the source reaches it.
- Visitor.ComposeDestinationVisitor.AddEntries: requires every property to
  be known, for the same reason.
- Visitor.ComposeDestinationVisitor.AddDestinationBuilder: requires every
  property to be known, for the same reason.
- The source's `forEach` loops with a non-local `return` become `while`
  loops that stop at the first miss, then a report. Methods return a
  flag, and the caller returns when it is false.
- `propertyMap.size` is the size of the whole shared map, not of the class's
  properties. It is used as given; `Properties.ArgumentStringOpen` states
  what follows when the map is larger.
- Properties.EntryIsText: states one builder entry's text. The text of the
  whole entry list is stated only through this and `Properties.EntryCloses`.
- Emission.Emitter: its fields model what the extension functions keep.
  How text is flushed to the stream is not modelled.

## Findings

| source | as written | input that shows it | evidently intended | confidence | as-written member | corrected member |
|---|---|---|---|---|---|---|
| compose-annotation-processor/src/main/java/com/compose/type_safe_args/compose_annotation_processor/ComposeDestinationVisitor.kt:77-80 | the saved-state decoder's signature is `savedStateHandle: SavedStateHandle`, so the header is `fun savedStateHandle: SavedStateHandle: <Route>Args {` | any route class with a non-empty property map | `parseArguments(savedStateHandle: SavedStateHandle)`, matching the bundle decoder's `parseArguments(backStackEntry: NavBackStackEntry)` | not executed | Properties.StateHeaderAsWritten | Properties.DecoderHeaders |
| compose-annotation-processor/src/main/java/com/compose/type_safe_args/compose_annotation_processor/ComposeDestinationVisitor.kt:410-414 | a type argument's nullable marker is written before its own type arguments | a parcelable-array property whose element type is a nullable `List<String>` renders `List?<String>` | the marker after the nested arguments, `List<String>?` | not executed | TypeRendering.NullableGenericArgumentAsWritten | TypeRendering.NullableArgumentText |

The visitor and every section follow the code as written. The corrected
members stand beside them: `Sections.StateSignature` is the saved-state
signature with its function name, and `TypeRendering.ArgumentEffectCorrected`
writes the marker after the nested arguments.
