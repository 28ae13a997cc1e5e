/** The indentation-aware text emitter the generator writes through, and the
    diagnostic sink it reports to.

    The emitter knows two kinds of writes: a line write starts a new output
    line at the current indent depth, a phrase write appends to the line being
    written. Indent writes raise and lower the depth for the lines started
    afterwards. A routine of the generator is specified by the `Effect` it has:
    the ops it sends to the emitter, in order, and the diagnostics it reports,
    in order. */
module Emission {

  /** One output line: the indent depth it was started at, and its text. */
  datatype OutputLine = OutputLine(indent: int, text: string)

  /** The emitter's view of the output: the lines already ended, the line
      still being written, and the depth the next line will start at. */
  datatype Doc = Doc(finished: seq<OutputLine>, current: OutputLine, depth: int)
  {
    function Lines(): seq<OutputLine> { finished + [current] }
  }

  /** An output stream nothing has been written to yet. */
  const EmptyDoc := Doc([], OutputLine(0, ""), 0)

  /** The four emitter primitives. */
  datatype Op = Line(text: string) | Phrase(text: string) | Indent | Dedent

  /** What the generator reports to its logger. */
  datatype Diagnostic = InvalidTypeArgument | NoProviderFound(argumentName: string)

  /** The ops a routine writes and the diagnostics it reports. */
  datatype Effect = Effect(ops: seq<Op>, errors: seq<Diagnostic>)
  {
    /** This effect followed by `next`. */
    function Then(next: Effect): Effect
    {
      Effect(ops + next.ops, errors + next.errors)
    }
  }

  function Emit(ops: seq<Op>): Effect { Effect(ops, []) }

  function Report(d: Diagnostic): Effect { Effect([], [d]) }

  /** How far one op moves the indent depth. */
  function Delta(op: Op): int
  {
    match op
    case Indent => 1
    case Dedent => -1
    case _ => 0
  }

  /** The net change of the indent depth over a run of ops. */
  function Net(ops: seq<Op>): int
  {
    if ops == [] then 0 else Net(ops[..|ops| - 1]) + Delta(ops[|ops| - 1])
  }

  /** No prefix of `ops` lowers the depth below the depth it started at. */
  ghost predicate Nested(ops: seq<Op>)
  {
    forall k :: 0 <= k <= |ops| ==> Net(ops[..k]) >= 0
  }

  /** Every indent is matched by a later dedent and no dedent comes first. */
  ghost predicate Balanced(ops: seq<Op>)
  {
    Nested(ops) && Net(ops) == 0
  }

  /** The text of a run of ops with the layout dropped: what the output reads
      when line breaks and indentation are ignored. */
  function Flat(ops: seq<Op>): string
  {
    if ops == [] then "" else Flat(ops[..|ops| - 1]) + OpText(ops[|ops| - 1])
  }

  /** The text one op writes. */
  function OpText(op: Op): string
  {
    match op
    case Line(t) => t
    case Phrase(t) => t
    case _ => ""
  }

  lemma FlatSingle(op: Op)
    ensures Flat([op]) == OpText(op)
  {
    assert [op][..0] == [];
  }

  /** One emitter primitive applied to the output. Lines that were ended
      never change, and the depth moves by exactly `Delta(op)`. */
  function Step(d: Doc, op: Op): (r: Doc)
    ensures r.depth == d.depth + Delta(op)
    ensures d.finished <= r.finished
    ensures op.Phrase? ==> r.finished == d.finished && r.current.indent == d.current.indent
    ensures op.Line? ==> r.Lines() == d.Lines() + [OutputLine(d.depth, op.text)]
  {
    match op
    case Line(t) => Doc(d.finished + [d.current], OutputLine(d.depth, t), d.depth)
    case Phrase(t) => d.(current := d.current.(text := d.current.text + t))
    case Indent => d.(depth := d.depth + 1)
    case Dedent => d.(depth := d.depth - 1)
  }

  /** A run of ops applied to the output, in order. */
  function Exec(d: Doc, ops: seq<Op>): (r: Doc)
    ensures r.depth == d.depth + Net(ops)
    ensures d.finished <= r.finished
  {
    if ops == [] then d else Step(Exec(d, ops[..|ops| - 1]), ops[|ops| - 1])
  }

  lemma {:induction false} NetAppend(a: seq<Op>, b: seq<Op>)
    ensures Net(a + b) == Net(a) + Net(b)
    decreases |b|
  {
    if b == [] {
      assert a + b == a;
    } else {
      var b' := b[..|b| - 1];
      assert (a + b)[..|a + b| - 1] == a + b';
      NetAppend(a, b');
    }
  }

  lemma {:induction false} FlatAppend(a: seq<Op>, b: seq<Op>)
    ensures Flat(a + b) == Flat(a) + Flat(b)
    decreases |b|
  {
    if b == [] {
      assert a + b == a;
    } else {
      var b' := b[..|b| - 1];
      assert (a + b)[..|a + b| - 1] == a + b';
      FlatAppend(a, b');
    }
  }

  lemma {:induction false} ExecAppend(d: Doc, a: seq<Op>, b: seq<Op>)
    ensures Exec(d, a + b) == Exec(Exec(d, a), b)
    decreases |b|
  {
    if b == [] {
      assert a + b == a;
    } else {
      var b' := b[..|b| - 1];
      assert (a + b)[..|a + b| - 1] == a + b';
      ExecAppend(d, a, b');
    }
  }

  lemma ExecSnoc(d: Doc, ops: seq<Op>, op: Op)
    ensures Exec(d, ops + [op]) == Step(Exec(d, ops), op)
  {
    assert (ops + [op])[..|ops|] == ops;
  }

  /** Running two nested runs one after the other is nested. */
  lemma NestedAppend(a: seq<Op>, b: seq<Op>)
    requires Nested(a) && Nested(b)
    ensures Nested(a + b)
    ensures Net(a + b) == Net(a) + Net(b)
  {
    NetAppend(a, b);
    assert Net(a[..|a|]) >= 0 by { assert a[..|a|] == a; }
    assert a[..|a|] == a;
    forall k | 0 <= k <= |a + b|
      ensures Net((a + b)[..k]) >= 0
    {
      if k <= |a| {
        assert (a + b)[..k] == a[..k];
      } else {
        assert (a + b)[..k] == a + b[..k - |a|];
        NetAppend(a, b[..k - |a|]);
      }
    }
  }

  /** A single op that does not lower the depth is nested, and moves the depth
      by its own delta. */
  lemma NestedSingle(op: Op)
    requires Delta(op) >= 0
    ensures Nested([op]) && Net([op]) == Delta(op)
  {
    assert [op][..0] == [];
    assert [op][..1] == [op];
  }

  lemma ConcatAssoc<T>(a: seq<T>, b: seq<T>, c: seq<T>)
    ensures a + b + c == a + (b + c)
  {
  }

  lemma PrefixOfPrefix<T>(s: seq<T>, i: nat, j: nat)
    requires j < i <= |s|
    ensures s[..i][..j] == s[..j] && s[..i][j] == s[j]
  {
  }

  /** Concatenation of effects is associative. */
  lemma ThenAssoc(a: Effect, b: Effect, c: Effect)
    ensures a.Then(b).Then(c) == a.Then(b.Then(c))
  {
    assert (a.ops + b.ops) + c.ops == a.ops + (b.ops + c.ops);
    assert (a.errors + b.errors) + c.errors == a.errors + (b.errors + c.errors);
  }

  /** Writing `a` and then `b` after `h` is writing `a.Then(b)` after it. */
  lemma ThenAfter(h: seq<Op>, errs: seq<Diagnostic>, a: Effect, b: Effect)
    ensures h + a.ops + b.ops == h + a.Then(b).ops
    ensures errs + a.errors + b.errors == errs + a.Then(b).errors
  {
  }

  /** A phrase written only when `c` holds. */
  function PhraseIf(c: bool, text: string): seq<Op>
  {
    if c then [Phrase(text)] else []
  }

  /** The first step of a routine: it wrote `ops` and reported nothing. */
  lemma Started(h0: seq<Op>, e0: seq<Diagnostic>, ops: seq<Op>, h1: seq<Op>)
    requires h1 == h0 + ops
    ensures h1 == h0 + Emit(ops).ops && e0 == e0 + Emit(ops).errors
  {
  }

  /** A routine that had the effect `a` and then wrote `ops` has had the
      effect `a.Then(Emit(ops))`. */
  lemma Wrote(h0: seq<Op>, e0: seq<Diagnostic>, a: Effect, h1: seq<Op>, e1: seq<Diagnostic>, ops: seq<Op>, h2: seq<Op>)
    requires h1 == h0 + a.ops && e1 == e0 + a.errors
    requires h2 == h1 + ops
    ensures h2 == h0 + a.Then(Emit(ops)).ops && e1 == e0 + a.Then(Emit(ops)).errors
  {
  }

  /** A routine that had the effect `a` and then one with the effect `b` has
      had the effect `a.Then(b)`. */
  lemma Compose(
    h0: seq<Op>, e0: seq<Diagnostic>, a: Effect, h1: seq<Op>, e1: seq<Diagnostic>,
    b: Effect, h2: seq<Op>, e2: seq<Diagnostic>)
    requires h1 == h0 + a.ops && e1 == e0 + a.errors
    requires h2 == h1 + b.ops && e2 == e1 + b.errors
    ensures h2 == h0 + a.Then(b).ops && e2 == e0 + a.Then(b).errors
  {
  }

  /** A routine that wrote and reported nothing has had the effect `Emit([])`. */
  lemma Skipped(h0: seq<Op>, e0: seq<Diagnostic>)
    ensures h0 == h0 + Emit([]).ops && e0 == e0 + Emit([]).errors
  {
  }

  /** A record that grew by `a` and then by `b` grew by `a + b`. */
  lemma Grew<T>(x0: seq<T>, a: seq<T>, x1: seq<T>, b: seq<T>, x2: seq<T>)
    requires x1 == x0 + a && x2 == x1 + b
    ensures x2 == x0 + (a + b)
  {
  }

  lemma RightUnit<T>(x: seq<T>)
    ensures x + [] == x
  {
  }

  /** `d` is what the ops `h` make of an empty stream. The count `n` only
      delays the unfolding of `Exec` where the emitter's invariant is merely
      passed on; every count states the same (`ReplaysExec`). */
  ghost predicate Replays(d: Doc, h: seq<Op>, n: nat)
  {
    if n == 0 then d == Exec(EmptyDoc, h) else Replays(d, h, n - 1)
  }

  lemma ReplaysExec(d: Doc, h: seq<Op>)
    ensures Replays(d, h, 3) <==> d == Exec(EmptyDoc, h)
  {
    assert Replays(d, h, 1) == Replays(d, h, 0);
    assert Replays(d, h, 2) == Replays(d, h, 1);
  }

  /** The output stream the generator writes to. The real fields are the
      output itself; `history` records every op written since the stream was
      created, and `Valid` says the output is exactly what those ops make of an
      empty stream. */
  class Emitter {
    var finished: seq<OutputLine>
    var current: OutputLine
    var depth: int
    ghost var history: seq<Op>

    function Output(): Doc
      reads this
    {
      Doc(finished, current, depth)
    }

    /** The output is what the recorded ops make of an empty stream. */
    ghost predicate Valid()
      reads this
    {
      Replays(Output(), history, 3)
    }

    constructor ()
      ensures Valid() && history == [] && Output() == EmptyDoc
    {
      finished, current, depth := [], OutputLine(0, ""), 0;
      history := [];
      ReplaysExec(EmptyDoc, []);
    }

    /** Starts a new line at the current depth. */
    method AddLine(text: string)
      requires Valid()
      modifies this
      ensures Valid() && history == old(history) + [Line(text)]
    {
      finished := finished + [current];
      current := OutputLine(depth, text);
      ReplaysExec(old(Output()), history);
      ExecSnoc(EmptyDoc, history, Line(text));
      ReplaysExec(Output(), history + [Line(text)]);
      history := history + [Line(text)];
    }

    /** Appends to the line being written. */
    method AddPhrase(text: string)
      requires Valid()
      modifies this
      ensures Valid() && history == old(history) + [Phrase(text)]
    {
      current := current.(text := current.text + text);
      ReplaysExec(old(Output()), history);
      ExecSnoc(EmptyDoc, history, Phrase(text));
      ReplaysExec(Output(), history + [Phrase(text)]);
      history := history + [Phrase(text)];
    }

    /** Appends to the line being written when `c` holds. */
    method AddPhraseIf(c: bool, text: string)
      requires Valid()
      modifies this
      ensures Valid() && history == old(history) + PhraseIf(c, text)
    {
      if c {
        AddPhrase(text);
      } else {
        RightUnit(history);
      }
    }

    method IncreaseIndent()
      requires Valid()
      modifies this
      ensures Valid() && history == old(history) + [Indent]
    {
      depth := depth + 1;
      ReplaysExec(old(Output()), history);
      ExecSnoc(EmptyDoc, history, Indent);
      ReplaysExec(Output(), history + [Indent]);
      history := history + [Indent];
    }

    method DecreaseIndent()
      requires Valid()
      modifies this
      ensures Valid() && history == old(history) + [Dedent]
    {
      depth := depth - 1;
      ReplaysExec(old(Output()), history);
      ExecSnoc(EmptyDoc, history, Dedent);
      ReplaysExec(Output(), history + [Dedent]);
      history := history + [Dedent];
    }
  }

  /** The diagnostic sink: it only collects what is reported, in order. */
  class Logger {
    var errors: seq<Diagnostic>

    constructor ()
      ensures errors == []
    {
      errors := [];
    }

    method Error(d: Diagnostic)
      modifies this
      ensures errors == old(errors) + [d]
    {
      errors := errors + [d];
    }
  }

  /** After a routine whose effect is `e`, the output is what the ops of `e`
      make of the output before it. */
  lemma EmittedOutput(before: seq<Op>, e: Effect, d0: Doc)
    requires d0 == Exec(EmptyDoc, before)
    ensures Exec(EmptyDoc, before + e.ops) == Exec(d0, e.ops)
  {
    ExecAppend(EmptyDoc, before, e.ops);
  }
}
