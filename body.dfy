/**
 * Properties of the extension's body: which blank lines separate the
 * members, and that the nested emitters run in the fixed order nested
 * types, static variables, static functions, functions, each list in its
 * declared order.
 */
module Body {
  import opened Wrappers
  import opened Declarations
  import opened Layout

  /** Each nested type occupies two units: a blank line, then its emitter's text. */
  lemma {:induction false} TypeDefinitionBlockAt(ts: seq<TypeDefinition>, omitPublic: bool, r: Rendering, level: nat, i: nat)
    requires i < |ts|
    ensures |TypeDefinitionBlock(ts, omitPublic, r, level)| == 2 * |ts|
    ensures TypeDefinitionBlock(ts, omitPublic, r, level)[2 * i] == BlankLine(level)
    ensures TypeDefinitionBlock(ts, omitPublic, r, level)[2 * i + 1] == Nested(r.typeDefinition(ts[i], omitPublic, level))
    decreases |ts|
  {
    var n := |ts| - 1;
    var init := ts[..n];
    TypeDefinitionBlockLength(init, omitPublic, r, level);
    if i < n {
      TypeDefinitionBlockAt(init, omitPublic, r, level, i);
    }
  }

  lemma {:induction false} TypeDefinitionBlockLength(ts: seq<TypeDefinition>, omitPublic: bool, r: Rendering, level: nat)
    ensures |TypeDefinitionBlock(ts, omitPublic, r, level)| == 2 * |ts|
    decreases |ts|
  {
    if |ts| > 0 {
      TypeDefinitionBlockLength(ts[..|ts| - 1], omitPublic, r, level);
    }
  }

  lemma {:induction false} FunctionBlockLength(fs: seq<FunctionDefinition>, omitPublic: bool, isStatic: bool, r: Rendering, level: nat)
    ensures |FunctionBlock(fs, omitPublic, isStatic, r, level)| == 2 * |fs|
    decreases |fs|
  {
    if |fs| > 0 {
      FunctionBlockLength(fs[..|fs| - 1], omitPublic, isStatic, r, level);
    }
  }

  /** Each function occupies two units: a blank line, then its emitter's text. */
  lemma {:induction false} FunctionBlockAt(fs: seq<FunctionDefinition>, omitPublic: bool, isStatic: bool, r: Rendering, level: nat, i: nat)
    requires i < |fs|
    ensures |FunctionBlock(fs, omitPublic, isStatic, r, level)| == 2 * |fs|
    ensures FunctionBlock(fs, omitPublic, isStatic, r, level)[2 * i] == BlankLine(level)
    ensures FunctionBlock(fs, omitPublic, isStatic, r, level)[2 * i + 1] == Nested(r.functionDefinition(fs[i], omitPublic, isStatic, level))
    decreases |fs|
  {
    var n := |fs| - 1;
    var init := fs[..n];
    FunctionBlockLength(init, omitPublic, isStatic, r, level);
    if i < n {
      FunctionBlockAt(init, omitPublic, isStatic, r, level, i);
    }
  }

  /** How many of the variables carry a comment. */
  function CommentCount(vs: seq<InstanceVariable>): nat {
    if |vs| == 0 then 0
    else CommentCount(vs[..|vs| - 1]) + if vs[|vs| - 1].comment.Some? then 1 else 0
  }

  /** Where the `i`-th variable's text lands: one extra blank line per commented variable before it. */
  function MemberIndex(vs: seq<InstanceVariable>, i: nat): nat
    requires i <= |vs|
  {
    i + CommentCount(vs[..i])
  }

  function EndsWithComment(vs: seq<InstanceVariable>): bool {
    |vs| > 0 && vs[|vs| - 1].comment.Some?
  }

  /** No blank line follows the last variable, whatever its comment. */
  lemma {:induction false} VariableItemsLength(vs: seq<InstanceVariable>, r: Rendering, level: nat)
    ensures |VariableItems(vs, r, level)| + (if EndsWithComment(vs) then 1 else 0) == |vs| + CommentCount(vs)
    decreases |vs|
  {
    if |vs| > 0 {
      var init := vs[..|vs| - 1];
      VariableItemsLength(init, r, level);
      if |vs| > 1 {
        assert vs[|vs| - 2] == init[|init| - 1];
      }
    }
  }

  /**
   * The `i`-th variable's text sits at `MemberIndex(vs, i)`; right before it
   * is a blank line exactly when the variable before it has a comment, and
   * that variable's text otherwise.
   */
  lemma {:induction false} VariableItemsAt(vs: seq<InstanceVariable>, r: Rendering, level: nat, i: nat)
    requires i < |vs|
    ensures MemberIndex(vs, i) < |VariableItems(vs, r, level)|
    ensures VariableItems(vs, r, level)[MemberIndex(vs, i)] == Nested(r.instanceVariable(vs[i], true, level))
    ensures 0 < i ==> VariableItems(vs, r, level)[MemberIndex(vs, i) - 1]
                      == if vs[i - 1].comment.Some? then BlankLine(level) else Nested(r.instanceVariable(vs[i - 1], true, level))
    decreases |vs|
  {
    var n := |vs| - 1;
    var init := vs[..n];
    assert vs[..i] == init[..i];
    VariableItemsLength(init, r, level);
    if i < n {
      VariableItemsAt(init, r, level, i);
    } else {
      assert init[..i] == init;
      if 0 < i {
        VariableItemsAt(init, r, level, i - 1);
        assert init[..i - 1] == init[..n - 1];
        assert init[i - 1] == vs[i - 1];
      }
    }
  }

  /** The blank line before the `i`-th variable, for `0 < i`, is written exactly when the one before it has a comment. */
  lemma BlankBeforeVariableIff(vs: seq<InstanceVariable>, r: Rendering, level: nat, i: nat)
    requires 0 < i < |vs|
    ensures MemberIndex(vs, i) < |VariableItems(vs, r, level)|
    ensures VariableItems(vs, r, level)[MemberIndex(vs, i) - 1] == BlankLine(level) <==> vs[i - 1].comment.Some?
  {
    VariableItemsAt(vs, r, level, i);
  }

  /** The static variables, when there are any, open with a blank line; the first one follows it directly. */
  lemma VariableBlockOpensWithBlank(vs: seq<InstanceVariable>, r: Rendering, level: nat)
    requires |vs| > 0
    ensures |VariableBlock(vs, r, level)| > 1
    ensures VariableBlock(vs, r, level)[0] == BlankLine(level)
    ensures VariableBlock(vs, r, level)[1] == Nested(r.instanceVariable(vs[0], true, level))
  {
    VariableItemsAt(vs, r, level, 0);
    assert vs[..0] == [];
  }

  /** The body is empty exactly when the extension has no members. */
  lemma EmptyBodyIff(x: Extension, r: Rendering, level: nat)
    ensures BodyLines(x, r, level) == []
            <==> x.typeDefinitions == [] && x.typeVariables == [] && x.typeFunctions == [] && x.functions == []
  {
    TypeDefinitionBlockLength(x.typeDefinitions, x.isPublic, r, level);
    FunctionBlockLength(x.typeFunctions, x.isPublic, true, r, level);
    FunctionBlockLength(x.functions, x.isPublic, false, r, level);
    if x.typeVariables != [] {
      assert |VariableBlock(x.typeVariables, r, level)| > 0;
    }
  }

  /** The nested emitters' texts, in the order they appear. */
  function Outputs(es: seq<Emitted>): seq<string> {
    if |es| == 0 then []
    else Outputs(es[..|es| - 1]) + if es[|es| - 1].Nested? then [es[|es| - 1].output] else []
  }

  lemma {:induction false} OutputsConcat(a: seq<Emitted>, b: seq<Emitted>)
    ensures Outputs(a + b) == Outputs(a) + Outputs(b)
    decreases |b|
  {
    if |b| == 0 {
      assert a + b == a;
    } else {
      var init := b[..|b| - 1];
      assert (a + b)[..|a + b| - 1] == a + init;
      OutputsConcat(a, init);
    }
  }

  lemma OutputsOfBlank(level: nat)
    ensures Outputs([BlankLine(level)]) == []
  {
    assert [BlankLine(level)][..0] == [];
  }

  lemma OutputsOfNested(output: string)
    ensures Outputs([Nested(output)]) == [output]
  {
    assert [Nested(output)][..0] == [];
  }

  /** A blank line followed by a nested emitter's text contributes that text only. */
  lemma OutputsOfPair(level: nat, output: string)
    ensures Outputs([BlankLine(level), Nested(output)]) == [output]
  {
    OutputsConcat([BlankLine(level)], [Nested(output)]);
    assert [BlankLine(level)] + [Nested(output)] == [BlankLine(level), Nested(output)];
    OutputsOfBlank(level);
    OutputsOfNested(output);
  }

  function TypeDefinitionOutputs(ts: seq<TypeDefinition>, omitPublic: bool, r: Rendering, level: nat): seq<string> {
    seq(|ts|, i requires 0 <= i < |ts| => r.typeDefinition(ts[i], omitPublic, level))
  }

  function VariableOutputs(vs: seq<InstanceVariable>, r: Rendering, level: nat): seq<string> {
    seq(|vs|, i requires 0 <= i < |vs| => r.instanceVariable(vs[i], true, level))
  }

  function FunctionOutputs(fs: seq<FunctionDefinition>, omitPublic: bool, isStatic: bool, r: Rendering, level: nat): seq<string> {
    seq(|fs|, i requires 0 <= i < |fs| => r.functionDefinition(fs[i], omitPublic, isStatic, level))
  }

  lemma {:induction false} TypeDefinitionBlockOutputs(ts: seq<TypeDefinition>, omitPublic: bool, r: Rendering, level: nat)
    ensures Outputs(TypeDefinitionBlock(ts, omitPublic, r, level)) == TypeDefinitionOutputs(ts, omitPublic, r, level)
    decreases |ts|
  {
    if |ts| > 0 {
      var init := ts[..|ts| - 1];
      var output := r.typeDefinition(ts[|ts| - 1], omitPublic, level);
      TypeDefinitionBlockOutputs(init, omitPublic, r, level);
      OutputsConcat(TypeDefinitionBlock(init, omitPublic, r, level), [BlankLine(level), Nested(output)]);
      OutputsOfPair(level, output);
      assert TypeDefinitionOutputs(ts, omitPublic, r, level) == TypeDefinitionOutputs(init, omitPublic, r, level) + [output];
    }
  }

  lemma {:induction false} FunctionBlockOutputs(fs: seq<FunctionDefinition>, omitPublic: bool, isStatic: bool, r: Rendering, level: nat)
    ensures Outputs(FunctionBlock(fs, omitPublic, isStatic, r, level)) == FunctionOutputs(fs, omitPublic, isStatic, r, level)
    decreases |fs|
  {
    if |fs| > 0 {
      var init := fs[..|fs| - 1];
      var output := r.functionDefinition(fs[|fs| - 1], omitPublic, isStatic, level);
      FunctionBlockOutputs(init, omitPublic, isStatic, r, level);
      OutputsConcat(FunctionBlock(init, omitPublic, isStatic, r, level), [BlankLine(level), Nested(output)]);
      OutputsOfPair(level, output);
      assert FunctionOutputs(fs, omitPublic, isStatic, r, level) == FunctionOutputs(init, omitPublic, isStatic, r, level) + [output];
    }
  }

  lemma OutputsOfGap(gap: seq<Emitted>, level: nat)
    requires gap == [] || gap == [BlankLine(level)]
    ensures Outputs(gap) == []
  {
    if gap != [] {
      OutputsOfBlank(level);
    }
  }

  lemma {:induction false} VariableItemsOutputs(vs: seq<InstanceVariable>, r: Rendering, level: nat)
    ensures Outputs(VariableItems(vs, r, level)) == VariableOutputs(vs, r, level)
    decreases |vs|
  {
    if |vs| > 0 {
      var init := vs[..|vs| - 1];
      var gap: seq<Emitted> := if |vs| > 1 && vs[|vs| - 2].comment.Some? then [BlankLine(level)] else [];
      var output := r.instanceVariable(vs[|vs| - 1], true, level);
      var front := VariableItems(init, r, level);
      VariableItemsOutputs(init, r, level);
      OutputsConcat(front, gap);
      OutputsConcat(front + gap, [Nested(output)]);
      OutputsOfGap(gap, level);
      OutputsOfNested(output);
      assert VariableOutputs(vs, r, level) == VariableOutputs(init, r, level) + [output];
    }
  }

  lemma VariableBlockOutputs(vs: seq<InstanceVariable>, r: Rendering, level: nat)
    ensures Outputs(VariableBlock(vs, r, level)) == VariableOutputs(vs, r, level)
  {
    var gap: seq<Emitted> := if |vs| > 0 then [BlankLine(level)] else [];
    OutputsConcat(gap, VariableItems(vs, r, level));
    OutputsOfGap(gap, level);
    VariableItemsOutputs(vs, r, level);
  }

  lemma OutputsConcat4(a: seq<Emitted>, b: seq<Emitted>, c: seq<Emitted>, d: seq<Emitted>)
    ensures Outputs(a + b + c + d) == Outputs(a) + Outputs(b) + Outputs(c) + Outputs(d)
  {
    OutputsConcat(a, b);
    OutputsConcat(a + b, c);
    OutputsConcat(a + b + c, d);
  }

  /**
   * The nested emitters run in the fixed order nested types, static
   * variables, static functions, functions, and each list in its own order.
   */
  lemma MembersInOrder(x: Extension, r: Rendering, level: nat)
    ensures Outputs(BodyLines(x, r, level))
         == TypeDefinitionOutputs(x.typeDefinitions, x.isPublic, r, level)
            + VariableOutputs(x.typeVariables, r, level)
            + FunctionOutputs(x.typeFunctions, x.isPublic, true, r, level)
            + FunctionOutputs(x.functions, x.isPublic, false, r, level)
  {
    TypeDefinitionBlockOutputs(x.typeDefinitions, x.isPublic, r, level);
    VariableBlockOutputs(x.typeVariables, r, level);
    FunctionBlockOutputs(x.typeFunctions, x.isPublic, true, r, level);
    FunctionBlockOutputs(x.functions, x.isPublic, false, r, level);
    OutputsConcat4(TypeDefinitionBlock(x.typeDefinitions, x.isPublic, r, level), VariableBlock(x.typeVariables, r, level),
                   FunctionBlock(x.typeFunctions, x.isPublic, true, r, level), FunctionBlock(x.functions, x.isPublic, false, r, level));
  }
}
