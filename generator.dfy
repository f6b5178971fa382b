/**
 * The code generator: an append-only source buffer and an indentation
 * counter, the buffer primitives, and the extension emitter.
 */
module Generator {
  import opened Wrappers
  import opened Strings
  import opened Declarations
  import opened Layout

  class CodeGenerator {
    const configuration: Configuration
    const rendering: Rendering
    var source: string
    var indentLevel: nat

    constructor (configuration: Configuration, rendering: Rendering)
      ensures this.configuration == configuration && this.rendering == rendering
      ensures source == "" && indentLevel == 0
    {
      this.configuration := configuration;
      this.rendering := rendering;
      source := "";
      indentLevel := 0;
    }

    method Append(s: string)
      modifies this`source
      ensures source == old(source) + s
    {
      source := source + s;
    }

    method AppendEOL()
      modifies this`source
      ensures source == old(source) + configuration.eol
    {
      Append(configuration.eol);
    }

    method AppendIndent()
      modifies this`source
      ensures source == old(source) + Indentation(configuration, indentLevel)
    {
      Append(Indentation(configuration, indentLevel));
    }

    /** `writeln(s)`, or `writeln()` for `None`. */
    method Writeln(s: Option<string>)
      modifies this`source
      ensures source == old(source) + Render(if s.Some? then Line(indentLevel, s.value) else BlankLine(indentLevel), configuration)
    {
      AppendIndent();
      if s.Some? {
        Append(s.value);
      }
      AppendEOL();
    }

    /** Adds a line end unless the buffer already ends with one. */
    method AppendEOLIfMissing()
      modifies this`source
      ensures source == old(source) + (if EndsWith(old(source), configuration.eol) then "" else configuration.eol)
      ensures EndsWith(source, configuration.eol)
    {
      if !EndsWith(source, configuration.eol) {
        AppendEOL();
      }
    }

    /** `generateTypeDefinition(t, omitPublic:)` */
    method GenerateTypeDefinition(t: TypeDefinition, omitPublic: bool)
      modifies this`source
      ensures source == old(source) + rendering.typeDefinition(t, omitPublic, indentLevel)
    {
      Append(rendering.typeDefinition(t, omitPublic, indentLevel));
    }

    /** `generateInstanceVariable(v, static:)` */
    method GenerateInstanceVariable(v: InstanceVariable, isStatic: bool)
      modifies this`source
      ensures source == old(source) + rendering.instanceVariable(v, isStatic, indentLevel)
    {
      Append(rendering.instanceVariable(v, isStatic, indentLevel));
    }

    /** `generateFunctionDefinition(f, omitPublic:, static:)` */
    method GenerateFunctionDefinition(f: FunctionDefinition, omitPublic: bool, isStatic: bool)
      modifies this`source
      ensures source == old(source) + rendering.functionDefinition(f, omitPublic, isStatic, indentLevel)
    {
      Append(rendering.functionDefinition(f, omitPublic, isStatic, indentLevel));
    }

    /**
     * `generateExtension(x)`: appends the extension's text, on a fresh line,
     * and leaves the indentation level as it found it. Each step of the
     * emitter is one of the methods below.
     */
    method GenerateExtension(x: Extension)
      requires ValidExtension(x)
      modifies this`source, this`indentLevel
      ensures indentLevel == old(indentLevel)
      ensures source == AfterExtension(old(source), x, configuration, rendering, old(indentLevel))
    {
      ghost var s0 := source;
      if |source| > 0 {
        AppendEOLIfMissing();
      }
      assert source == s0 + LineBreakBefore(s0, configuration);
      WriteOpening(x);
      WriteClosing(x);
    }

    /** Lines 12-48: the guards, the header and the opening brace. */
    method WriteOpening(x: Extension)
      modifies this`source, this`indentLevel
      ensures indentLevel == old(indentLevel)
      ensures source == old(source) + OpeningText(x, configuration, rendering, indentLevel)
    {
      ghost var s0 := source;
      WriteOpeningGuards(x);
      WriteHeaderLine(x);
      WriteBrace(x);
      Associate(s0, OpeningGuardsText(x, configuration, indentLevel), HeaderLineText(x, configuration, rendering, indentLevel),
                BraceText(x, configuration, rendering, indentLevel));
    }

    /** Lines 50-82: the members, one level deeper, the closing brace and the `#endif` lines. */
    method WriteClosing(x: Extension)
      modifies this`source, this`indentLevel
      ensures indentLevel == old(indentLevel)
      ensures source == old(source) + ClosingText(x, configuration, rendering, indentLevel)
    {
      ghost var s0 := source;
      indentLevel := indentLevel + 1;
      ghost var inner := indentLevel;
      WriteBody(x);
      indentLevel := indentLevel - 1;
      WriteEnd(x);
      assert inner == indentLevel + 1;
      AppendAssoc(s0, BodyText(x, configuration, rendering, inner), EndText(x, configuration, indentLevel));
    }

    /** Lines 75-82: the closing brace and the `#endif` lines. */
    method WriteEnd(x: Extension)
      modifies this`source
      ensures source == old(source) + EndText(x, configuration, indentLevel)
    {
      ghost var s0 := source;
      Writeln(Some("}"));
      WriteClosingGuards(x);
      AppendAssoc(s0, Render(Line(indentLevel, "}"), configuration), ClosingGuardsText(x, configuration, indentLevel));
    }

    /** Lines 12-23: the `#if` guards and the availability line. */
    method WriteOpeningGuards(x: Extension)
      modifies this`source
      ensures source == old(source) + OpeningGuardsText(x, configuration, indentLevel)
    {
      ghost var s0 := source;
      if x.minimumSwiftVersion.Some? {
        var version := x.minimumSwiftVersion.value;
        Writeln(Some("#if " + SwiftCondition(version)));
      }
      ghost var s1 := source;
      assert s1 == s0 + SwiftGuardText(x, configuration, indentLevel);
      if |x.requiredImports| > 0 {
        Writeln(Some("#if " + ImportsCondition(x.requiredImports)));
      }
      ghost var s2 := source;
      assert s2 == s1 + ImportsGuardText(x, configuration, indentLevel);
      if ConcurrencyModule in x.requiredImports {
        Writeln(Some(AvailabilityAttribute));
      }
      assert source == s2 + AvailabilityText(x, configuration, indentLevel);
      Associate(s0, SwiftGuardText(x, configuration, indentLevel), ImportsGuardText(x, configuration, indentLevel),
                AvailabilityText(x, configuration, indentLevel));
    }

    /** Lines 25-34: the header up to the conformance list. */
    method WriteHeaderLine(x: Extension)
      modifies this`source
      ensures source == old(source) + HeaderLineText(x, configuration, rendering, indentLevel)
    {
      ghost var s0 := source;
      AppendIndent();
      ghost var s1 := source;
      if x.isPublic && |x.conformances| == 0 {
        Append(PublicKeyword);
      }
      assert source == s1 + VisibilityPrefix(x);
      Append(ExtensionKeyword);
      Append(rendering.typeName(x.extendedType));
      ghost var s2 := source;
      if |x.conformances| > 0 {
        Append(configuration.typeConformanceSeparator);
        var names := Joined(TypeNames(rendering, x.conformances), configuration.identifierListSeparator);
        Append(names);
        AppendAssoc(s2, configuration.typeConformanceSeparator, names);
      }
      Associate5(s0, Indentation(configuration, indentLevel), VisibilityPrefix(x), ExtensionKeyword,
                 rendering.typeName(x.extendedType), ConformanceClause(x, configuration, rendering));
    }

    /** Lines 36-48: the `where` clause on its own line and `{`, or ` {`. */
    method WriteBrace(x: Extension)
      modifies this`source, this`indentLevel
      ensures indentLevel == old(indentLevel)
      ensures source == old(source) + BraceText(x, configuration, rendering, indentLevel)
    {
      ghost var s0 := source;
      if |x.genericConstraints| > 0 {
        var constraints := Joined(ConstraintNames(rendering, x.genericConstraints), configuration.identifierListSeparator);
        AppendEOL();
        indentLevel := indentLevel + 1;
        ghost var inner := indentLevel;
        Writeln(Some("where " + constraints));
        indentLevel := indentLevel - 1;
        assert inner == indentLevel + 1;
        Writeln(Some("{"));
        Associate(s0, configuration.eol, Render(Line(inner, WhereClause(x, configuration, rendering)), configuration),
                  Render(Line(indentLevel, "{"), configuration));
      } else {
        Append(" {");
        AppendEOL();
        AppendAssoc(s0, " {", configuration.eol);
      }
    }

    /** Lines 50-74: the members, at the current indentation level. */
    method WriteBody(x: Extension)
      modifies this`source
      ensures source == old(source) + BodyText(x, configuration, rendering, indentLevel)
    {
      ghost var s0 := source;
      WriteTypeDefinitions(x.typeDefinitions, x.isPublic);
      WriteTypeVariables(x.typeVariables);
      WriteFunctions(x.typeFunctions, x.isPublic, true);
      WriteFunctions(x.functions, x.isPublic, false);
      ghost var a := RenderAll(TypeDefinitionBlock(x.typeDefinitions, x.isPublic, rendering, indentLevel), configuration);
      ghost var b := RenderAll(VariableBlock(x.typeVariables, rendering, indentLevel), configuration);
      ghost var c := RenderAll(FunctionBlock(x.typeFunctions, x.isPublic, true, rendering, indentLevel), configuration);
      ghost var d := RenderAll(FunctionBlock(x.functions, x.isPublic, false, rendering, indentLevel), configuration);
      Associate(s0, a, b, c);
      AppendAssoc(s0, a + b + c, d);
    }

    /** Lines 51-54. */
    method WriteTypeDefinitions(types: seq<TypeDefinition>, omitPublic: bool)
      modifies this`source
      ensures source == old(source) + RenderAll(TypeDefinitionBlock(types, omitPublic, rendering, indentLevel), configuration)
    {
      ghost var start := source;
      for i := 0 to |types|
        invariant source == start + RenderAll(TypeDefinitionBlock(types[..i], omitPublic, rendering, indentLevel), configuration)
      {
        Writeln(None);
        GenerateTypeDefinition(types[i], omitPublic);
        TypeDefinitionBlockStep(types, i, omitPublic, rendering, indentLevel, configuration);
        Associate(start, RenderAll(TypeDefinitionBlock(types[..i], omitPublic, rendering, indentLevel), configuration),
                  Render(BlankLine(indentLevel), configuration), rendering.typeDefinition(types[i], omitPublic, indentLevel));
      }
      assert types[..|types|] == types;
    }

    /** Lines 56-62: `lastHadComment` remembers whether the previous variable had a comment. */
    method WriteTypeVariables(variables: seq<InstanceVariable>)
      modifies this`source
      ensures source == old(source) + RenderAll(VariableBlock(variables, rendering, indentLevel), configuration)
    {
      ghost var s0 := source;
      var lastHadComment := false;
      WritelnIf(|variables| > 0);
      ghost var start := source;
      for i := 0 to |variables|
        invariant lastHadComment == (i > 0 && variables[i - 1].comment.Some?)
        invariant source == start + RenderAll(VariableItems(variables[..i], rendering, indentLevel), configuration)
      {
        WritelnIf(lastHadComment);
        GenerateInstanceVariable(variables[i], true);
        lastHadComment := variables[i].comment.Some?;
        VariableItemsStep(variables, i, rendering, indentLevel, configuration);
        Associate(start, RenderAll(VariableItems(variables[..i], rendering, indentLevel), configuration),
                  SpacingText(variables, i, configuration, indentLevel), rendering.instanceVariable(variables[i], true, indentLevel));
      }
      assert variables[..|variables|] == variables;
      VariableBlockText(variables, rendering, indentLevel, configuration);
      AppendAssoc(s0, if |variables| > 0 then Render(BlankLine(indentLevel), configuration) else "",
                  RenderAll(VariableItems(variables, rendering, indentLevel), configuration));
    }

    /** `if condition { writeln() }` */
    method WritelnIf(condition: bool)
      modifies this`source
      ensures source == old(source) + (if condition then Render(BlankLine(indentLevel), configuration) else "")
    {
      if condition {
        Writeln(None);
      }
    }

    /** Lines 64-73: static functions (`isStatic`) or instance functions. */
    method WriteFunctions(functions: seq<FunctionDefinition>, omitPublic: bool, isStatic: bool)
      modifies this`source
      ensures source == old(source) + RenderAll(FunctionBlock(functions, omitPublic, isStatic, rendering, indentLevel), configuration)
    {
      ghost var start := source;
      for i := 0 to |functions|
        invariant source == start + RenderAll(FunctionBlock(functions[..i], omitPublic, isStatic, rendering, indentLevel), configuration)
      {
        Writeln(None);
        GenerateFunctionDefinition(functions[i], omitPublic, isStatic);
        FunctionBlockStep(functions, i, omitPublic, isStatic, rendering, indentLevel, configuration);
        Associate(start, RenderAll(FunctionBlock(functions[..i], omitPublic, isStatic, rendering, indentLevel), configuration),
                  Render(BlankLine(indentLevel), configuration),
                  rendering.functionDefinition(functions[i], omitPublic, isStatic, indentLevel));
      }
      assert functions[..|functions|] == functions;
    }

    /** Lines 77-82: the `#endif` lines, innermost first. */
    method WriteClosingGuards(x: Extension)
      modifies this`source
      ensures source == old(source) + ClosingGuardsText(x, configuration, indentLevel)
    {
      ghost var s0 := source;
      if |x.requiredImports| > 0 {
        Writeln(Some(ImportsEndif));
      }
      ghost var s1 := source;
      assert s1 == s0 + (if |x.requiredImports| > 0 then Render(Line(indentLevel, ImportsEndif), configuration) else "");
      if x.minimumSwiftVersion.Some? {
        var version := x.minimumSwiftVersion.value;
        Writeln(Some("#endif // " + SwiftCondition(version)));
      }
      assert source == s1 + (if x.minimumSwiftVersion.Some? then Render(Line(indentLevel, "#endif // " + SwiftCondition(x.minimumSwiftVersion.value)), configuration) else "");
      AppendAssoc(s0, if |x.requiredImports| > 0 then Render(Line(indentLevel, ImportsEndif), configuration) else "",
                  if x.minimumSwiftVersion.Some? then Render(Line(indentLevel, "#endif // " + SwiftCondition(x.minimumSwiftVersion.value)), configuration) else "");
    }
  }
}
