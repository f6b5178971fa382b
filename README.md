# Extension emitter of the Lighter code generator, in Dafny

Lighter's code generator builds Swift source text from a small syntax tree.
`CodeGenerator` keeps an append-only `source` buffer and an `indentLevel`
counter. Its `generateExtension(_:)` emits one `extension` declaration. It
writes, in order:

- a `#if swift(>=M.m)` guard when the extension has a minimum Swift version;
- a `#if canImport(A) && canImport(B)` guard when it has required imports;
- the `@available(...)` attribute when `_Concurrency` is among those imports;
- the header, with its optional `public ` and its conformance list;
- an optional `where` clause;
- the members, one level deeper: nested types, static variables, static
  functions, then functions;
- the closing brace and the matching `#endif` lines.

The model has two layers:

- **Generator** (`generator.dfy`): the generator as a class. `source` and
  `indentLevel` are fields, and each buffer primitive and each step of the
  emitter is a method with a `modifies` frame. Every method is proved
  against a text function of the old buffer.
- **Layout** (`layout.dfy`): the reference description of the output, a
  sequence of emitted units (`Line`, `BlankLine`, `Nested`). `RenderAll`
  turns it into text. `Layout.AfterExtensionLayout` ties the emitter's
  output to it.

The properties live in separate modules:

- `guards.dfy`: how the `#if` and `#endif` lines nest.
- `header.dfy`: the header, the brace and the availability attribute.
- `body.dfy`: member order and blank lines.
- `buffer.dfy`: the buffer before and after the call.
- `scenarios.dfy`: concrete outputs.

`strings.dfy` holds the Swift string operations the emitter uses.
`declarations.dfy` holds the syntax nodes and the configuration.

## Model

| member | source | states |
|---|---|---|
| Generator.CodeGenerator.GenerateExtension | Plugins/Libraries/LighterCodeGenAST/Generation/GenExtensions.swift:9-83 | Requires a version gate of Swift 5 or later. Leaves `indentLevel` as it found it. The new buffer is the old one, then a line end only if the old buffer is non-empty and lacks one, then the extension's text. |
| Layout.AfterExtensionLayout | Plugins/Libraries/LighterCodeGenAST/Generation/GenExtensions.swift:9-83 | What the emitter appends equals the line break plus the rendering of the reference layout: guards, availability, header, body one level deeper, `}`, closing guards. |
| Generator.CodeGenerator.WriteOpening | Plugins/Libraries/LighterCodeGenAST/Generation/GenExtensions.swift:12-48 | Appends the guards, the header line and the brace text; the indentation level is unchanged afterwards. |
| Generator.CodeGenerator.WriteOpeningGuards | Plugins/Libraries/LighterCodeGenAST/Generation/GenExtensions.swift:12-23 | Appends the Swift version `#if`, then the imports `#if`, then the availability line, each only when its condition holds. |
| Generator.CodeGenerator.WriteHeaderLine | Plugins/Libraries/LighterCodeGenAST/Generation/GenExtensions.swift:25-34 | Appends the indentation, the optional `public `, `extension `, the type's name and the conformance clause. |
| Generator.CodeGenerator.WriteBrace | Plugins/Libraries/LighterCodeGenAST/Generation/GenExtensions.swift:36-48 | With constraints, appends a line end, the `where` line one level deeper and `{` on its own line. Otherwise appends ` {` and a line end. The level is restored. |
| Generator.CodeGenerator.WriteClosing | Plugins/Libraries/LighterCodeGenAST/Generation/GenExtensions.swift:50-82 | Appends the body at one level deeper, then the brace and `#endif` lines at the original level, which it restores. |
| Generator.CodeGenerator.WriteBody | Plugins/Libraries/LighterCodeGenAST/Generation/GenExtensions.swift:50-74 | Appends the four member blocks in the fixed order; changes only the buffer. |
| Generator.CodeGenerator.WriteTypeDefinitions | Plugins/Libraries/LighterCodeGenAST/Generation/GenExtensions.swift:51-54 | The loop appends a blank line and the nested type's text for each type, in order. |
| Generator.CodeGenerator.WriteTypeVariables | Plugins/Libraries/LighterCodeGenAST/Generation/GenExtensions.swift:56-62 | One blank line if there are variables. After that, each variable's text, preceded by a blank line exactly when the previous one had a comment. |
| Generator.CodeGenerator.WritelnIf | Plugins/Libraries/LighterCodeGenAST/Generation/GenExtensions.swift:57-59 | Appends a blank line exactly when the condition holds. |
| Generator.CodeGenerator.WriteFunctions | Plugins/Libraries/LighterCodeGenAST/Generation/GenExtensions.swift:64-73 | The loop appends a blank line and the function's text for each function, in order, with the static flag passed through. |
| Generator.CodeGenerator.WriteEnd | Plugins/Libraries/LighterCodeGenAST/Generation/GenExtensions.swift:75-82 | Appends the `}` line, then the closing guards. |
| Generator.CodeGenerator.WriteClosingGuards | Plugins/Libraries/LighterCodeGenAST/Generation/GenExtensions.swift:77-82 | Appends `#endif // required canImports` when there are imports, then `#endif // swift(>=M.m)` when there is a version. |
| Generator.CodeGenerator.AppendEOLIfMissing | Plugins/Libraries/LighterCodeGenAST/Generation/GenExtensions.swift:10 | Adds a line end only when the buffer does not already end with one; afterwards it does. |
| Generator.CodeGenerator.Writeln | Plugins/Libraries/LighterCodeGenAST/Generation/GenExtensions.swift:14 | Appends the indentation, the text if any, and a line end. |
| Generator.CodeGenerator.AppendIndent | Plugins/Libraries/LighterCodeGenAST/Generation/GenExtensions.swift:25 | Appends the indentation of the current level. |
| Generator.CodeGenerator.Append | Plugins/Libraries/LighterCodeGenAST/Generation/GenExtensions.swift:26-27 | Appends exactly the given text. |
| Generator.CodeGenerator.AppendEOL | Plugins/Libraries/LighterCodeGenAST/Generation/GenExtensions.swift:39 | Appends the line end. |
| Generator.CodeGenerator.GenerateTypeDefinition | Plugins/Libraries/LighterCodeGenAST/Generation/GenExtensions.swift:53 | Only appends the nested type's text; the level is unchanged. |
| Generator.CodeGenerator.GenerateInstanceVariable | Plugins/Libraries/LighterCodeGenAST/Generation/GenExtensions.swift:60 | Only appends the variable's text; the level is unchanged. |
| Generator.CodeGenerator.GenerateFunctionDefinition | Plugins/Libraries/LighterCodeGenAST/Generation/GenExtensions.swift:66-72 | Only appends the function's text; the level is unchanged. |
| Guards.ScanExtensionBalanced | Plugins/Libraries/LighterCodeGenAST/Generation/GenExtensions.swift:12-82 | Reading the extension's lines as nested guards closes every guard it opens. Every `#endif` names the innermost open condition, and no `#endif` comes without its `#if`. |
| Guards.ScanThroughHeader | Plugins/Libraries/LighterCodeGenAST/Generation/GenExtensions.swift:12-48 | Up to the brace, exactly the extension's guard conditions are open: the version guard outermost, the imports guard inside it. |
| Guards.OpeningGuardsAreIfLines | Plugins/Libraries/LighterCodeGenAST/Generation/GenExtensions.swift:12-19 | The opening guards are one `#if` line per guard condition, outermost first. |
| Guards.ClosingGuardsAreEndifLines | Plugins/Libraries/LighterCodeGenAST/Generation/GenExtensions.swift:77-82 | The closing guards are one `#endif` line per condition, innermost first, each naming its condition. |
| Guards.ScanIfLines | Plugins/Libraries/LighterCodeGenAST/Generation/GenExtensions.swift:14-18 | Reading the `#if` lines pushes their conditions in order. |
| Guards.ScanEndifLines | Plugins/Libraries/LighterCodeGenAST/Generation/GenExtensions.swift:77-82 | Reading the `#endif` lines pops exactly the conditions the `#if` lines pushed. |
| Guards.ImportsConditionStartsWithCanImport | Plugins/Libraries/LighterCodeGenAST/Generation/GenExtensions.swift:17-18 | The imports condition starts with `canImport(`. This is why its `#endif` reads `required canImports`. |
| Guards.BodyLinesNoOwnLines | Plugins/Libraries/LighterCodeGenAST/Generation/GenExtensions.swift:50-74 | The body writes only blank lines and nested emitters' text, never a guard line of its own. |
| Header.PublicKeywordIff | Plugins/Libraries/LighterCodeGenAST/Generation/GenExtensions.swift:26 | The header starts with `public ` if and only if the extension is public and declares no conformance. |
| Header.HeaderNamesExtendedType | Plugins/Libraries/LighterCodeGenAST/Generation/GenExtensions.swift:25-28 | The header starts with the optional keyword, then `extension `, then the extended type's name. |
| Header.NoConformanceNoClause | Plugins/Libraries/LighterCodeGenAST/Generation/GenExtensions.swift:30-34 | Without conformances, nothing follows the type name. |
| Header.SingleConformance | Plugins/Libraries/LighterCodeGenAST/Generation/GenExtensions.swift:31-33 | One conformance directly follows the conformance separator. |
| Header.ConformancesStartWithFirst | Plugins/Libraries/LighterCodeGenAST/Generation/GenExtensions.swift:31-33 | The clause opens with the separator and the first conformance. |
| Header.ConformancesInOrder | Plugins/Libraries/LighterCodeGenAST/Generation/GenExtensions.swift:30-34 | Cutting the conformance list anywhere cuts the clause at one list separator, with earlier conformances before it and later ones after. |
| Header.BraceAfterWhereClause | Plugins/Libraries/LighterCodeGenAST/Generation/GenExtensions.swift:36-44 | With constraints, the header line is bare. The `where` line follows one level deeper, then `{` on its own line at the header's level. |
| Header.BraceOnHeaderLine | Plugins/Libraries/LighterCodeGenAST/Generation/GenExtensions.swift:45-48 | Without constraints, the header line ends with ` {`. |
| Header.ConstraintsInOrder | Plugins/Libraries/LighterCodeGenAST/Generation/GenExtensions.swift:37-41 | The `where` clause lists the constraints in declared order, separated by the list separator. |
| Header.AvailabilityIff | Plugins/Libraries/LighterCodeGenAST/Generation/GenExtensions.swift:21-23 | The availability line is among the emitted lines if and only if `_Concurrency` is a required import. |
| Header.AvailabilityPlacement | Plugins/Libraries/LighterCodeGenAST/Generation/GenExtensions.swift:16-28 | When written, the availability line comes after every `#if` line and immediately before the header line. |
| Header.SwiftGuardPlacement | Plugins/Libraries/LighterCodeGenAST/Generation/GenExtensions.swift:12-82 | With a version, the first line is its `#if` and the last line is its `#endif`, naming the same condition. |
| Header.ImportsGuardPlacement | Plugins/Libraries/LighterCodeGenAST/Generation/GenExtensions.swift:16-79 | With imports, their `#if` comes right after the version `#if`. `#endif // required canImports` comes right before the version's `#endif`, or last when there is no version. |
| Header.SwiftConditionInjective | Plugins/Libraries/LighterCodeGenAST/Generation/GenExtensions.swift:14 | Equal `swift(>=M.m)` texts imply equal major and minor, so the closing remark echoes the version itself. |
| Header.SingleImportCondition | Plugins/Libraries/LighterCodeGenAST/Generation/GenExtensions.swift:17-18 | One import gives `canImport(name)`. |
| Header.ImportsConditionSplit | Plugins/Libraries/LighterCodeGenAST/Generation/GenExtensions.swift:17-18 | The imports are tested in declared order, joined by ` && `. |
| Body.TypeDefinitionBlockAt | Plugins/Libraries/LighterCodeGenAST/Generation/GenExtensions.swift:51-54 | Nested type `i` sits at unit `2i+1`, after a blank line at `2i`; no other units. |
| Body.FunctionBlockAt | Plugins/Libraries/LighterCodeGenAST/Generation/GenExtensions.swift:64-73 | Function `i` sits at unit `2i+1`, after a blank line at `2i`; no other units. |
| Body.VariableItemsAt | Plugins/Libraries/LighterCodeGenAST/Generation/GenExtensions.swift:56-62 | Variable `i` sits after one extra unit per commented variable before it. The unit before it is a blank line if the previous variable has a comment, and otherwise that variable's text. |
| Body.BlankBeforeVariableIff | Plugins/Libraries/LighterCodeGenAST/Generation/GenExtensions.swift:59-61 | A blank line precedes a later variable if and only if the one before it has a comment. |
| Body.VariableItemsLength | Plugins/Libraries/LighterCodeGenAST/Generation/GenExtensions.swift:58-62 | No blank line follows the last variable, whatever its comment. |
| Body.VariableBlockOpensWithBlank | Plugins/Libraries/LighterCodeGenAST/Generation/GenExtensions.swift:57-60 | Non-empty static variables open with one blank line, and the first variable follows it directly. |
| Body.EmptyBodyIff | Plugins/Libraries/LighterCodeGenAST/Generation/GenExtensions.swift:50-74 | The body is empty if and only if all four member lists are empty. |
| Body.MembersInOrder | Plugins/Libraries/LighterCodeGenAST/Generation/GenExtensions.swift:50-74 | The nested emitters' texts appear as nested types, static variables, static functions, then functions, each list in declared order. |
| Buffer.AfterLineBreak | Plugins/Libraries/LighterCodeGenAST/Generation/GenExtensions.swift:10 | After the initial line break, the buffer is empty or ends with a line end. |
| Buffer.LineBreakIdempotent | Plugins/Libraries/LighterCodeGenAST/Generation/GenExtensions.swift:10 | Adding the missing line end a second time adds nothing. |
| Buffer.AfterExtensionExtends | Plugins/Libraries/LighterCodeGenAST/Generation/GenExtensions.swift:9-83 | The old buffer is a prefix of the new one. |
| Buffer.AfterExtensionEndsLine | Plugins/Libraries/LighterCodeGenAST/Generation/GenExtensions.swift:75-82 | The emitted extension ends with a line end. |
| Buffer.BackToBack | Plugins/Libraries/LighterCodeGenAST/Generation/GenExtensions.swift:10 | A second extension emitted right after the first adds no extra line end. |
| Strings.JoinedSplit | Plugins/Libraries/LighterCodeGenAST/Generation/GenExtensions.swift:32-33 | Cutting a joined list anywhere cuts the text at exactly one separator. |
| Strings.ParseIntRoundTrip | Plugins/Libraries/LighterCodeGenAST/Generation/GenExtensions.swift:14 | The decimal text of an integer reads back as that integer. |
| Scenarios.PublicEmptyExtension | Plugins/Libraries/LighterCodeGenAST/Generation/GenExtensions.swift:25-48 | A public extension `Person` without members renders as `public extension Person {`, a line end, `}`, a line end. |
| Scenarios.ConformingEmptyExtension | Plugins/Libraries/LighterCodeGenAST/Generation/GenExtensions.swift:26-34 | Adding the conformance `Codable` drops `public` and gives `extension Person : Codable {`. |
| Scenarios.UnfinishedLineIsEnded | Plugins/Libraries/LighterCodeGenAST/Generation/GenExtensions.swift:10 | An unfinished line is ended first; a finished line or an empty buffer gets nothing. |
| Scenarios.SwiftFiveNineCondition | Plugins/Libraries/LighterCodeGenAST/Generation/GenExtensions.swift:14 | Version 5.9 gives `#if swift(>=5.9)`. |
| Scenarios.TwoImportsCondition | Plugins/Libraries/LighterCodeGenAST/Generation/GenExtensions.swift:17-18 | Two imports give `canImport(SQLite3) && canImport(_Concurrency)`. |

## Left out

- `Sources/Lighter/Utilities/SQLError.swift`: it builds error values from SQLite's C API. It is not part of the extension emitter, so it is not modelled.
- The generator's own source (`CodeGenerator.swift`) is not part of this model. The buffer primitives follow their documented behaviour. In particular, `writeln()` with no text writes the indentation and then a line end.
- The nested emitters (`generateTypeDefinition`, `generateInstanceVariable`, `generateFunctionDefinition`) and `string(for:)` are not modelled as code. They are the fields of `Rendering`: pure functions of the node, its flags and the starting indentation level. The emitter methods only append their text and leave the level unchanged.
- If nested output contained its own `#if` lines, the guard reading in `Guards` would not check them. It treats nested output as opaque text and checks only the lines `generateExtension` writes itself.
- Whether a compiler accepts the guards, and what `#if` evaluates to, is outside the generator and not modelled.
- Concurrency and `Sendable` conformance of the generator are not modelled; the model is sequential.
- The indentation unit and the line terminator are fields of `Configuration`. `DefaultConfiguration` uses two spaces and `\n`; the exact strings the generator uses are not part of this model.
- Generator.CodeGenerator.GenerateExtension: the Swift `assert(major >= 5)` is modelled as a precondition. An optimized build does not check it and would write a smaller version as given.
- Generator.CodeGenerator.WriteClosing: the scoped `indent { … }` is modelled as an increment before the block and a decrement after it. The model has no failure exit from the block, so the level is restored on the only path there is.
- Generator.CodeGenerator.AppendEOLIfMissing: adds one line end when the buffer lacks one. It does not collapse several trailing line ends into one.
- Swift's `Int` is modelled as an unbounded integer; 64-bit limits are not modelled.
