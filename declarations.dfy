/**
 * The declaration nodes the extension emitter reads, its formatting options,
 * and the members of the generator it calls but that are not modelled here.
 */
module Declarations {
  import opened Wrappers

  /**
   * A reference to a type. How it is spelled in the output is decided by
   * `Rendering.typeName`; the node's own structure is not part of this model.
   */
  datatype TypeReference = TypeReference(name: string)

  /** A `where` requirement; spelled by `Rendering.constraint`. */
  datatype GenericConstraint = GenericConstraint(name: string)

  /** A nested type declaration; emitted by `Rendering.typeDefinition`. */
  datatype TypeDefinition = TypeDefinition(name: string)

  /** A function declaration; emitted by `Rendering.functionDefinition`. */
  datatype FunctionDefinition = FunctionDefinition(name: string)

  /**
   * A variable declaration; emitted by `Rendering.instanceVariable`. The
   * emitter itself only looks at whether it carries a comment.
   */
  datatype InstanceVariable = InstanceVariable(name: string, comment: Option<string>)

  /** The `(major, minor)` pair of `minimumSwiftVersion`. */
  datatype SwiftVersion = SwiftVersion(major: int, minor: int)

  /** An `extension T: P, Q where … { … }` declaration. */
  datatype Extension = Extension(
    extendedType: TypeReference,
    isPublic: bool,
    conformances: seq<TypeReference>,
    genericConstraints: seq<GenericConstraint>,
    minimumSwiftVersion: Option<SwiftVersion>,
    requiredImports: seq<string>,
    typeDefinitions: seq<TypeDefinition>,
    typeVariables: seq<InstanceVariable>,
    typeFunctions: seq<FunctionDefinition>,
    functions: seq<FunctionDefinition>)

  /** What the emitter asserts of its argument: a version gate names Swift 5 or later. */
  predicate ValidExtension(x: Extension) {
    x.minimumSwiftVersion.Some? ==> x.minimumSwiftVersion.value.major >= 5
  }

  /** The formatting options the emitter reads, plus the indentation unit and line end. */
  datatype Configuration = Configuration(
    typeConformanceSeparator: string,
    identifierListSeparator: string,
    indent: string,
    eol: string)

  /**
   * The documented default separators; two spaces and a newline stand for
   * the indentation unit and the line terminator.
   */
  const DefaultConfiguration := Configuration(" : ", ", ", "  ", "\n")

  /**
   * The generator's members that `generateExtension` calls but whose bodies
   * are not part of this model, as pure functions of what they depend on:
   * `string(for:)` on type references and on generic constraints, and the
   * text each nested emitter appends, given its node, its flags and the
   * indentation level it starts at.
   */
  datatype Rendering = Rendering(
    typeName: TypeReference -> string,
    constraint: GenericConstraint -> string,
    typeDefinition: (TypeDefinition, bool, nat) -> string,
    instanceVariable: (InstanceVariable, bool, nat) -> string,
    functionDefinition: (FunctionDefinition, bool, bool, nat) -> string)
}
