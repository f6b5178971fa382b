/**
 * Concrete extensions emitted with the default configuration and a
 * rendering that spells a type by its name.
 */
module Scenarios {
  import opened Wrappers
  import opened Strings
  import opened Declarations
  import opened Layout
  import opened Guards

  const Names := Rendering(
    (t: TypeReference) => t.name,
    (c: GenericConstraint) => c.name,
    (d: TypeDefinition, omitPublic: bool, level: nat) => "",
    (v: InstanceVariable, isStatic: bool, level: nat) => "",
    (f: FunctionDefinition, omitPublic: bool, isStatic: bool, level: nat) => "")

  function Empty(name: string, isPublic: bool, conformances: seq<TypeReference>): Extension {
    Extension(TypeReference(name), isPublic, conformances, [], None, [], [], [], [], [])
  }

  lemma EmptyExtensionLines(x: Extension, header: string)
    requires x.genericConstraints == [] && x.minimumSwiftVersion == None && x.requiredImports == []
    requires x.typeDefinitions == [] && x.typeVariables == [] && x.typeFunctions == [] && x.functions == []
    requires HeaderText(x, DefaultConfiguration, Names) == header
    ensures ExtensionLines(x, DefaultConfiguration, Names, 0) == [Line(0, header + " {"), Line(0, "}")]
  {
    assert OpeningGuards(x, 0) == [];
    assert AvailabilityLines(x, 0) == [];
    assert BodyLines(x, Names, 1) == [];
    assert ClosingGuards(x, 0) == [];
  }

  lemma RenderBracePair(header: string)
    ensures RenderAll([Line(0, header), Line(0, "}")], DefaultConfiguration) == header + "\n}\n"
  {
    assert [Line(0, header), Line(0, "}")][..1] == [Line(0, header)];
    RenderSingle(Line(0, header), DefaultConfiguration);
    assert Indentation(DefaultConfiguration, 0) == "";
    assert Render(Line(0, header), DefaultConfiguration) == header + "\n";
    assert Render(Line(0, "}"), DefaultConfiguration) == "}\n";
    assert header + "\n" + "}\n" == header + "\n}\n";
  }

  lemma PublicPersonHeader()
    ensures HeaderText(Empty("Person", true, []), DefaultConfiguration, Names) == "public extension Person"
  {
    assert VisibilityPrefix(Empty("Person", true, [])) == "public ";
    assert ConformanceClause(Empty("Person", true, []), DefaultConfiguration, Names) == "";
    assert "public " + "extension " + "Person" + "" == "public extension Person";
  }

  lemma CodablePersonHeader()
    ensures HeaderText(Empty("Person", true, [TypeReference("Codable")]), DefaultConfiguration, Names) == "extension Person : Codable"
  {
    var x := Empty("Person", true, [TypeReference("Codable")]);
    assert VisibilityPrefix(x) == "";
    assert ConformanceClause(x, DefaultConfiguration, Names) == " : Codable";
    assert "" + "extension " + "Person" + " : Codable" == "extension Person : Codable";
  }

  /** A public extension without members. */
  lemma PublicEmptyExtension()
    ensures RenderAll(ExtensionLines(Empty("Person", true, []), DefaultConfiguration, Names, 0), DefaultConfiguration)
         == "public extension Person {\n}\n"
  {
    var x := Empty("Person", true, []);
    PublicPersonHeader();
    EmptyExtensionLines(x, "public extension Person");
    RenderBracePair("public extension Person" + " {");
  }

  /** A conformance drops the `public` keyword. */
  lemma ConformingEmptyExtension()
    ensures RenderAll(ExtensionLines(Empty("Person", true, [TypeReference("Codable")]), DefaultConfiguration, Names, 0), DefaultConfiguration)
         == "extension Person : Codable {\n}\n"
  {
    var x := Empty("Person", true, [TypeReference("Codable")]);
    CodablePersonHeader();
    EmptyExtensionLines(x, "extension Person : Codable");
    RenderBracePair("extension Person : Codable" + " {");
  }

  /** An unfinished line is ended before the extension starts; a finished one is not. */
  lemma UnfinishedLineIsEnded()
    ensures LineBreakBefore("import Foundation", DefaultConfiguration) == "\n"
    ensures LineBreakBefore("import Foundation\n", DefaultConfiguration) == ""
    ensures LineBreakBefore("", DefaultConfiguration) == ""
  {
    assert "import Foundation"[16..] != "\n";
    assert "import Foundation\n"[17..] == "\n";
  }

  /** The version guard spells the version in decimal. */
  lemma SwiftFiveNineCondition()
    ensures SwiftCondition(SwiftVersion(5, 9)) == "swift(>=5.9)"
    ensures IfPrefix + SwiftCondition(SwiftVersion(5, 9)) == "#if swift(>=5.9)"
  {
    assert IntToString(5) == "5";
    assert IntToString(9) == "9";
    assert "swift(>=" + "5" + "." + "9" + ")" == "swift(>=5.9)";
    assert "#if " + "swift(>=5.9)" == "#if swift(>=5.9)";
  }

  /** Two imports are tested in order, joined by ` && `. */
  lemma TwoImportsCondition()
    ensures ImportsCondition(["SQLite3", "_Concurrency"]) == "canImport(SQLite3) && canImport(_Concurrency)"
  {
    var parts := CanImports(["SQLite3", "_Concurrency"]);
    assert parts[0] == "canImport(" + "SQLite3" + ")";
    assert parts[1] == "canImport(" + "_Concurrency" + ")";
    assert "canImport(" + "SQLite3" + ")" == "canImport(SQLite3)";
    assert "canImport(" + "_Concurrency" + ")" == "canImport(_Concurrency)";
    assert parts[1..] == [parts[1]];
    assert "canImport(SQLite3)" + " && " + "canImport(_Concurrency)" == "canImport(SQLite3) && canImport(_Concurrency)";
  }
}
