/**
 * The starter programs the editor loads for each language
 * (client/src/utils/boilerplate.ts). Each one defines `greet`, which builds
 * a greeting from "Hello, ", and prints `greet("World")`. The texts are
 * written as pieces around those two fragments so the lemmas can point at
 * them.
 */
module Boilerplate {
  import opened Options
  import opened Strings
  import opened Types
  import DockerRunner

  const Hello: string := "Hello, "
  const GreetCall: string := "greet(\"World\")"

  /** The Java program's first line, which precedes its class declaration. */
  const JavaBanner: string := "// Java - Welcome to CodeLinka!\n"

  /** The text before the greeting literal. */
  function Head(l: Language): string {
    match l
    case JavaScript =>
      "// JavaScript - Welcome to CodeLinka!\n"
      + "function greet(name) {\n"
      + "  return `"
    case Python =>
      "# Python - Welcome to CodeLinka!\n"
      + "def greet(name):\n"
      + "    return f\""
    case Cpp =>
      "// C++ - Welcome to CodeLinka!\n"
      + "#include <iostream>\n"
      + "#include <string>\n"
      + "\n"
      + "std::string greet(const std::string& name) {\n"
      + "    return \""
    case Java =>
      JavaBanner + "public class " + "Main" + JavaHead
  }

  /** The Java text between the class name and the greeting literal. */
  const JavaHead: string :=
    " {\n"
    + "    public static String greet(String name) {\n"
    + "        return \""

  /** The text between the greeting literal and the call. */
  function Middle(l: Language): string {
    match l
    case JavaScript =>
      "${name}!`;\n"
      + "}\n"
      + "\n"
      + "console.log("
    case Python =>
      "{name}!\"\n"
      + "\n"
      + "print("
    case Cpp =>
      "\" + name + \"!\";\n"
      + "}\n"
      + "\n"
      + "int main() {\n"
      + "    std::cout << "
    case Java =>
      "\" + name + \"!\";\n"
      + "    }\n"
      + "\n"
      + "    public static void main(String[] args) {\n"
      + "        System.out.println("
  }

  /** The text after the call, up to and including the final newline. */
  function Tail(l: Language): string {
    match l
    case JavaScript => ");\n"
    case Python => ")\n"
    case Cpp =>
      " << std::endl;\n"
      + "    return 0;\n"
      + "}\n"
    case Java =>
      ");\n"
      + "    }\n"
      + "}\n"
  }

  /** BOILERPLATE_CODE[l]. */
  function Template(l: Language): string {
    Head(l) + Hello + Middle(l) + GreetCall + Tail(l)
  }

  /** getBoilerplate: the table entry, or "" for an identifier the table
      does not have. */
  function GetBoilerplate(id: string): (code: string)
    ensures code != "" <==> FromId(id).Some?
    ensures FromId(id).Some? ==> code == Template(FromId(id).value)
  {
    match FromId(id)
    case Some(l) => Template(l)
    case None => ""
  }

  /** Every registered language finds its own, non-empty template. */
  lemma BoilerplateOfLanguage(l: Language)
    ensures GetBoilerplate(l.Id()) == Template(l) != ""
  {
    RegistryKeys(l, l);
  }

  /** `p` occurs somewhere in `s`. */
  ghost predicate Contains(s: string, p: string) {
    exists i :: OccursAt(s, p, i)
  }

  /** Every starter program ends with a newline. */
  lemma TemplateEndsWithNewline(l: Language)
    ensures EndsWith(Template(l), "\n")
  {
    var tail := Tail(l);
    assert tail[|tail| - 1] == '\n';
    EndsWithLast(Head(l) + Hello + Middle(l) + GreetCall, tail);
  }

  lemma EndsWithLast(front: string, tail: string)
    requires tail != [] && tail[|tail| - 1] == '\n'
    ensures EndsWith(front + tail, "\n")
  {
    var t := front + tail;
    assert t[|t| - 1] == '\n';
    assert t[|t| - 1..] == "\n";
  }

  /** Every starter program builds its greeting from "Hello, " and calls
      `greet("World")`, the greeting before the call. */
  lemma TemplateGreetsWorld(l: Language)
    ensures Contains(Template(l), Hello) && Contains(Template(l), GreetCall)
    ensures OccursAt(Template(l), Hello, |Head(l)|)
    ensures OccursAt(Template(l), GreetCall, |Head(l) + Hello + Middle(l)|)
  {
    Around(Head(l), Hello, Middle(l) + GreetCall + Tail(l));
    Around(Head(l) + Hello + Middle(l), GreetCall, Tail(l));
    Regroup(Head(l), Hello, Middle(l), GreetCall, Tail(l));
  }

  lemma Around(x: string, p: string, y: string)
    ensures OccursAt(x + p + y, p, |x|)
  {
    assert (x + p + y)[|x|..|x| + |p|] == p;
  }

  lemma Regroup(a: string, b: string, c: string, d: string, e: string)
    ensures a + b + c + d + e == a + b + (c + d + e)
  {
  }

  /** The Java starter declares `public class Main`, so the sandbox writes it
      to Main.java, the registry's own file name, and runs the registry's
      own commands. */
  lemma JavaTemplateRunsMain()
    ensures DockerRunner.ClassName(Template(Java)) == Some("Main")
    ensures DockerRunner.SourceFileName(Java, Template(Java)) == Config(Java).fileName
    ensures DockerRunner.ShellCommand(Java, DockerRunner.SourceFileName(Java, Template(Java)))
      == DockerRunner.RegistryCommand(Config(Java))
  {
    JavaTemplateDeclaresMain();
    DockerRunner.JavaRunsDeclaredClass(Template(Java));
    DockerRunner.JavaMainCommand();
    DockerRunner.MainLiterals();
  }

  lemma JavaTemplateDeclaresMain()
    ensures DockerRunner.ClassName(Template(Java)) == Some("Main")
  {
    JavaShape();
    JavaDeclarationParts();
    DockerRunner.FirstDeclarationNamesClass(JavaBanner, "Main", JavaPost());
  }

  /** The banner cannot start a declaration and the class name is a word. */
  lemma JavaDeclarationParts()
    ensures 'p' !in JavaBanner && DockerRunner.IsWord("Main")
  {
    assert forall k :: 0 <= k < |JavaBanner| ==> JavaBanner[k] != 'p';
  }

  /** The Java text after the class name. */
  function JavaPost(): string {
    JavaHead + Hello + Middle(Java) + GreetCall + Tail(Java)
  }

  lemma JavaShape()
    ensures Template(Java) == JavaBanner + "public class " + "Main" + JavaPost()
    ensures JavaPost() != [] && JavaPost()[0] == ' '
  {
    Regroup(JavaBanner + "public class " + "Main", JavaHead, Hello, Middle(Java), GreetCall + Tail(Java));
  }
}
