/** `getFileIcon` of frontend/src/pages/ProjectDetail.tsx: which icon a file gets in the file list. */
module ProjectDetail {
  import Strings
  import Languages

  datatype FileIcon = CodeIcon | FileTextIcon

  /** The switch on the extension; 'md' and every other case fall to the text icon. */
  function IconForExtension(ext: string): (r: FileIcon)
    ensures r == CodeIcon <==> ext in {"js", "jsx", "ts", "tsx"}
  {
    match ext
    case "js" => CodeIcon
    case "jsx" => CodeIcon
    case "ts" => CodeIcon
    case "tsx" => CodeIcon
    case "md" => FileTextIcon
    case _ => FileTextIcon
  }

  /** `getFileIcon(filename)`: the switch applied to the lower-cased text after the last '.'. */
  function FileIconFor(filename: string): FileIcon
  {
    IconForExtension(Languages.Extension(filename))
  }

  /** A file gets the code icon exactly when the language table calls it JavaScript or TypeScript. */
  lemma CodeIconIffScriptLanguage(filename: string)
    ensures FileIconFor(filename) == CodeIcon
        <==> Languages.LanguageFromPath(filename) in {"javascript", "typescript"}
  {
    Languages.ScriptLanguages(Languages.Extension(filename));
  }

  /** The icon does not depend on the case of the name. */
  lemma IconIgnoresCase(filename: string)
    ensures FileIconFor(Strings.Lower(filename)) == FileIconFor(filename)
  {
    Languages.ExtensionIgnoresCase(filename);
  }

  /** An upper-case TypeScript name gets the code icon. */
  lemma UpperCaseScriptExample()
    ensures FileIconFor("App.TSX") == CodeIcon
  {
    Languages.ExtensionAfterLastDot("App", "TSX");
    assert Strings.Lower("TSX") == "tsx";
  }

  /** A Markdown file and a name ending in '.' get the text icon. */
  lemma TextIconExamples()
    ensures FileIconFor("README.md") == FileTextIcon
    ensures FileIconFor("notes.") == FileTextIcon
  {
    Languages.ExtensionAfterLastDot("README", "md");
    assert Strings.Lower("md") == "md";
    Languages.EmptyExtension("notes.");
  }

  /** A name without a '.' is its own extension, and gets the text icon. */
  lemma NoDotTextIconExample()
    ensures FileIconFor("Makefile") == FileTextIcon
  {
    Strings.LastSegmentWithoutSeparator("Makefile", '.');
    assert Strings.Lower("Makefile") == "makefile";
  }
}
