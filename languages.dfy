/**
 * The extension -> language table. The source keeps three copies of it: the REST routes
 * (`getLanguageFromPath` in backend/src/routes/projects.ts), the socket service (the same
 * helper in backend/src/services/socketService.ts) and the editor page (`getLanguageFromFile`
 * in frontend/src/pages/Editor.tsx). Each copy is transcribed here as its own finite table,
 * and `CopiesAgree` proves that the three lookups give the same answer for every path.
 */
module Languages {
  import opened Wrappers
  import Strings

  const PlainText := "plaintext"

  /** `path.split('.').pop()?.toLowerCase()`: the text after the last '.', lower-cased. */
  function Extension(path: string): (r: string)
    ensures |r| <= |path|
    ensures '.' !in r
  {
    Strings.Lower(Strings.LastSegment(path, '.'))
  }

  /** The table of backend/src/routes/projects.ts; `None` where the table has no entry. */
  function RouteTable(ext: string): Option<string>
  {
    match ext
    case "js" => Some("javascript") case "jsx" => Some("javascript")
    case "ts" => Some("typescript") case "tsx" => Some("typescript")
    case "py" => Some("python") case "java" => Some("java") case "cpp" => Some("cpp")
    case "c" => Some("c") case "cs" => Some("csharp") case "go" => Some("go")
    case "rs" => Some("rust") case "php" => Some("php") case "rb" => Some("ruby")
    case "html" => Some("html") case "css" => Some("css") case "scss" => Some("scss")
    case "json" => Some("json") case "xml" => Some("xml") case "yaml" => Some("yaml")
    case "yml" => Some("yaml") case "md" => Some("markdown") case "sql" => Some("sql")
    case _ => None
  }

  /** The table of backend/src/services/socketService.ts. */
  function SocketTable(ext: string): Option<string>
  {
    match ext
    case "js" => Some("javascript") case "jsx" => Some("javascript")
    case "ts" => Some("typescript") case "tsx" => Some("typescript")
    case "py" => Some("python") case "java" => Some("java") case "cpp" => Some("cpp")
    case "c" => Some("c") case "cs" => Some("csharp") case "go" => Some("go")
    case "rs" => Some("rust") case "php" => Some("php") case "rb" => Some("ruby")
    case "html" => Some("html") case "css" => Some("css") case "scss" => Some("scss")
    case "json" => Some("json") case "xml" => Some("xml") case "yaml" => Some("yaml")
    case "yml" => Some("yaml") case "md" => Some("markdown") case "sql" => Some("sql")
    case _ => None
  }

  /** The table of frontend/src/pages/Editor.tsx. */
  function EditorTable(ext: string): Option<string>
  {
    match ext
    case "js" => Some("javascript") case "jsx" => Some("javascript")
    case "ts" => Some("typescript") case "tsx" => Some("typescript")
    case "py" => Some("python") case "java" => Some("java") case "cpp" => Some("cpp")
    case "c" => Some("c") case "cs" => Some("csharp") case "go" => Some("go")
    case "rs" => Some("rust") case "php" => Some("php") case "rb" => Some("ruby")
    case "html" => Some("html") case "css" => Some("css") case "scss" => Some("scss")
    case "json" => Some("json") case "xml" => Some("xml") case "yaml" => Some("yaml")
    case "yml" => Some("yaml") case "md" => Some("markdown") case "sql" => Some("sql")
    case _ => None
  }

  /**
   * `languageMap[ext] || 'plaintext'` on the REST routes' table. No table value is
   * "plaintext", so the result is plain text exactly for the extensions the table lacks.
   */
  function RouteLanguage(ext: string): (r: string)
    ensures r == PlainText <==> RouteTable(ext) == None
    ensures r != PlainText ==> RouteTable(ext) == Some(r)
  {
    RouteTable(ext).GetOr(PlainText)
  }

  /** The same lookup on the socket service's table. */
  function SocketLanguage(ext: string): (r: string)
    ensures r == PlainText <==> SocketTable(ext) == None
  {
    SocketTable(ext).GetOr(PlainText)
  }

  /** The same lookup on the editor page's table. */
  function EditorLanguage(ext: string): (r: string)
    ensures r == PlainText <==> EditorTable(ext) == None
  {
    EditorTable(ext).GetOr(PlainText)
  }

  /** `getLanguageFromPath` of the REST routes. */
  function LanguageFromPath(path: string): string
  {
    RouteLanguage(Extension(path))
  }

  /** `getLanguageFromPath` of the socket service. */
  function SocketLanguageFromPath(path: string): string
  {
    SocketLanguage(Extension(path))
  }

  /** `getLanguageFromFile` of the editor page. */
  function EditorLanguageFromFile(filename: string): string
  {
    EditorLanguage(Extension(filename))
  }

  /** The three copies of the table give the same language for every path. */
  lemma CopiesAgree(path: string)
    ensures LanguageFromPath(path) == SocketLanguageFromPath(path) == EditorLanguageFromFile(path)
  {
    var ext := Extension(path);
    assert RouteLanguage(ext) == SocketLanguage(ext) == EditorLanguage(ext);
  }

  /** Only the four script extensions map to JavaScript or TypeScript. */
  lemma ScriptLanguages(ext: string)
    ensures RouteTable(ext) in {Some("javascript"), Some("typescript")}
        <==> ext in {"js", "jsx", "ts", "tsx"}
  {
  }

  /** A name ending in `.ext` (no further '.') has the lower-cased `ext` as its extension. */
  lemma ExtensionAfterLastDot(prefix: string, ext: string)
    requires '.' !in ext
    ensures Extension(prefix + "." + ext) == Strings.Lower(ext)
  {
    var s := prefix + "." + ext;
    assert s[|s| - |ext|..] == ext;
    Strings.LastSegmentUnique(s, '.', ext);
  }

  /** The extension never depends on the case of the name. */
  lemma ExtensionIgnoresCase(path: string)
    ensures Extension(Strings.Lower(path)) == Extension(path)
  {
    var a := Strings.LastSegment(path, '.');
    var lp := Strings.Lower(path);
    // '.' is not an upper-case letter, so lower-casing keeps every '.' where it was.
    assert Strings.Lower(a) == lp[|lp| - |a|..];
    Strings.LastSegmentUnique(lp, '.', Strings.Lower(a));
    Strings.LowerIdempotent(a);
  }

  /** A name whose last character is '.', and the empty name, have the empty extension. */
  lemma EmptyExtension(path: string)
    requires path == "" || path[|path| - 1] == '.'
    ensures Extension(path) == ""
  {
    Strings.LastSegmentUnique(path, '.', "");
    assert Strings.Lower("") == "";
  }

  /** The empty extension is not in the table. */
  lemma EmptyExtensionUnknown()
    ensures RouteLanguage("") == PlainText
  {
  }

  /** So such names are plain text. */
  lemma EmptyExtensionIsPlainText(path: string)
    requires path == "" || path[|path| - 1] == '.'
    ensures LanguageFromPath(path) == PlainText
  {
    EmptyExtension(path);
    EmptyExtensionUnknown();
  }

  /** The editor with no active file asks for the language of '' and gets plain text. */
  lemma NoActiveFileIsPlainText()
    ensures EditorLanguageFromFile("") == PlainText
  {
    EmptyExtensionIsPlainText("");
    CopiesAgree("");
  }

  /** The language of `prefix.ext` is the table's entry for the lower-cased `ext`. */
  lemma LanguageAfterLastDot(prefix: string, ext: string)
    requires '.' !in ext
    ensures LanguageFromPath(prefix + "." + ext) == RouteLanguage(Strings.Lower(ext))
  {
    ExtensionAfterLastDot(prefix, ext);
  }

  /** A Python file, as in the upsert example of the collaboration layer. */
  lemma PythonExample()
    ensures LanguageFromPath("x.py") == "python"
  {
    LanguageAfterLastDot("x", "py");
    assert Strings.Lower("py") == "py";
  }

  /** The README every new project is seeded with. */
  lemma ReadmeExample()
    ensures LanguageFromPath("README.md") == "markdown"
  {
    LanguageAfterLastDot("README", "md");
    assert Strings.Lower("md") == "md";
  }

  /** Upper-case extensions are looked up lower-cased. */
  lemma UpperCaseExample()
    ensures LanguageFromPath("src/App.TSX") == "typescript"
  {
    LanguageAfterLastDot("src/App", "TSX");
    assert Strings.Lower("TSX") == "tsx";
  }

  /** Only the text after the last '.' counts. */
  lemma DoubleExtensionExample()
    ensures LanguageFromPath("archive.tar.gz") == PlainText
  {
    LanguageAfterLastDot("archive.tar", "gz");
    assert Strings.Lower("gz") == "gz";
  }

  /** A name without a '.' is its own extension. */
  lemma NoDotExample()
    ensures LanguageFromPath("Makefile") == PlainText
  {
    Strings.LastSegmentWithoutSeparator("Makefile", '.');
    assert Strings.Lower("Makefile") == "makefile";
  }
}
