/** Language names: normalisation and the table of supported languages (sandbox/src/language.cpp),
    and the compiler dispatch that depends on them (sandbox/src/compiler.cpp). */
module Languages {
  datatype LanguageInfo = LanguageInfo(id: string, name: string, extension: string)

  datatype Toolchain = PyCompile | Gpp | Gcc

  const SUPPORTED: seq<LanguageInfo> :=
    [LanguageInfo("c", "C", ".c"), LanguageInfo("cpp", "C++", ".cpp"), LanguageInfo("python", "Python 3", ".py")]

  function LowerChar(c: char): char {
    if 'A' <= c <= 'Z' then c - 'A' + 'a' else c
  }

  function Lower(s: string): string {
    seq(|s|, i requires 0 <= i < |s| => LowerChar(s[i]))
  }

  function Normalize(language: string): string {
    var lang := Lower(language);
    if lang == "c++" || lang == "cxx" then "cpp"
    else if lang == "py" || lang == "python3" then "python"
    else lang
  }

  predicate IsSupported(language: string) {
    var lang := Normalize(language);
    exists l <- SUPPORTED :: l.id == lang
  }

  function SourceExtension(language: string): string {
    ExtensionFrom(SUPPORTED, Normalize(language))
  }

  /** The first table row with this id, or the fall-back ".c". */
  function ExtensionFrom(table: seq<LanguageInfo>, lang: string): string {
    if table == [] then ".c"
    else if table[0].id == lang then table[0].extension
    else ExtensionFrom(table[1..], lang)
  }

  function ToolchainFor(language: string): Toolchain {
    var lang := Normalize(language);
    if lang == "python" then PyCompile else if lang == "cpp" then Gpp else Gcc
  }

  lemma LowerIdempotent(s: string)
    ensures Lower(Lower(s)) == Lower(s)
  {
    forall i | 0 <= i < |s| ensures Lower(Lower(s))[i] == Lower(s)[i] {
    }
  }

  /** Normalising twice is normalising once, for every string. */
  lemma NormalizeIdempotent(s: string)
    ensures Normalize(Normalize(s)) == Normalize(s)
  {
    LowerIdempotent(s);
    assert Lower("cpp") == "cpp";
    assert Lower("python") == "python";
  }

  /** Every stage that normalises again (API, queue, evaluator, compiler) sees the same language;
      support does not change; and for a supported language the source file's extension, the
      table row and the compiler all belong to that one language. */
  lemma StagesAgree(text: string)
    ensures IsSupported(Normalize(text)) == IsSupported(text)
    ensures SourceExtension(Normalize(text)) == SourceExtension(text)
    ensures ToolchainFor(Normalize(text)) == ToolchainFor(text)
    ensures IsSupported(text) ==>
      exists l <- SUPPORTED :: l.id == Normalize(text) && l.extension == SourceExtension(text)
    ensures IsSupported(text) ==>
      && (ToolchainFor(text) == PyCompile <==> SourceExtension(text) == ".py")
      && (ToolchainFor(text) == Gpp <==> SourceExtension(text) == ".cpp")
      && (ToolchainFor(text) == Gcc <==> SourceExtension(text) == ".c")
  {
    NormalizeIdempotent(text);
    ExtensionTable(Normalize(text));
    SupportedIds(text);
    if IsSupported(text) {
      assert SUPPORTED[0] in SUPPORTED && SUPPORTED[1] in SUPPORTED && SUPPORTED[2] in SUPPORTED;
    }
  }

  lemma SupportedIds(text: string)
    ensures IsSupported(text) <==> Normalize(text) in ["c", "cpp", "python"]
  {
    assert SUPPORTED[0] in SUPPORTED && SUPPORTED[1] in SUPPORTED && SUPPORTED[2] in SUPPORTED;
  }

  /** Case apart, a language is supported exactly under one of these seven names, each of which stands for one
      of three. */
  lemma SupportedExactlyWhen(text: string)
    ensures var lower := Lower(text);
      && (Normalize(text) == "c" <==> lower == "c")
      && (Normalize(text) == "cpp" <==> lower == "cpp" || lower == "c++" || lower == "cxx")
      && (Normalize(text) == "python" <==> lower == "python" || lower == "py" || lower == "python3")
      && (IsSupported(text) <==> Normalize(text) == "c" || Normalize(text) == "cpp" || Normalize(text) == "python")
  {
    SupportedIds(text);
  }

  /** Upper case counts as lower case, letter by letter, and nothing else changes. */
  lemma CaseIsIgnored(a: string, b: string)
    requires |a| == |b|
    requires forall i :: 0 <= i < |a| ==>
      a[i] == b[i] || ('A' <= a[i] <= 'Z' && b[i] as int == a[i] as int + 32) ||
      ('A' <= b[i] <= 'Z' && a[i] as int == b[i] as int + 32)
    ensures Normalize(a) == Normalize(b) && IsSupported(a) == IsSupported(b)
  {
    assert Lower(a) == Lower(b);
  }

  lemma ExtensionTable(lang: string)
    ensures ExtensionFrom(SUPPORTED, lang) ==
            if lang == "cpp" then ".cpp" else if lang == "python" then ".py" else ".c"
  {
    var rows := SUPPORTED;
    assert rows[1..] == [rows[1], rows[2]] && rows[1..][1..] == [rows[2]] && rows[1..][1..][1..] == [];
    assert ExtensionFrom(rows[1..][1..], lang) == if lang == "python" then ".py" else ".c";
    assert ExtensionFrom(rows[1..], lang) ==
           if lang == "cpp" then ".cpp" else ExtensionFrom(rows[1..][1..], lang);
    if lang == "c" {
      assert lang[0] == 'c' && |lang| == 1;
    }
  }

  /** The ".c" fall-back is taken exactly for the languages that are not supported. */
  lemma FallbackExactlyWhenUnsupported(text: string)
    ensures !IsSupported(text) <==>
            (SourceExtension(text) == ".c" && Normalize(text) != "c")
  {
    ExtensionTable(Normalize(text));
    SupportedIds(text);
  }
}
