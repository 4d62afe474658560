/**
  `getLanguageFromExt`: the Dashboard's table from a file extension to the
  language label shown next to a file, looked up case-insensitively.
 */
module Languages {
  import opened Strings

  /** The extension table, keyed by lower-case extension. */
  const LanguageTable: map<string, string> := map[
    "js" := "javascript",
    "jsx" := "jsx",
    "ts" := "typescript",
    "tsx" := "tsx",
    "html" := "html",
    "css" := "css",
    "json" := "json",
    "md" := "markdown",
    "txt" := "text",
    "gitignore" := "text",
    "env" := "text",
    "png" := "image",
    "jpg" := "image",
    "jpeg" := "image",
    "svg" := "image",
    "ico" := "image"]

  const Unknown := "unknown"

  const ImageExtensions: set<string> := {"png", "jpg", "jpeg", "svg", "ico"}
  const TextExtensions: set<string> := {"txt", "gitignore", "env"}

  /** `map[ext.toLowerCase()] || 'unknown'`; every label in the table is a
      non-empty string, so the fallback applies exactly to missing keys. */
  function GetLanguageFromExt(ext: string): (r: string)
    ensures r != ""
    ensures r == Unknown <==> ToLower(ext) !in LanguageTable
  {
    var key := ToLower(ext);
    if key in LanguageTable && LanguageTable[key] != "" then LanguageTable[key] else Unknown
  }

  /** Extensions that differ only in the case of ASCII letters get the same label. */
  lemma LanguageIgnoresCase(ext: string)
    ensures GetLanguageFromExt(ToLower(ext)) == GetLanguageFromExt(ext)
  {
    ToLowerIdempotent(ext);
  }

  /** The image label belongs to exactly five extensions, the text label to
      exactly three, and every other known extension is its own label except
      "js", "ts" and "md". */
  lemma LabelsOfTable(ext: string)
    ensures GetLanguageFromExt(ext) == "image" <==> ToLower(ext) in ImageExtensions
    ensures GetLanguageFromExt(ext) == "text" <==> ToLower(ext) in TextExtensions
    ensures ToLower(ext) in {"jsx", "tsx", "html", "css", "json"} ==> GetLanguageFromExt(ext) == ToLower(ext)
    ensures ToLower(ext) == "js" ==> GetLanguageFromExt(ext) == "javascript"
    ensures ToLower(ext) == "ts" ==> GetLanguageFromExt(ext) == "typescript"
    ensures ToLower(ext) == "md" ==> GetLanguageFromExt(ext) == "markdown"
  {
  }
}
