/**
 * The file types the analytics screen accepts and their lookup by extension, by file
 * name and by MIME type. Both lookups search the types in declaration order and
 * compare ignoring case.
 */
module DataFile {
  import opened Options
  import opened Text

  /** `FileType` */
  datatype FileType = CSV | JSON | LOG

  /** The declaration order of the types, which `entries.find` searches. */
  const ENTRIES: seq<FileType> := [CSV, JSON, LOG]

  function Extension(t: FileType): string {
    match t
    case CSV => "csv"
    case JSON => "json"
    case LOG => "log"
  }

  function MimeTypes(t: FileType): seq<string> {
    match t
    case CSV => ["text/csv", "text/comma-separated-values", "application/csv"]
    case JSON => ["application/json", "text/json"]
    case LOG => ["text/plain", "text/x-log", "application/octet-stream"]
  }

  /** Kotlin `find`: the first element satisfying `p`, or `null`. */
  function Find<T>(xs: seq<T>, p: T -> bool): (r: Option<T>)
    ensures r.None? <==> forall i | 0 <= i < |xs| :: !p(xs[i])
    ensures r.Some? ==> exists i | 0 <= i < |xs| :: xs[i] == r.value && p(xs[i]) && forall j | 0 <= j < i :: !p(xs[j])
  {
    if |xs| == 0 then None
    else if p(xs[0]) then Some(xs[0])
    else
      var r := Find(xs[1..], p);
      assert forall i | 1 <= i < |xs| :: xs[i] == xs[1..][i - 1];
      r
  }

  predicate HasExtension(t: FileType, extension: string) {
    EqualsIgnoreCase(Extension(t), extension)
  }

  /** `fromExtension` */
  function FromExtension(extension: string): Option<FileType> {
    Find(ENTRIES, t => HasExtension(t, extension))
  }

  /** Case-insensitive equal characters have the same Java lower case of the upper case. */
  lemma CharFold(a: char, b: char)
    requires CharEqualsIgnoreCase(a, b)
    ensures FoldLower(FoldUpper(a)) == FoldLower(FoldUpper(b))
  {
  }

  /** No text has the extensions of two different types, ignoring case. */
  lemma ExtensionsDisjoint(extension: string, s: FileType, t: FileType)
    requires HasExtension(s, extension) && HasExtension(t, extension)
    ensures s == t
  {
    if s != t && |Extension(s)| == |Extension(t)| {
      CharFold(Extension(s)[0], extension[0]);
      CharFold(Extension(t)[0], extension[0]);
    }
  }

  /** `fromExtension` finds a type exactly when the extension is that type's,
      ignoring case. */
  lemma FromExtensionSpec(extension: string, t: FileType)
    ensures FromExtension(extension) == Some(t) <==> HasExtension(t, extension)
  {
    var r := FromExtension(extension);
    if HasExtension(t, extension) {
      assert t == ENTRIES[0] || t == ENTRIES[1] || t == ENTRIES[2];
      assert r.Some?;
      ExtensionsDisjoint(extension, r.value, t);
    }
  }

  /** None of the extensions is empty: text with no extension has no type. */
  lemma NoExtension()
    ensures FromExtension("") == None
  {
  }

  /** `fromFileName`: the text after the last `.`, or "" when there is none. */
  function FromFileName(fileName: string): Option<FileType> {
    FromExtension(SubstringAfterLast(fileName, '.', ""))
  }

  /** A name without a dot has no type; a name with a type ends in a dot and, after it,
      that type's extension up to case, with no dot after it. */
  lemma FromFileNameSpec(fileName: string)
    ensures '.' !in fileName ==> FromFileName(fileName) == None
    ensures FromFileName(fileName).Some? ==>
      exists k | 0 <= k < |fileName| ::
        && fileName[k] == '.'
        && '.' !in fileName[k + 1..]
        && HasExtension(FromFileName(fileName).value, fileName[k + 1..])
  {
    var suffix := SubstringAfterLast(fileName, '.', "");
    var r := FromFileName(fileName);
    if r.Some? {
      FromExtensionSpec(suffix, r.value);
    }
  }

  /** After the last dot of a name ending in a dot-free extension comes that extension. */
  lemma AfterLastDot(stem: string, extension: string)
    requires '.' !in extension
    ensures SubstringAfterLast(stem + "." + extension, '.', "") == extension
  {
    var name := stem + "." + extension;
    assert name[|stem|] == '.';
    var suffix := SubstringAfterLast(name, '.', "");
    var k :| 0 <= k < |name| && name[k] == '.' && suffix == name[k + 1..];
    assert name[|stem| + 1..] == extension;
  }

  /** A name ending in a dot and an extension of a type, in any case, has that type. */
  lemma FromFileNameOfExtension(stem: string, extension: string, t: FileType)
    requires '.' !in extension && HasExtension(t, extension)
    ensures FromFileName(stem + "." + extension) == Some(t)
  {
    AfterLastDot(stem, extension);
    FromExtensionSpec(extension, t);
  }

  predicate HasMimeType(t: FileType, mimeType: string) {
    exists i | 0 <= i < |MimeTypes(t)| :: EqualsIgnoreCase(MimeTypes(t)[i], mimeType)
  }

  /** `fromMimeType` */
  function FromMimeType(mimeType: string): Option<FileType> {
    Find(ENTRIES, t => HasMimeType(t, mimeType))
  }

  /** No MIME type belongs to two types: the lists' entries differ in length across
      types. */
  lemma MimeTypesDisjoint(mimeType: string, s: FileType, t: FileType)
    requires HasMimeType(s, mimeType) && HasMimeType(t, mimeType)
    ensures s == t
  {
  }

  /** `fromMimeType` finds a type exactly when the MIME type is in that type's list,
      ignoring case. */
  lemma FromMimeTypeSpec(mimeType: string, t: FileType)
    ensures FromMimeType(mimeType) == Some(t) <==> HasMimeType(t, mimeType)
  {
    var r := FromMimeType(mimeType);
    if HasMimeType(t, mimeType) {
      assert t == ENTRIES[0] || t == ENTRIES[1] || t == ENTRIES[2];
      assert r.Some?;
      MimeTypesDisjoint(mimeType, r.value, t);
    }
  }

  /** Plain text is read as a log. */
  lemma PlainTextIsLog()
    ensures FromMimeType("text/plain") == Some(LOG)
  {
    assert EqualsIgnoreCase(MimeTypes(LOG)[0], "text/plain");
    FromMimeTypeSpec("text/plain", LOG);
  }
}
