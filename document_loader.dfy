/** The extension-dispatch rule of `DocumentLoader.load_from_uploaded_file`:
    a missing file yields no documents; otherwise the file name's extension is
    taken as `os.path.splitext` does on POSIX, lower-cased, and looked up in a
    fixed table of two parsers; an unknown extension yields no documents
    without running any parser. The parsers themselves are a parameter. */
module DocumentLoader {
  import opened Wrappers

  newtype byte = x: int | 0 <= x < 256

  /** A parsed page. Only its text is modelled; metadata is not. */
  datatype Document = Document(pageContent: string)

  /** An uploaded file: its name and the bytes written to the scratch file. */
  datatype UploadedFile = UploadedFile(name: string, buffer: seq<byte>)

  /** The two loader classes of the extension table. */
  datatype Parser = TextLoader | PyPdfLoader

  datatype LoadError = NoFile | UnsupportedExtension(ext: string)

  /** What running a loader on the bytes gives: `None` when it raised. */
  type ParseFn = (Parser, seq<byte>) -> Option<seq<Document>>

  /** `DocumentLoader.supported_extensions`. */
  const SupportedExtensions: map<string, Parser> :=
    map[".txt" := TextLoader, ".pdf" := PyPdfLoader]

  function LowerChar(c: char): char {
    if 'A' <= c <= 'Z' then (c as int + 32) as char else c
  }

  /** `str.lower`, on ASCII letters. */
  function Lower(s: string): (r: string)
    ensures |r| == |s|
    ensures forall i :: 0 <= i < |s| ==> r[i] == LowerChar(s[i])
    ensures forall i :: 0 <= i < |r| ==> !('A' <= r[i] <= 'Z')
  {
    if s == [] then [] else [LowerChar(s[0])] + Lower(s[1..])
  }

  /** `str.rfind` of one character: the last index holding `c`, or -1. */
  function LastIndex(s: string, c: char): (k: int)
    ensures -1 <= k < |s|
    ensures k >= 0 ==> s[k] == c
    ensures forall j :: k < j < |s| ==> s[j] != c
  {
    if s == [] then -1
    else if s[|s| - 1] == c then |s| - 1
    else LastIndex(s[..|s| - 1], c)
  }

  /** The extension part of `os.path.splitext(path)` with '/' as the only
      separator: it starts at the last '.' of the base name, provided some
      character of the base name before that '.' is not itself a '.';
      otherwise it is empty. */
  function Extension(path: string): (ext: string)
    ensures |ext| <= |path| && ext == path[|path| - |ext|..]
    ensures ext != [] ==> ext[0] == '.' && '.' !in ext[1..] && '/' !in ext
  {
    var sep := LastIndex(path, '/');
    var dot := LastIndex(path, '.');
    if dot > sep && exists i :: sep < i < dot && path[i] != '.' then path[dot..] else ""
  }

  /** An independent description of when a path has an extension: some
      character that is not a '.' is followed, within the base name, by a '.'. */
  lemma ExtensionPresent(path: string)
    ensures Extension(path) != "" <==>
      exists i, j :: 0 <= i < j < |path| && path[i] != '.' && path[j] == '.' && '/' !in path[i..]
  {
    var sep := LastIndex(path, '/');
    var dot := LastIndex(path, '.');
    if Extension(path) != "" {
      var i :| sep < i < dot && path[i] != '.';
      assert '/' !in path[i..] by {
        forall k | 0 <= k < |path[i..]| ensures path[i..][k] != '/' {
          assert path[i..][k] == path[i + k];
        }
      }
    }
    if exists i, j :: 0 <= i < j < |path| && path[i] != '.' && path[j] == '.' && '/' !in path[i..] {
      var i, j :| 0 <= i < j < |path| && path[i] != '.' && path[j] == '.' && '/' !in path[i..];
      assert sep < i;
      assert j <= dot;
    }
  }

  /** Which loader the table selects for a file, or why none is. */
  function SelectLoader(file: Option<UploadedFile>): (r: Result<Parser, LoadError>)
    ensures file.None? ==> r == Err(NoFile)
    ensures file.Some? ==>
      var ext := Lower(Extension(file.value.name));
      (r == Ok(TextLoader) <==> ext == ".txt") &&
      (r == Ok(PyPdfLoader) <==> ext == ".pdf") &&
      (r.Err? <==> ext != ".txt" && ext != ".pdf") &&
      (r.Err? ==> r.error == UnsupportedExtension(ext))
  {
    match file
    case None => Err(NoFile)
    case Some(f) =>
      var ext := Lower(Extension(f.name));
      if ext in SupportedExtensions then Ok(SupportedExtensions[ext])
      else Err(UnsupportedExtension(ext))
  }

  /** `DocumentLoader.load_from_uploaded_file`: `None` for a missing file, an
      unsupported extension or a loader that raised; otherwise what the
      selected loader returned (possibly an empty list). */
  function LoadFromUploadedFile(file: Option<UploadedFile>, parse: ParseFn): (docs: Option<seq<Document>>)
    ensures docs.Some? ==> file.Some?
    ensures docs.Some? ==>
      Lower(Extension(file.value.name)) == ".txt" || Lower(Extension(file.value.name)) == ".pdf"
  {
    match SelectLoader(file)
    case Err(_) => None
    case Ok(p) => parse(p, file.value.buffer)
  }

  /** An unsupported extension or a missing file gives `None` whatever the
      parsers would have done: no parser is run. */
  lemma UnsupportedNeverParses(file: Option<UploadedFile>, parse1: ParseFn, parse2: ParseFn)
    requires file.None? || Lower(Extension(file.value.name)) !in {".txt", ".pdf"}
    ensures LoadFromUploadedFile(file, parse1) == None
    ensures LoadFromUploadedFile(file, parse1) == LoadFromUploadedFile(file, parse2)
  {
  }

  /** A supported extension runs exactly the parser the table names for it,
      on the uploaded bytes, and passes its result through. */
  lemma SupportedRunsItsParser(file: UploadedFile, parse: ParseFn)
    requires Lower(Extension(file.name)) in SupportedExtensions
    ensures LoadFromUploadedFile(Some(file), parse) ==
      parse(if Lower(Extension(file.name)) == ".txt" then TextLoader else PyPdfLoader, file.buffer)
  {
  }

  /** A name with one non-separator, non-dot character before its only
      dot has everything from that dot on as its extension. */
  lemma SingleDotExtension(path: string, k: nat)
    requires 0 < k < |path| && path[k] == '.' && path[0] != '.'
    requires forall j :: 0 <= j < |path| ==> path[j] != '/'
    requires forall j :: k < j < |path| ==> path[j] != '.'
    ensures Extension(path) == path[k..]
  {
    assert LastIndex(path, '/') == -1;
    assert LastIndex(path, '.') == k;
  }

  /** Upper-case letters in the extension are accepted. */
  lemma UpperCaseExtensionAccepted()
    ensures SelectLoader(Some(UploadedFile("a.TXT", []))) == Ok(TextLoader)
  {
    SingleDotExtension("a.TXT", 1);
    assert Lower(".TXT") == ".txt";
  }

  /** An extension outside the table is refused. */
  lemma DocxRefused()
    ensures SelectLoader(Some(UploadedFile("c.docx", []))) == Err(UnsupportedExtension(".docx"))
  {
    SingleDotExtension("c.docx", 1);
    assert Lower(".docx") == ".docx";
  }

  /** A leading dot alone is not an extension. */
  lemma DotFileRefused()
    ensures SelectLoader(Some(UploadedFile(".txt", []))) == Err(UnsupportedExtension(""))
  {
    var path := ".txt";
    assert LastIndex(path, '/') == -1;
    assert path[0] == '.' && path[1] != '.' && path[2] != '.' && path[3] != '.';
    assert LastIndex(path, '.') == 0;
    assert Extension(path) == "";
    assert Lower("") == "";
  }
}
