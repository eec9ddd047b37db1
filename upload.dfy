/** The upload middleware: how an uploaded file's name is classified, which
    storage class it goes to, which files the filter lets through, and the
    size limit. */
module Upload {
  import opened Js

  /** The storage folder every upload goes to. */
  const Folder: string := "helpdesk-uploads"

  /** The byte limit passed to the multipart parser: 10 MiB. */
  const MaxFileSize: nat := 10 * 1024 * 1024

  /** Extensions the file filter admits, in declaration order. */
  const AllowedExtensions: seq<string> :=
    ["jpg", "jpeg", "png", "gif", "mp4", "pdf", "doc", "docx", "xls", "xlsx", "txt", "zip", "rar"]

  /** Extensions stored with the `raw` resource type. */
  const RawExtensions: seq<string> :=
    ["pdf", "doc", "docx", "xls", "xlsx", "txt", "zip", "rar"]

  /** `originalname.split(".").pop().toLowerCase()` */
  function Extension(originalName: string): (ext: string)
    ensures '.' !in ext
    ensures |ext| <= |originalName|
  {
    ToLower(LastSegment(originalName, '.'))
  }

  datatype ResourceType = Raw | Auto

  /** The upload parameters handed to the storage provider. */
  datatype StorageParams = StorageParams(folder: string, publicId: string, resourceType: ResourceType)

  /** The `params` callback: start from `auto`, switch to `raw` for document
      and archive extensions. */
  method Params(originalName: string) returns (p: StorageParams)
    ensures p.folder == Folder
    ensures p.publicId == originalName
    ensures p.resourceType == Raw <==> Extension(originalName) in RawExtensions
  {
    p := StorageParams(Folder, originalName, Auto);
    var ext := Extension(originalName);
    if ext in RawExtensions {
      p := p.(resourceType := Raw);
    }
  }

  /** What `fileFilter` hands its callback: accept, or an error naming the extension. */
  datatype FilterVerdict = Accept | Reject(message: string)

  function FileFilter(originalName: string): (v: FilterVerdict)
    ensures v == Accept <==> Extension(originalName) in AllowedExtensions
    ensures v.Reject? ==> v.message == "Tipo de archivo no permitido: " + Extension(originalName)
  {
    var ext := Extension(originalName);
    if ext in AllowedExtensions then Accept
    else Reject("Tipo de archivo no permitido: " + ext)
  }

  /** The parser keeps a file of at most `MaxFileSize` bytes. */
  predicate WithinSizeLimit(size: nat) {
    size <= MaxFileSize
  }

  // ---------------------------------------------------------------------------
  // Properties

  /** The extension is what follows the last dot, lower-cased. */
  lemma ExtensionAfterLastDot(stem: string, suffix: string)
    requires '.' !in suffix
    ensures Extension(stem + "." + suffix) == ToLower(suffix)
  {
    LastSegmentAfter(stem, '.', suffix);
  }

  /** A name without a dot is its own extension, lower-cased. */
  lemma ExtensionWithoutDot(name: string)
    requires '.' !in name
    ensures Extension(name) == ToLower(name)
  {
    LastSegmentNoSeparator(name, '.');
  }

  /** Names that agree up to case get the same extension, filter verdict and
      resource type. */
  lemma ClassificationIgnoresCase(a: string, b: string)
    requires ToLower(a) == ToLower(b)
    ensures Extension(a) == Extension(b)
    ensures FileFilter(a) == FileFilter(b)
    ensures (Extension(a) in RawExtensions) == (Extension(b) in RawExtensions)
  {
    LastSegmentToLower(a, '.');
    LastSegmentToLower(b, '.');
  }

  /** Every extension stored as `raw` is also one the filter admits. */
  lemma RawExtensionsAreAllowed(ext: string)
    requires ext in RawExtensions
    ensures ext in AllowedExtensions
  {
  }

  /** A concrete case: the upper-case and lower-case spelling of a PDF name. */
  lemma UpperCasePdf()
    ensures Extension("A.PDF") == "pdf" && Extension("a.pdf") == "pdf"
    ensures FileFilter("A.PDF") == Accept
  {
    ExtensionAfterLastDot("A", "PDF");
    ExtensionAfterLastDot("a", "pdf");
    assert "A" + "." + "PDF" == "A.PDF";
    assert "a" + "." + "pdf" == "a.pdf";
    LowerPdf();
    assert "pdf" == AllowedExtensions[5];
  }

  lemma LowerPdf()
    ensures ToLower("PDF") == "pdf" && ToLower("pdf") == "pdf"
  {
    var up, low := ToLower("PDF"), ToLower("pdf");
    assert up[0] == 'p' && up[1] == 'd' && up[2] == 'f';
    assert low[0] == 'p' && low[1] == 'd' && low[2] == 'f';
  }

  /** A name with two dots is classified by its last part only. */
  lemma DoubleExtension()
    ensures Extension("informe.pdf.exe") == "exe"
    ensures FileFilter("informe.pdf.exe") == Reject("Tipo de archivo no permitido: exe")
  {
    ExtensionAfterLastDot("informe.pdf", "exe");
  }
}
