/** The file-download hook (src/hooks/useFileDownload.ts): which format
    conversions count as supported, the extension of a file name, the
    cleaned English file name, the MIME type, and the two download flows.
    Fetching from storage and handing a blob to the browser are outside the
    model; the fetch result is a parameter. */
module FileDownload {
  import opened Wrappers
  import opened Text

  datatype DownloadFormat = Pdf | Docx | Original

  // ---------------------------------------------------------------------
  // Conversion support

  function PdfSources(): seq<string> { ["pdf", "doc", "docx", "txt", "rtf"] }
  function DocxSources(): seq<string> { ["doc", "docx", "txt", "rtf"] }

  /** isConversionSupported: 'original' always; otherwise the lower-cased
      extension must be in the target's list. */
  function IsConversionSupported(ext: string, target: DownloadFormat): (ok: bool)
    ensures target == Original ==> ok
    ensures target == Pdf ==> (ok <==> Lower(ext) in PdfSources())
    ensures target == Docx ==> (ok <==> Lower(ext) in DocxSources())
  {
    match target
    case Original => true
    case Pdf => Lower(ext) in PdfSources()
    case Docx => Lower(ext) in DocxSources()
  }

  /** Every extension that converts to docx also converts to pdf; the pdf
      list has exactly one more entry, pdf itself. */
  lemma DocxSupportImpliesPdf(ext: string)
    ensures IsConversionSupported(ext, Docx) ==> IsConversionSupported(ext, Pdf)
    ensures IsConversionSupported(ext, Pdf) && !IsConversionSupported(ext, Docx) ==> Lower(ext) == "pdf"
  {
  }

  // ---------------------------------------------------------------------
  // Extension and MIME type

  /** `fileName.split('.').pop()?.toLowerCase() || ''`: the lower-cased
      text after the last dot, or the whole lower-cased name without one. */
  function ExtensionOf(fileName: string): (ext: string)
    ensures '.' !in ext
    ensures '.' !in fileName ==> ext == Lower(fileName)
    ensures |ext| <= |fileName|
    ensures Lower(ext) == ext
  {
    var tail := AfterLast(fileName, '.');
    LowerIdempotent(tail);
    Lower(tail)
  }

  function MimeTypes(): map<string, string> {
    map[
      "pdf" := "application/" + "pdf",
      "docx" := "application/" + "vnd.openxmlf" + "ormats-offic" + "edocument.wo" + "rdprocessing" + "ml.document",
      "doc" := "application/" + "msword",
      "txt" := "text/plain",
      "rtf" := "application/" + "rtf",
      "png" := "image/png",
      "jpg" := "image/jpeg",
      "jpeg" := "image/jpeg",
      "gif" := "image/gif",
      "zip" := "application/" + "zip"
    ]
  }

  const OctetStream: string := "application/" + "octet-stream"

  /** `fileType || MIME_TYPES[ext] || 'application/octet-stream'`: the
      given type when non-empty, else the table's entry, else the generic
      type; never empty. */
  function DefaultMime(fileType: string, ext: string): (m: string)
    ensures fileType != "" ==> m == fileType
    ensures fileType == "" && ext in MimeTypes() ==> m == MimeTypes()[ext]
    ensures fileType == "" && ext !in MimeTypes() ==> m == OctetStream
    ensures m != ""
  {
    if fileType != "" then fileType
    else if ext in MimeTypes() then MimeTypes()[ext]
    else OctetStream
  }

  // ---------------------------------------------------------------------
  // Cleaning English names

  predicate IsWordChar(c: char) {
    ('a' <= c <= 'z') || ('A' <= c <= 'Z') || ('0' <= c <= '9') || c == '_'
  }

  /** `.replace(/\s+/g, '_')`: every maximal run of whitespace becomes one
      underscore. */
  function CollapseSpaces(s: string): (r: string)
    ensures forall i :: 0 <= i < |r| ==> !IsJsSpace(r[i])
    decreases |s|
  {
    if s == [] then []
    else if IsJsSpace(s[0]) then "_" + CollapseSpaces(TrimStart(s[1..]))
    else [s[0]] + CollapseSpaces(s[1..])
  }

  /** `.replace(/[^a-zA-Z0-9_]/g, '')`: only letters, digits and
      underscores are kept, in order. */
  function KeepWordChars(s: string): (r: string)
    ensures forall i :: 0 <= i < |r| ==> IsWordChar(r[i])
    ensures |r| <= |s|
  {
    if s == [] then []
    else (if IsWordChar(s[0]) then [s[0]] else []) + KeepWordChars(s[1..])
  }

  /** The cleaned name: whitespace runs to underscores, then everything
      outside [A-Za-z0-9_] dropped. */
  function CleanName(s: string): (r: string)
    ensures forall i :: 0 <= i < |r| ==> IsWordChar(r[i])
  {
    KeepWordChars(CollapseSpaces(s))
  }

  /** A text without whitespace is left as it is by the collapsing. */
  lemma {:induction false} CollapseKeepsSolid(s: string)
    requires forall i :: 0 <= i < |s| ==> !IsJsSpace(s[i])
    ensures CollapseSpaces(s) == s
  {
    if s != [] {
      CollapseKeepsSolid(s[1..]);
    }
  }

  /** A leading whitespace run becomes one underscore before the rest. */
  lemma CollapseLeadingRun(w: string, b: string)
    requires w != [] && Blank(w)
    requires b == [] || !IsJsSpace(b[0])
    ensures CollapseSpaces(w + b) == "_" + CollapseSpaces(b)
  {
    assert (w + b)[0] == w[0] && (w + b)[1..] == w[1..] + b;
    assert Blank(w[1..]) by {
      forall i | 0 <= i < |w[1..]| ensures IsJsSpace(w[1..][i]) {
        assert w[1..][i] == w[i + 1];
      }
    }
    TrimStartBlankPrefix(w[1..], b);
  }

  /** A whitespace run at the head of `a` collapses to one underscore
      followed by the collapse of `a` from its first other character. */
  lemma CollapseInnerRun(a: string, rest: string)
    requires |a| > 0 && IsJsSpace(a[0]) && !IsJsSpace(a[|a| - 1])
    ensures var u := TrimStart(a[1..]);
      && |u| < |a| && u != [] && u[|u| - 1] == a[|a| - 1]
      && CollapseSpaces(a + rest) == "_" + CollapseSpaces(u + rest)
      && CollapseSpaces(a) == "_" + CollapseSpaces(u)
  {
    var t := a[1..];
    assert t[|t| - 1] == a[|a| - 1];
    assert (a + rest)[0] == a[0] && (a + rest)[1..] == t + rest;
    TrimStartAppend(t, rest);
    TrimStartFacts(t);
  }

  lemma RegroupJoin(p: string, x: string, q: string, y: string)
    ensures p + (x + q + y) == (p + x) + q + y
  {
  }

  /** A character that is not whitespace is copied as it is. */
  lemma CollapseSolidHead(c: char, x: string)
    requires !IsJsSpace(c)
    ensures CollapseSpaces([c] + x) == [c] + CollapseSpaces(x)
  {
    assert ([c] + x)[0] == c && ([c] + x)[1..] == x;
  }

  /** The step of the run lemma for a part starting with whitespace. */
  lemma CollapseRunAfterSpace(a: string, w: string, b: string)
    requires |a| > 0 && IsJsSpace(a[0]) && !IsJsSpace(a[|a| - 1])
    requires CollapseSpaces(TrimStart(a[1..]) + w + b)
             == CollapseSpaces(TrimStart(a[1..])) + "_" + CollapseSpaces(b)
    ensures CollapseSpaces(a + w + b) == CollapseSpaces(a) + "_" + CollapseSpaces(b)
  {
    CollapseInnerRun(a, w + b);
    var u := TrimStart(a[1..]);
    calc {
      CollapseSpaces(a + w + b);
      { assert a + w + b == a + (w + b); }
      CollapseSpaces(a + (w + b));
      "_" + CollapseSpaces(u + (w + b));
      { assert u + (w + b) == u + w + b; }
      "_" + (CollapseSpaces(u) + "_" + CollapseSpaces(b));
      { RegroupJoin("_", CollapseSpaces(u), "_", CollapseSpaces(b)); }
      ("_" + CollapseSpaces(u)) + "_" + CollapseSpaces(b);
      CollapseSpaces(a) + "_" + CollapseSpaces(b);
    }
  }

  /** The step of the run lemma for a part starting with another
      character. */
  lemma CollapseRunAfterSolid(a: string, w: string, b: string)
    requires |a| > 0 && !IsJsSpace(a[0])
    requires CollapseSpaces(a[1..] + w + b) == CollapseSpaces(a[1..]) + "_" + CollapseSpaces(b)
    ensures CollapseSpaces(a + w + b) == CollapseSpaces(a) + "_" + CollapseSpaces(b)
  {
    var x := a[1..];
    assert a == [a[0]] + x;
    CollapseSolidHead(a[0], x + w + b);
    CollapseSolidHead(a[0], x);
    calc {
      CollapseSpaces(a + w + b);
      { assert a + w + b == [a[0]] + (x + w + b); }
      CollapseSpaces([a[0]] + (x + w + b));
      [a[0]] + CollapseSpaces(x + w + b);
      [a[0]] + (CollapseSpaces(x) + "_" + CollapseSpaces(b));
      { RegroupJoin([a[0]], CollapseSpaces(x), "_", CollapseSpaces(b)); }
      ([a[0]] + CollapseSpaces(x)) + "_" + CollapseSpaces(b);
      CollapseSpaces(a) + "_" + CollapseSpaces(b);
    }
  }

  /** A whitespace run between two parts becomes exactly one underscore,
      and each part is collapsed on its own, so every other character stays
      where it was. */
  lemma {:induction false} CollapseSpacesRun(a: string, w: string, b: string)
    requires w != [] && Blank(w)
    requires a == [] || !IsJsSpace(a[|a| - 1])
    requires b == [] || !IsJsSpace(b[0])
    ensures CollapseSpaces(a + w + b) == CollapseSpaces(a) + "_" + CollapseSpaces(b)
    decreases |a|
  {
    if a == [] {
      assert a + w + b == w + b;
      CollapseLeadingRun(w, b);
    } else if IsJsSpace(a[0]) {
      CollapseInnerRun(a, []);
      CollapseSpacesRun(TrimStart(a[1..]), w, b);
      CollapseRunAfterSpace(a, w, b);
    } else {
      assert a[1..] == [] || a[1..][|a[1..]| - 1] == a[|a| - 1];
      CollapseSpacesRun(a[1..], w, b);
      CollapseRunAfterSolid(a, w, b);
    }
  }

  /** Dropping characters works piece by piece: the kept characters of a
      concatenation are those of each part, in order. */
  lemma {:induction false} KeepWordCharsAppend(a: string, b: string)
    ensures KeepWordChars(a + b) == KeepWordChars(a) + KeepWordChars(b)
    decreases |a|
  {
    if a == [] {
      assert a + b == b;
    } else {
      assert (a + b)[0] == a[0] && (a + b)[1..] == a[1..] + b;
      KeepWordCharsAppend(a[1..], b);
    }
  }

  /** A single character is kept exactly when it is a word character. */
  lemma KeepWordCharsSingle(c: char)
    ensures KeepWordChars([c]) == if IsWordChar(c) then [c] else []
  {
    assert [c][1..] == [];
  }

  /** A text made of word characters is kept whole. */
  lemma {:induction false} KeepKeepsWords(s: string)
    requires forall i :: 0 <= i < |s| ==> IsWordChar(s[i])
    ensures KeepWordChars(s) == s
  {
    if s != [] {
      KeepKeepsWords(s[1..]);
    }
  }

  /** Cleaning a name with a whitespace run in it cleans the two parts and
      joins them with one underscore. */
  lemma CleanNameRun(a: string, w: string, b: string)
    requires w != [] && Blank(w)
    requires a == [] || !IsJsSpace(a[|a| - 1])
    requires b == [] || !IsJsSpace(b[0])
    ensures CleanName(a + w + b) == CleanName(a) + "_" + CleanName(b)
  {
    CollapseSpacesRun(a, w, b);
    KeepWordCharsAppend(CollapseSpaces(a) + "_", CollapseSpaces(b));
    KeepWordCharsAppend(CollapseSpaces(a), "_");
    KeepWordCharsSingle('_');
  }

  /** A name made of word characters is already clean. */
  lemma CleanKeepsWords(s: string)
    requires forall i :: 0 <= i < |s| ==> IsWordChar(s[i])
    ensures CleanName(s) == s
  {
    CollapseKeepsSolid(s);
    KeepKeepsWords(s);
  }

  /** A trailing punctuation mark after a word is dropped. */
  lemma CleanDropsTrailingMark(s: string)
    requires forall i :: 0 <= i < |s| ==> IsWordChar(s[i])
    ensures CleanName(s + "!") == s
  {
    var t := s + "!";
    assert forall i :: 0 <= i < |t| ==> !IsJsSpace(t[i]) by {
      forall i | 0 <= i < |t| ensures !IsJsSpace(t[i]) {
        if i < |s| { assert t[i] == s[i]; }
      }
    }
    CollapseKeepsSolid(t);
    KeepWordCharsAppend(s, "!");
    KeepKeepsWords(s);
    KeepWordCharsSingle('!');
  }

  /** The worked case: two names made of word characters, such as "Ahmed"
      and "Ali", separated by a double space and followed by "!", clean to
      the two names joined by one underscore. */
  lemma CleanNameExample(a: string, b: string)
    requires forall i :: 0 <= i < |a| ==> IsWordChar(a[i])
    requires forall i :: 0 <= i < |b| ==> IsWordChar(b[i])
    ensures CleanName(a + "  " + b + "!") == a + "_" + b
  {
    var tail := b + "!";
    assert a + "  " + b + "!" == a + "  " + tail;
    assert tail[0] == if b == [] then '!' else b[0];
    assert Blank("  ");
    CleanNameRun(a, "  ", tail);
    CleanKeepsWords(a);
    CleanDropsTrailingMark(b);
  }

  /** Cleaning a cleaned name changes nothing. */
  lemma CleanNameIdempotent(s: string)
    ensures CleanName(CleanName(s)) == CleanName(s)
  {
    var c := CleanName(s);
    CollapseKeepsSolid(c);
    KeepKeepsWords(c);
  }

  /** `${cleanStudent}_${cleanProject}.${finalExtension}` */
  function FinalFileName(studentNameEn: string, projectNameEn: string, ext: string): string {
    CleanName(studentNameEn) + "_" + CleanName(projectNameEn) + "." + ext
  }

  /** Reading the extension back off the final name gives the original
      file's extension: the cleaned parts hold no dot, so the last dot is
      the one before the extension. */
  lemma FinalFileNameSplitsAtExtension(studentNameEn: string, projectNameEn: string, fileName: string)
    ensures var ext := ExtensionOf(fileName);
      && AfterLast(FinalFileName(studentNameEn, projectNameEn, ext), '.') == ext
      && ExtensionOf(FinalFileName(studentNameEn, projectNameEn, ext)) == ext
  {
    var ext := ExtensionOf(fileName);
    var n := FinalFileName(studentNameEn, projectNameEn, ext);
    var head := CleanName(studentNameEn) + "_" + CleanName(projectNameEn) + ".";
    assert n == head + ext;
    AfterLastOfSuffix(head, ext, '.');
  }

  /** The text after the last `c` of `head + tail`, when `head` ends in `c`
      and `tail` has none, is `tail`. */
  lemma {:induction false} AfterLastOfSuffix(head: string, tail: string, c: char)
    requires |head| > 0 && head[|head| - 1] == c
    requires c !in tail
    ensures AfterLast(head + tail, c) == tail
    decreases |tail|
  {
    var s := head + tail;
    if tail == [] {
      assert s == head;
    } else {
      assert s[..|s| - 1] == head + tail[..|tail| - 1];
      assert s[|s| - 1] == tail[|tail| - 1];
      assert tail[|tail| - 1] in tail;
      AfterLastOfSuffix(head, tail[..|tail| - 1], c);
      assert tail[..|tail| - 1] + [tail[|tail| - 1]] == tail;
    }
  }

  // ---------------------------------------------------------------------
  // Choosing the output

  /** The messages shown on the way to a download. */
  datatype Notice =
    | UnsupportedConversion   // the original will be downloaded
    | PdfNeedsService         // pdf conversion needs an external service
    | WordNeedsService        // word conversion needs an external service
    | ConversionFailed        // the demo flow fell back to the original

  /** The MIME type both flows end with: the pdf type for a pdf requested
      from a .pdf file, the docx type for a docx requested from a .docx
      file, and the default otherwise. */
  function OutputMime(fileType: string, ext: string, format: DownloadFormat): string {
    if format == Pdf && ext == "pdf" then MimeTypes()["pdf"]
    else if format == Docx && ext == "docx" then MimeTypes()["docx"]
    else DefaultMime(fileType, ext)
  }

  /** downloadFile's choice, step by step as the hook reassigns its
      variables. The extension never changes, whatever the format. */
  method ChooseOutput(fileName: string, fileType: string, format: DownloadFormat)
    returns (finalExtension: string, mimeType: string, notices: seq<Notice>)
    ensures finalExtension == ExtensionOf(fileName)
    ensures mimeType == OutputMime(fileType, ExtensionOf(fileName), format)
    ensures var ext := ExtensionOf(fileName);
      notices ==
        (if IsConversionSupported(ext, format) then [] else [UnsupportedConversion])
        + (if format == Pdf && IsConversionSupported(ext, Pdf) && ext != "pdf" then [PdfNeedsService]
           else if format == Docx && IsConversionSupported(ext, Docx) && ext != "docx" then [WordNeedsService]
           else [])
  {
    var originalExt := ExtensionOf(fileName);
    notices := [];
    if !IsConversionSupported(originalExt, format) {
      notices := notices + [UnsupportedConversion];
    }
    finalExtension := originalExt;
    mimeType := DefaultMime(fileType, originalExt);
    if format == Pdf && IsConversionSupported(originalExt, Pdf) {
      if originalExt == "pdf" {
        finalExtension := "pdf";
        mimeType := MimeTypes()["pdf"];
      } else {
        notices := notices + [PdfNeedsService];
      }
    } else if format == Docx && IsConversionSupported(originalExt, Docx) {
      if originalExt == "docx" {
        finalExtension := "docx";
        mimeType := MimeTypes()["docx"];
      } else {
        notices := notices + [WordNeedsService];
      }
    }
  }

  /** downloadDemoFile's choice: a pdf or docx request for a file of another
      type is a failed conversion, which resets extension and type to the
      original's. */
  method ChooseDemoOutput(fileName: string, fileType: string, format: DownloadFormat)
    returns (finalExtension: string, mimeType: string, notices: seq<Notice>)
    ensures finalExtension == ExtensionOf(fileName)
    ensures mimeType == OutputMime(fileType, ExtensionOf(fileName), format)
    ensures var ext := ExtensionOf(fileName);
      notices == if (format == Pdf && ext != "pdf") || (format == Docx && ext != "docx")
                 then [ConversionFailed] else []
  {
    var originalExt := ExtensionOf(fileName);
    finalExtension := originalExt;
    mimeType := DefaultMime(fileType, originalExt);
    var conversionFailed := false;
    if format == Pdf {
      if originalExt == "pdf" {
        finalExtension := "pdf";
        mimeType := MimeTypes()["pdf"];
      } else if IsConversionSupported(originalExt, Pdf) {
        conversionFailed := true;
      } else {
        conversionFailed := true;
      }
    } else if format == Docx {
      if originalExt == "docx" {
        finalExtension := "docx";
        mimeType := MimeTypes()["docx"];
      } else if IsConversionSupported(originalExt, Docx) {
        conversionFailed := true;
      } else {
        conversionFailed := true;
      }
    }
    notices := [];
    if conversionFailed {
      notices := [ConversionFailed];
      finalExtension := originalExt;
      mimeType := DefaultMime(fileType, originalExt);
    }
  }

  /** No conversion ever happens: whatever is requested, the saved file
      keeps the original extension, and a .pdf or .docx file keeps its own
      type; only the type of a file already in the requested format is
      forced. */
  lemma OutputKeepsOriginal(fileType: string, fileName: string, format: DownloadFormat)
    ensures var ext := ExtensionOf(fileName);
      && (format == Original ==> OutputMime(fileType, ext, format) == DefaultMime(fileType, ext))
      && (format == Pdf && ext == "pdf" ==> OutputMime(fileType, ext, format) == "application/pdf")
      && (format == Pdf && ext != "pdf" ==> OutputMime(fileType, ext, format) == DefaultMime(fileType, ext))
      && (format == Docx && ext != "docx" ==> OutputMime(fileType, ext, format) == DefaultMime(fileType, ext))
  {
  }

  // ---------------------------------------------------------------------
  // The two flows

  /** What storage returns for a path: the file's size in bytes, or an
      error message. */
  datatype FetchResult = Fetched(size: nat) | FetchFailed(message: string)

  class Downloader {
    var isDownloading: bool
    var error: Option<string>

    constructor ()
      ensures !isDownloading && error == None
    {
      isDownloading := false;
      error := None;
    }

    /** downloadFile: a failed fetch or an empty file ends in an error and
        `false`; otherwise the file is saved under the cleaned name with
        the original extension and the result is `true`. Either way the
        hook is no longer downloading. */
    method DownloadFile(fileName: string, fileType: string, format: DownloadFormat,
                        studentNameEn: string, projectNameEn: string, fetch: FetchResult)
      returns (ok: bool, savedAs: Option<string>, mimeType: string)
      modifies this
      ensures !isDownloading
      ensures fetch.FetchFailed? ==>
        !ok && savedAs == None && error == Some("فشل تحميل الملف: " + fetch.message)
      ensures fetch == Fetched(0) ==> !ok && savedAs == None && error == Some("الملف فارغ أو تالف")
      ensures fetch.Fetched? && fetch.size > 0 ==>
        && ok && error == None
        && savedAs == Some(FinalFileName(studentNameEn, projectNameEn, ExtensionOf(fileName)))
        && mimeType == OutputMime(fileType, ExtensionOf(fileName), format)
    {
      isDownloading := true;
      error := None;
      var finalExtension, notices;
      finalExtension, mimeType, notices := ChooseOutput(fileName, fileType, format);
      if fetch.FetchFailed? {
        error := Some("فشل تحميل الملف: " + fetch.message);
        ok, savedAs := false, None;
      } else if fetch.size == 0 {
        error := Some("الملف فارغ أو تالف");
        ok, savedAs := false, None;
      } else {
        savedAs := Some(FinalFileName(studentNameEn, projectNameEn, finalExtension));
        ok := true;
      }
      isDownloading := false;
    }

    /** downloadDemoFile: always saves generated content under the cleaned
        name with the original extension. */
    method DownloadDemoFile(fileName: string, fileType: string, format: DownloadFormat,
                            studentNameEn: string, projectNameEn: string)
      returns (ok: bool, savedAs: string, mimeType: string)
      modifies this
      ensures ok && !isDownloading && error == None
      ensures savedAs == FinalFileName(studentNameEn, projectNameEn, ExtensionOf(fileName))
      ensures mimeType == OutputMime(fileType, ExtensionOf(fileName), format)
    {
      isDownloading := true;
      error := None;
      var finalExtension, notices;
      finalExtension, mimeType, notices := ChooseDemoOutput(fileName, fileType, format);
      savedAs := FinalFileName(studentNameEn, projectNameEn, finalExtension);
      ok := true;
      isDownloading := false;
    }
  }
}
