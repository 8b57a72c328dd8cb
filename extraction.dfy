/** Text extraction from uploaded files and the upload loops that key the
    results into an artifact store. The PDF reader and the image OCR call are
    external collaborators and enter as function parameters. */
module Extraction {
  import opened Wrappers
  import opened Artifacts

  /** An uploaded file as the upload widget hands it over. */
  datatype UploadedFile = UploadedFile(name: string, mime: string, data: seq<bv8>)

  /** The PDF reader applied to one file: the text of its pages, where a page
      without text or a file that fails to parse contributes "". */
  type PdfReader = UploadedFile -> string

  /** The OCR request for one image: None when the call raised. */
  type ImageReader = UploadedFile -> Option<string>

  const PdfMime: string := "application/pdf"
  /** Image types the sidebar uploader accepts (app.py:390). */
  const SidebarImageMimes: seq<string> := ["image/png", "image/jpeg", "image/jpg"]
  /** Image types the syllabus step accepts (app.py:527); "image/jpg" is not among them. */
  const ConfirmImageMimes: seq<string> := ["image/png", "image/jpeg"]

  /** What `extract_text(files)` returns: the per-file texts in upload order. */
  function PdfText(files: seq<UploadedFile>, pdf: PdfReader): (r: string) {
    if files == [] then "" else PdfText(files[..|files| - 1], pdf) + pdf(files[|files| - 1])
  }

  /** What `extract_text_from_images(files)` returns: each recognised text
      followed by a newline; a failed call adds nothing. */
  function ImageText(files: seq<UploadedFile>, ocr: ImageReader): (r: string) {
    if files == [] then ""
    else
      var last := files[|files| - 1];
      ImageText(files[..|files| - 1], ocr) + match ocr(last) case Some(t) => t + "\n" case None => ""
  }

  /** `extract_text`: one loop over the batch, never failing. */
  method ExtractText(files: seq<UploadedFile>, pdf: PdfReader) returns (text: string)
    ensures text == PdfText(files, pdf)
  {
    text := "";
    for i := 0 to |files|
      invariant text == PdfText(files[..i], pdf)
    {
      assert files[..i + 1][..i] == files[..i];
      text := text + pdf(files[i]);
    }
    assert files[..|files|] == files;
  }

  /** `extract_text_from_images`: one loop over the batch, never failing. */
  method ExtractTextFromImages(files: seq<UploadedFile>, ocr: ImageReader) returns (text: string)
    ensures text == ImageText(files, ocr)
  {
    text := "";
    for i := 0 to |files|
      invariant text == ImageText(files[..i], ocr)
    {
      assert files[..i + 1][..i] == files[..i];
      var r := ocr(files[i]);
      if r.Some? {
        text := text + r.value + "\n";
      }
    }
    assert files[..|files|] == files;
  }

  /** Extracting a batch equals extracting its parts one after the other, so
      keying per-file results loses no text. */
  lemma {:induction false} PdfTextConcat(a: seq<UploadedFile>, b: seq<UploadedFile>, pdf: PdfReader)
    ensures PdfText(a + b, pdf) == PdfText(a, pdf) + PdfText(b, pdf)
    decreases |b|
  {
    if b == [] {
      assert a + b == a;
    } else {
      var b' := b[..|b| - 1];
      assert (a + b)[..|a + b| - 1] == a + b';
      PdfTextConcat(a, b', pdf);
    }
  }

  /** The same for images. */
  lemma {:induction false} ImageTextConcat(a: seq<UploadedFile>, b: seq<UploadedFile>, ocr: ImageReader)
    ensures ImageText(a + b, ocr) == ImageText(a, ocr) + ImageText(b, ocr)
    decreases |b|
  {
    if b == [] {
      assert a + b == a;
    } else {
      var b' := b[..|b| - 1];
      assert (a + b)[..|a + b| - 1] == a + b';
      ImageTextConcat(a, b', ocr);
    }
  }

  /** `[f for f in files if f.type in mimes]`. */
  function OfType(files: seq<UploadedFile>, mimes: seq<string>): (r: seq<UploadedFile>)
    ensures forall f :: f in r <==> f in files && f.mime in mimes
  {
    if files == [] then []
    else OfType(files[..|files| - 1], mimes) + (if files[|files| - 1].mime in mimes then [files[|files| - 1]] else [])
  }

  /** The filter keeps a single file exactly when its type is listed. */
  lemma OfTypeOne(f: UploadedFile, mimes: seq<string>)
    ensures OfType([f], mimes) == if f.mime in mimes then [f] else []
  {
    assert [f][..0] == [];
  }

  /** The filter works file by file, so it keeps the upload order: filtering
      a concatenation is concatenating the filtered parts. */
  lemma {:induction false} OfTypeConcat(a: seq<UploadedFile>, b: seq<UploadedFile>, mimes: seq<string>)
    ensures OfType(a + b, mimes) == OfType(a, mimes) + OfType(b, mimes)
    decreases |b|
  {
    if b == [] {
      assert a + b == a;
    } else {
      var b' := b[..|b| - 1];
      assert (a + b)[..|a + b| - 1] == a + b';
      OfTypeConcat(a, b', mimes);
    }
  }

  // ---------------------------------------------------------------------------
  // Upload loops

  /** What an upload loop stores for a file whose name is new, or None when it skips the file. */
  type Reader = UploadedFile -> Option<string>

  /** The sidebar loop (app.py:387-392): a PDF is read as a PDF, a PNG/JPEG
      through OCR, anything else is skipped. */
  function SidebarReader(pdf: PdfReader, ocr: ImageReader): (read: Reader) {
    (f: UploadedFile) => if f.mime == PdfMime then Some(PdfText([f], pdf))
         else if f.mime in SidebarImageMimes then Some(ImageText([f], ocr))
         else None
  }

  /** The PYQ loop (app.py:676): every file is read as a PDF. */
  function PyqReader(pdf: PdfReader): (read: Reader) {
    (f: UploadedFile) => Some(PdfText([f], pdf))
  }

  /** One iteration: a file whose name is already a key is skipped. */
  function AddUpload(s: Store, f: UploadedFile, read: Reader): (r: Store)
    requires UniqueKeys(s)
    ensures UniqueKeys(r)
  {
    if f.name in Keys(s) then s
    else match read(f)
      case Some(t) => Put(s, f.name, t)
      case None => s
  }

  /** One iteration as a dict update: a readable file with a new name is
      added, last in order; anything else leaves the dict as it was. */
  lemma AddUploadMap(s: Store, f: UploadedFile, read: Reader)
    requires UniqueKeys(s)
    ensures var r := AddUpload(s, f, read);
            AsMap(r) == (if f.name in AsMap(s) || read(f).None? then AsMap(s) else AsMap(s)[f.name := read(f).value]) &&
            Keys(r) == if f.name in Keys(s) || read(f).None? then Keys(s) else Keys(s) + [f.name]
  {
    AsMapDomain(s);
    if f.name !in Keys(s) && read(f).Some? {
      PutSpec(s, f.name, read(f).value);
    }
  }

  /** The whole loop over the uploaded files, in upload order. */
  function AddUploads(s: Store, files: seq<UploadedFile>, read: Reader): (r: Store)
    requires UniqueKeys(s)
    ensures UniqueKeys(r)
  {
    if files == [] then s
    else AddUpload(AddUploads(s, files[..|files| - 1], read), files[|files| - 1], read)
  }

  /** The text of the first file in `files` named `k` that `read` can read,
      if there is one. */
  function FirstRead(files: seq<UploadedFile>, k: string, read: Reader): (r: Option<string>)
    ensures r.Some? <==> exists i :: 0 <= i < |files| && files[i].name == k && read(files[i]).Some?
    ensures r.Some? ==> exists i :: 0 <= i < |files| && files[i].name == k && r == read(files[i]) &&
                          forall j :: 0 <= j < i && files[j].name == k ==> read(files[j]).None?
  {
    if files == [] then None
    else
      var init, last := files[..|files| - 1], files[|files| - 1];
      var p := FirstRead(init, k, read);
      assert forall i :: 0 <= i < |init| ==> init[i] == files[i];
      if p.Some? then p
      else if last.name == k then read(last)
      else None
  }

  /** The loop as a whole: a name is a key afterwards exactly when it was one
      before or some uploaded file of that name is readable; an old name keeps
      its text, and a new one holds the text of the first readable file of
      that name (later files of the same name are skipped). */
  lemma {:induction false} AddUploadsMap(s: Store, files: seq<UploadedFile>, read: Reader, k: string)
    requires UniqueKeys(s)
    ensures var m := AsMap(AddUploads(s, files, read));
            (k in m <==> k in AsMap(s) || FirstRead(files, k, read).Some?) &&
            (k in m ==> m[k] == if k in AsMap(s) then AsMap(s)[k] else FirstRead(files, k, read).value)
    decreases |files|
  {
    if files != [] {
      AddUploadsMap(s, files[..|files| - 1], read, k);
      AddUploadMap(AddUploads(s, files[..|files| - 1], read), files[|files| - 1], read);
    }
  }

  /** Uploads only ever add keys: existing artifacts keep their text and their
      place, and new ones are appended after them. */
  lemma {:induction false} AddUploadsExtends(s: Store, files: seq<UploadedFile>, read: Reader)
    requires UniqueKeys(s)
    ensures |s| <= |AddUploads(s, files, read)| && AddUploads(s, files, read)[..|s|] == s
    decreases |files|
  {
    if files != [] {
      var prev := AddUploads(s, files[..|files| - 1], read);
      AddUploadsExtends(s, files[..|files| - 1], read);
      var f := files[|files| - 1];
      if f.name !in Keys(prev) && read(f).Some? {
        assert AddUpload(prev, f, read) == prev + [(f.name, read(f).value)];
      }
    }
  }

  /** After the loop, every file the loop would store has its name as a key. */
  lemma {:induction false} AddUploadsCovers(s: Store, files: seq<UploadedFile>, read: Reader)
    requires UniqueKeys(s)
    ensures forall f :: f in files && read(f).Some? ==> f.name in Keys(AddUploads(s, files, read))
    decreases |files|
  {
    if files != [] {
      var init := files[..|files| - 1];
      var f := files[|files| - 1];
      var prev := AddUploads(s, init, read);
      AddUploadsCovers(s, init, read);
      if f.name !in Keys(prev) && read(f).Some? {
        PutSpec(prev, f.name, read(f).value);
      }
      forall g | g in files && read(g).Some? ensures g.name in Keys(AddUpload(prev, f, read)) {
        if g in init {
          assert g.name in Keys(prev);
        }
      }
    }
  }

  /** A loop that finds every name already present, or every file unreadable, changes nothing. */
  lemma {:induction false} AddUploadsNoop(s: Store, files: seq<UploadedFile>, read: Reader)
    requires UniqueKeys(s)
    requires forall f :: f in files && read(f).Some? ==> f.name in Keys(s)
    ensures AddUploads(s, files, read) == s
    decreases |files|
  {
    if files != [] {
      AddUploadsNoop(s, files[..|files| - 1], read);
    }
  }

  /** Re-running an upload loop over the same files (as every rerun of the page
      does while the files stay in the uploader) changes nothing. */
  lemma AddUploadsIdempotent(s: Store, files: seq<UploadedFile>, read: Reader)
    requires UniqueKeys(s)
    ensures AddUploads(AddUploads(s, files, read), files, read) == AddUploads(s, files, read)
  {
    AddUploadsCovers(s, files, read);
    AddUploadsNoop(AddUploads(s, files, read), files, read);
  }

  /** An upload never changes the text of a name that was already a key. */
  lemma AddUploadsKeepsText(s: Store, files: seq<UploadedFile>, read: Reader, k: string)
    requires UniqueKeys(s) && k in AsMap(s)
    ensures k in AsMap(AddUploads(s, files, read))
    ensures AsMap(AddUploads(s, files, read))[k] == AsMap(s)[k]
  {
    var r := AddUploads(s, files, read);
    AddUploadsExtends(s, files, read);
    AsMapDomain(s);
    var i := KeyIndex(s, k);
    AsMapAt(s, i);
    assert r[i] == s[i];
    AsMapAt(r, i);
  }
}
