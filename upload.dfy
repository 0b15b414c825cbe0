/**
 * `allowed_file` of the upload form: a file is accepted when the text after
 * the last "." of its name, lower-cased, is an allowed extension.
 */
module Upload {
  import opened Wrappers
  import opened Text

  const AllowedExtensions: set<string> := {"pdf"}

  /** Index of the last "." among the first `n` characters of `s`. */
  function LastDotBelow(s: string, n: nat): (r: Option<nat>)
    requires n <= |s|
    ensures r.Some? ==> r.value < n && s[r.value] == '.' && forall k :: r.value < k < n ==> s[k] != '.'
    ensures r.None? ==> forall k :: 0 <= k < n ==> s[k] != '.'
  {
    if n == 0 then None
    else if s[n - 1] == '.' then Some(n - 1)
    else LastDotBelow(s, n - 1)
  }

  /** `filename.rsplit(".", 1)[1]`: what follows the last ".". */
  function Extension(filename: string): (ext: string)
    requires '.' in filename
    ensures '.' !in ext && |ext| < |filename|
    ensures filename[|filename| - |ext| - 1] == '.' && filename[|filename| - |ext|..] == ext
  {
    var i := LastDotBelow(filename, |filename|);
    if i.None? then
      assert false; []
    else
      var ext := filename[i.value + 1..];
      assert forall k :: 0 <= k < |ext| ==> ext[k] == filename[i.value + 1 + k];
      ext
  }

  /** `allowed_file` */
  predicate AllowedFile(filename: string) {
    '.' in filename && Lower(Extension(filename)) in AllowedExtensions
  }

  /**
   * A name is accepted exactly when it ends in a "." followed by "pdf" in any
   * mix of cases; what comes before does not matter.
   */
  lemma AllowedFileIff(filename: string)
    ensures AllowedFile(filename) <==>
              |filename| >= 4 && filename[|filename| - 4] == '.' && Lower(filename[|filename| - 3..]) == "pdf"
  {
    if AllowedFile(filename) {
      AllowedHasPdfTail(filename);
    }
    var n := |filename|;
    if n >= 4 && filename[n - 4] == '.' && Lower(filename[n - 3..]) == "pdf" {
      PdfTailAllowed(filename);
    }
  }

  lemma AllowedHasPdfTail(filename: string)
    requires AllowedFile(filename)
    ensures |filename| >= 4 && filename[|filename| - 4] == '.' && Lower(filename[|filename| - 3..]) == "pdf"
  {
    var ext := Extension(filename);
    assert Lower(ext) == "pdf";
    assert |ext| == 3;
  }

  lemma PdfTailAllowed(filename: string)
    requires |filename| >= 4 && filename[|filename| - 4] == '.' && Lower(filename[|filename| - 3..]) == "pdf"
    ensures AllowedFile(filename)
  {
    var n := |filename|;
    var tail := filename[n - 3..];
    assert forall k :: 0 <= k < 3 ==> tail[k] != '.' by {
      forall k | 0 <= k < 3
        ensures tail[k] != '.'
      {
        assert Lower(tail)[k] == LowerChar(tail[k]);
      }
    }
    assert filename[n - 4] in filename;
    var i := LastDotBelow(filename, n);
    assert i == Some(n - 4);
    assert Extension(filename) == tail;
  }

  /** Names without a "." are rejected. */
  lemma NoDotRejected(filename: string)
    requires forall k :: 0 <= k < |filename| ==> filename[k] != '.'
    ensures !AllowedFile(filename)
  {
    assert '.' !in filename;
  }

  /** The extension is compared case-insensitively. */
  lemma UpperCaseAccepted()
    ensures AllowedFile("x.PDF")
  {
    var f := "x.PDF";
    assert f[|f| - 3..] == "PDF";
    assert Lower("PDF") == "pdf";
    AllowedFileIff(f);
  }

  /** Only the last extension counts: a ".pdf" inside the name is not enough. */
  lemma InnerPdfRejected()
    ensures !AllowedFile("a.pdf.exe")
  {
    var f := "a.pdf.exe";
    assert f[|f| - 3..] == "exe";
    assert Lower("exe")[0] == 'e';
    AllowedFileIff(f);
  }

  /** Only the last extension counts: an earlier one does not stop a final ".pdf". */
  lemma OuterPdfAccepted()
    ensures AllowedFile("a.exe.pdf")
  {
    var g := "a.exe.pdf";
    assert g[|g| - 3..] == "pdf";
    assert Lower("pdf") == "pdf";
    AllowedFileIff(g);
  }

  /** An empty extension is rejected, an empty stem is not. */
  lemma EmptyPartsAtTheDot()
    ensures !AllowedFile("file.")
    ensures AllowedFile(".pdf")
  {
    var f, g := "file.", ".pdf";
    assert f[|f| - 4] == 'i';
    AllowedFileIff(f);
    assert g[|g| - 3..] == "pdf";
    assert Lower("pdf") == "pdf";
    AllowedFileIff(g);
  }
}
