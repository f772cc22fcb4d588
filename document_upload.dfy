/**
 `load_and_cache_document` (app.py): write the uploaded bytes to a temporary file named
 by their hash, hand the file to the PDF or DOCX loader by MIME type, and remove the
 file whatever happens. The hash and the loaders are parameters.
 */
module DocumentUpload {
  import opened Wrappers
  import opened Text
  import opened Messages
  import opened FileSystem

  newtype byte = x: int | 0 <= x < 256

  const TempDir := "temp_docs_cache"
  const PdfType := "application/pdf"
  const DocxType := "application/vnd.openxmlformats-officedocument.wordprocessingml.document"

  /** Python's `s.rfind(c)` for one character: the last index holding `c`, or -1. */
  function LastIndexOf(s: string, c: char): (r: int)
    ensures -1 <= r < |s|
    ensures r >= 0 ==> s[r] == c
    ensures forall k :: r < k < |s| ==> s[k] != c
    decreases |s|
  {
    if |s| == 0 then -1
    else if s[|s| - 1] == c then |s| - 1
    else LastIndexOf(s[..|s| - 1], c)
  }

  /** The last path component of `p` holds a dot that follows some character other than a dot. */
  ghost predicate HasExtension(p: string) {
    exists i: int, j: int | LastIndexOf(p, '/') < i < j < |p| :: p[i] != '.' && p[j] == '.'
  }

  /**
   `os.path.splitext(p)` on POSIX: the extension runs from the last dot of the last path
   component, unless everything before that dot in the component is dots (".bashrc").
   */
  function SplitExt(p: string): (r: (string, string))
    ensures r.0 + r.1 == p
    ensures r.1 != "" <==> HasExtension(p)
    ensures r.1 != "" ==> |r.0| == LastIndexOf(p, '.')
    ensures r.1 != "" ==> r.1[0] == '.'
    ensures forall k :: 0 < k < |r.1| ==> r.1[k] != '.' && r.1[k] != '/'
  {
    var sepIndex := LastIndexOf(p, '/');
    var dotIndex := LastIndexOf(p, '.');
    if dotIndex > sepIndex && exists k | sepIndex + 1 <= k < dotIndex :: p[k] != '.'
    then
      assert p[..dotIndex] + p[dotIndex..] == p;
      assert HasExtension(p) by {
        var k :| sepIndex + 1 <= k < dotIndex && p[k] != '.';
        assert LastIndexOf(p, '/') < k < dotIndex < |p| && p[k] != '.' && p[dotIndex] == '.';
      }
      (p[..dotIndex], p[dotIndex..])
    else
      assert !HasExtension(p) by {
        forall i: int, j: int | sepIndex < i < j < |p| && p[j] == '.'
          ensures p[i] == '.'
        {
          assert dotIndex >= j;
        }
      }
      (p, "")
  }

  /** `os.path.join(a, b)` on POSIX for two parts. */
  function PathJoin(a: string, b: string): (r: string)
    ensures StartsWith(b, "/") ==> r == b
    ensures !StartsWith(b, "/") ==> |a| + |b| <= |r| <= |a| + |b| + 1 && StartsWith(r, a) && r[|r| - |b|..] == b
    ensures !StartsWith(b, "/") ==> (r == a + b <==> a == "" || a[|a| - 1] == '/')
    ensures !StartsWith(b, "/") && |r| == |a| + |b| + 1 ==> r[|a|] == '/'
  {
    if StartsWith(b, "/") then b
    else if a == "" || a[|a| - 1] == '/' then a + b
    else a + "/" + b
  }

  /** `os.path.join("temp_docs_cache", f"{md5(content).hexdigest()}{extension}")`. */
  function TempPath(md5: seq<byte> -> string, content: seq<byte>, fileName: string): string {
    PathJoin(TempDir, md5(content) + SplitExt(fileName).1)
  }

  /** A temporary file is never the cache directory itself, so removing it keeps the directory. */
  lemma TempPathIsNotTempDir(md5: seq<byte> -> string, content: seq<byte>, fileName: string)
    ensures TempPath(md5, content, fileName) != TempDir
  {
    var b := md5(content) + SplitExt(fileName).1;
    if StartsWith(b, "/") {
      assert b[0] == '/' && TempDir[0] == 't';
    } else {
      assert |PathJoin(TempDir, b)| >= |TempDir| + 1;
    }
  }

  /** A hex digest names a file directly inside the cache directory, keeping the upload's extension. */
  lemma TempPathLayout(md5: seq<byte> -> string, content: seq<byte>, fileName: string)
    requires md5(content) != "" && md5(content)[0] != '/'
    ensures TempPath(md5, content, fileName) == TempDir + "/" + md5(content) + SplitExt(fileName).1
  {
    var b := md5(content) + SplitExt(fileName).1;
    assert b[0] == md5(content)[0];
  }

  /** The document loaders; `None` stands for a loader that raised. */
  datatype Loaders = Loaders(pdf: string -> Option<seq<Document>>, docx: string -> Option<seq<Document>>)

  /** What reading the temporary file yields: the loader for the MIME type, or `[]` for any other type. */
  function LoadByType(path: string, fileType: string, loaders: Loaders): (r: Option<seq<Document>>)
    ensures fileType == PdfType ==> r == loaders.pdf(path)
    ensures fileType == DocxType ==> r == loaders.docx(path)
    ensures fileType != PdfType && fileType != DocxType ==> r == Some([])
  {
    if fileType == PdfType then loaders.pdf(path)
    else if fileType == DocxType then loaders.docx(path)
    else Some([])
  }

  /** `load_and_cache_document`; `None` is an exception from a loader, raised after the clean-up. */
  method LoadAndCacheDocument(disk: Disk, content: seq<byte>, fileName: string, fileType: string,
                              md5: seq<byte> -> string, loaders: Loaders)
    returns (r: Option<seq<Document>>)
    modifies disk
    ensures r == LoadByType(TempPath(md5, content, fileName), fileType, loaders)
    ensures disk.paths == (old(disk.paths) + {TempDir}) - {TempPath(md5, content, fileName)}
  {
    var tempPath := TempPath(md5, content, fileName);
    disk.Create(TempDir);
    disk.Create(tempPath);
    if fileType == PdfType {
      r := loaders.pdf(tempPath);
    } else if fileType == DocxType {
      r := loaders.docx(tempPath);
    } else {
      r := Some([]);
    }
    // the `finally` block
    var present := disk.Exists(tempPath);
    if present {
      disk.Remove(tempPath);
    }
    TempPathIsNotTempDir(md5, content, fileName);
  }
}
