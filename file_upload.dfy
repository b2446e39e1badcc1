/**
 * The `useFileUpload` hook: it validates a batch of files against the
 * configured types, size and count, uploads them, appends the results to
 * `uploadedFiles`, and removes an entry again on delete.  The upload and
 * delete requests themselves are parameters: `upload(i)` is the result of
 * the `i`-th file's request, `None` when it failed.
 */
module FileUpload {
  import opened Wrappers

  const JpegType := "image/jpeg"
  const PngType := "image/png"
  const WebpType := "image/webp"
  const DefaultFolder := "deshi_directive"

  /** 5 MiB. */
  const DefaultMaxFileSize: int := 5 * 1024 * 1024

  /** The options object; a left-out option takes its default. */
  datatype UploadOptions = UploadOptions(
    folder: Option<string>,
    maxFiles: Option<int>,
    acceptedFileTypes: Option<seq<string>>,
    maxFileSize: Option<int>)

  datatype Config = Config(folder: string, maxFiles: int, acceptedFileTypes: seq<string>, maxFileSize: int)

  /** The destructuring with defaults. */
  function ConfigOf(o: UploadOptions): Config {
    Config(o.folder.GetOr(DefaultFolder), o.maxFiles.GetOr(1),
           o.acceptedFileTypes.GetOr([JpegType, PngType, WebpType]), o.maxFileSize.GetOr(DefaultMaxFileSize))
  }

  /** Without options: one file of at most 5 MiB, a JPEG, PNG or WebP image, into the app's folder. */
  lemma DefaultConfig()
    ensures ConfigOf(UploadOptions(None, None, None, None))
         == Config("deshi_directive", 1, ["image/jpeg", "image/png", "image/webp"], 5242880)
  {
  }

  /** An option that is given replaces its default, and only that one. */
  lemma GivenOptionsWin(o: UploadOptions)
    ensures o.maxFiles.Some? ==> ConfigOf(o).maxFiles == o.maxFiles.value
    ensures o.maxFileSize.Some? ==> ConfigOf(o).maxFileSize == o.maxFileSize.value
    ensures o.acceptedFileTypes.Some? ==> ConfigOf(o).acceptedFileTypes == o.acceptedFileTypes.value
    ensures o.folder.Some? ==> ConfigOf(o).folder == o.folder.value
  {
  }

  /** A file picked by the user: its name, MIME type and size in bytes. */
  datatype File = File(name: string, mimeType: string, size: int)

  /** Cloudinary's answer for one stored file. */
  datatype UploadedFile = UploadedFile(
    publicId: string, secureUrl: string, width: int, height: int,
    format: string, resourceType: string, createdAt: string, bytes: int)

  /** Why `validateFile` refuses a file; the type is checked first. */
  datatype Rejection = UnsupportedType(mimeType: string) | TooLarge

  function Rejects(c: Config, f: File): (r: Option<Rejection>)
    ensures r == Some(UnsupportedType(f.mimeType)) <==> f.mimeType !in c.acceptedFileTypes
    ensures r == Some(TooLarge) <==> f.mimeType in c.acceptedFileTypes && f.size > c.maxFileSize
  {
    if f.mimeType !in c.acceptedFileTypes then Some(UnsupportedType(f.mimeType))
    else if f.size > c.maxFileSize then Some(TooLarge)
    else None
  }

  /** `validateFile`. */
  predicate ValidFile(c: Config, f: File) {
    Rejects(c, f).None?
  }

  /** A file is valid exactly when its type is listed and it is no larger than the limit. */
  lemma ValidFileIff(c: Config, f: File)
    ensures ValidFile(c, f) <==> f.mimeType in c.acceptedFileTypes && f.size <= c.maxFileSize
  {
  }

  /** With the defaults, a file of exactly 5 MiB passes and one byte more does not. */
  lemma SizeLimitInclusive(name: string)
    ensures ValidFile(ConfigOf(UploadOptions(None, None, None, None)), File(name, "image/png", 5242880))
    ensures !ValidFile(ConfigOf(UploadOptions(None, None, None, None)), File(name, "image/png", 5242881))
  {
  }

  predicate AllValid(c: Config, files: seq<File>) {
    forall i :: 0 <= i < |files| ==> ValidFile(c, files[i])
  }

  /**
   * `Promise.all` over the first `n` requests: every result in file order,
   * or `None` when one of them failed.
   */
  function Results(upload: nat -> Option<UploadedFile>, n: nat): Option<seq<UploadedFile>> {
    if n == 0 then Some([])
    else match Results(upload, n - 1)
      case None => None
      case Some(front) =>
        match upload(n - 1)
        case None => None
        case Some(x) => Some(front + [x])
  }

  /** All requests succeed exactly when none fails, and then the results are theirs, in file order. */
  lemma {:induction false} ResultsInOrder(upload: nat -> Option<UploadedFile>, n: nat)
    ensures Results(upload, n).Some? <==> forall i :: 0 <= i < n ==> upload(i).Some?
    ensures var r := Results(upload, n);
      r.Some? ==> |r.value| == n && forall i :: 0 <= i < n ==> r.value[i] == upload(i).value
  {
    if n > 0 {
      ResultsInOrder(upload, n - 1);
    }
  }

  /** The entries whose `public_id` is not `publicId`, in their order. */
  function WithoutId(s: seq<UploadedFile>, publicId: string): (r: seq<UploadedFile>)
    ensures |r| <= |s|
  {
    if s == [] then []
    else (if s[0].publicId != publicId then [s[0]] else []) + WithoutId(s[1..], publicId)
  }

  /** Deleting keeps exactly the entries with another `public_id`. */
  lemma {:induction false} WithoutIdExactly(s: seq<UploadedFile>, publicId: string, x: UploadedFile)
    ensures x in WithoutId(s, publicId) <==> x in s && x.publicId != publicId
  {
    if s != [] {
      WithoutIdExactly(s[1..], publicId, x);
      assert s == [s[0]] + s[1..];
    }
  }

  /** Filtering respects order: it works part by part. */
  lemma {:induction false} WithoutIdSplits(s: seq<UploadedFile>, t: seq<UploadedFile>, publicId: string)
    ensures WithoutId(s + t, publicId) == WithoutId(s, publicId) + WithoutId(t, publicId)
  {
    if s == [] {
      assert s + t == t;
    } else {
      assert (s + t)[1..] == s[1..] + t;
      WithoutIdSplits(s[1..], t, publicId);
    }
  }

  /** A list with no entry under that id is left as it is. */
  lemma {:induction false} WithoutAbsentId(s: seq<UploadedFile>, publicId: string)
    requires forall i :: 0 <= i < |s| ==> s[i].publicId != publicId
    ensures WithoutId(s, publicId) == s
  {
    if s != [] {
      WithoutAbsentId(s[1..], publicId);
      assert s == [s[0]] + s[1..];
    }
  }

  /** The hook's state. */
  class FileUploader {
    const config: Config
    var isUploading: bool
    var uploadedFiles: seq<UploadedFile>

    constructor(o: UploadOptions)
      ensures config == ConfigOf(o) && !isUploading && uploadedFiles == []
    {
      config := ConfigOf(o);
      isUploading := false;
      uploadedFiles := [];
    }

    /** The check loop: `false` at the first file `validateFile` refuses. */
    method CheckAll(files: seq<File>) returns (ok: bool)
      ensures ok <==> AllValid(config, files)
    {
      var i := 0;
      while i < |files|
        invariant 0 <= i <= |files|
        invariant forall j :: 0 <= j < i ==> ValidFile(config, files[j])
      {
        if !ValidFile(config, files[i]) {
          return false;
        }
        i := i + 1;
      }
      return true;
    }

    /**
     * `uploadFiles`.  Too many files, or one invalid file, returns `[]`
     * before anything is sent or changed.  Otherwise every file is sent;
     * when all succeed their results are appended, in order, and returned,
     * and when one fails none is kept and `[]` is returned.  Either way
     * `isUploading` ends false.
     */
    method UploadFiles(files: seq<File>, upload: nat -> Option<UploadedFile>) returns (r: seq<UploadedFile>)
      modifies this`isUploading, this`uploadedFiles
      ensures (|files| > config.maxFiles || !AllValid(config, files)) ==>
        r == [] && isUploading == old(isUploading) && uploadedFiles == old(uploadedFiles)
      ensures (|files| <= config.maxFiles && AllValid(config, files)) ==>
        && !isUploading
        && (Results(upload, |files|).Some? ==> r == Results(upload, |files|).value && uploadedFiles == old(uploadedFiles) + r)
        && (Results(upload, |files|).None? ==> r == [] && uploadedFiles == old(uploadedFiles))
    {
      if |files| > config.maxFiles {
        return [];
      }
      var ok := CheckAll(files);
      if !ok {
        return [];
      }
      isUploading := true;
      var results := Results(upload, |files|);
      if results.Some? {
        uploadedFiles := uploadedFiles + results.value;
        r := results.value;
      } else {
        r := [];
      }
      isUploading := false;
    }

    /** `deleteFile`: `ok` is whether the delete request succeeded. */
    method DeleteFile(publicId: string, ok: bool) returns (r: bool)
      modifies this`uploadedFiles
      ensures r == ok
      ensures uploadedFiles == if ok then WithoutId(old(uploadedFiles), publicId) else old(uploadedFiles)
    {
      if !ok {
        return false;
      }
      uploadedFiles := WithoutId(uploadedFiles, publicId);
      return true;
    }

    /** `clearFiles`. */
    method ClearFiles()
      modifies this`uploadedFiles
      ensures uploadedFiles == []
    {
      uploadedFiles := [];
    }
  }
}
