/** Upload validation (api/helper-methods/checkFileType.js). */
module FileType {
  import opened Common

  /** A file object produced by the form parser: its MIME type and its size in bytes. */
  datatype File = File(mimeType: string, size: int)

  /** The `files` entry of a parsed form: missing (null), a single file object, or an array. */
  datatype Upload = NoFiles | One(file: File) | Several(files: seq<File>)

  const AllowedTypes: seq<string> := ["image/jpg", "image/jpeg", "image/png"]

  /** `fileFilter`: the MIME type is one of the three allowed image types. */
  function FileFilter(f: File): (allowed: bool)
    ensures allowed <==> f.mimeType == "image/jpg" || f.mimeType == "image/jpeg" || f.mimeType == "image/png"
  {
    f.mimeType in AllowedTypes
  }

  /** `isFileValid`: rejects null, a disallowed type, and an empty or negative size. */
  function IsFileValid(f: Option<File>): (valid: bool)
    ensures valid <==> f.Some? && FileFilter(f.value) && f.value.size > 0
    ensures f.Some? && f.value.size <= 0 ==> !valid
  {
    if f.None? || !FileFilter(f.value) || f.value.size <= 0 then false else true
  }

  /** `areFilesValid`: a non-array is judged by `IsFileValid`; an array only by the types of its
      elements, walking all of them and clearing a flag on each disallowed one. */
  method AreFilesValid(u: Upload) returns (valid: bool)
    ensures u.NoFiles? ==> !valid
    ensures u.One? ==> valid == IsFileValid(Some(u.file))
    ensures u.Several? ==> (valid <==> forall i :: 0 <= i < |u.files| ==> FileFilter(u.files[i]))
  {
    match u
    case NoFiles =>
      valid := IsFileValid(None);
    case One(f) =>
      valid := IsFileValid(Some(f));
    case Several(files) =>
      var allFilesValid := true;
      for i := 0 to |files|
        invariant allFilesValid <==> forall j :: 0 <= j < i ==> FileFilter(files[j])
      {
        if !FileFilter(files[i]) {
          allFilesValid := false;
        }
      }
      valid := allFilesValid;
  }
}
