/** The path descriptor (`asset_meta`) that every loader and writer receives:
    the path as given, the file name without directory and extension, and the
    extension with its leading dot. The split follows the POSIX reading of
    `std::filesystem::path::filename()` and `extension()`. */
module Meta {

  datatype AssetMeta = AssetMeta(filepath: string, filename: string, extension: string)

  /** Index of the last occurrence of `c` in `s`, or -1 when there is none. */
  function LastIndexOf(s: string, c: char): (k: int)
    ensures -1 <= k < |s|
    ensures k >= 0 ==> s[k] == c
    ensures forall j :: k < j < |s| ==> s[j] != c
  {
    if s == [] then -1
    else if s[|s| - 1] == c then |s| - 1
    else LastIndexOf(s[..|s| - 1], c)
  }

  /** The final segment of a path: everything after its last '/'. Its
      shape is stated in `FileNameIsLastSegment`, kept apart so that proofs
      unfolding a descriptor do not carry it. */
  function FileName(path: string): (r: string)
    ensures |r| <= |path|
  {
    path[LastIndexOf(path, '/') + 1..]
  }

  /** The file name is a suffix of the path that holds no '/', and it is
      the whole path or is preceded by a '/'. */
  lemma FileNameIsLastSegment(path: string)
    ensures var r := FileName(path);
      && (forall i :: 0 <= i < |r| ==> r[i] != '/')
      && path[|path| - |r|..] == r
      && (|r| < |path| ==> path[|path| - |r| - 1] == '/')
  {
  }

  /** Where the extension of a file name starts: at its last dot, unless that
      dot is its first character or the name is "." or "..", in which case the
      extension is empty and starts at the end. */
  function ExtensionStart(name: string): (k: nat)
    ensures k <= |name|
    ensures k < |name| ==> 0 < k && name[k] == '.'
    ensures k < |name| ==> forall j :: k < j < |name| ==> name[j] != '.'
    ensures k == |name| ==> name == "." || name == ".." || forall j :: 0 < j < |name| ==> name[j] != '.'
    ensures name == "." || name == ".." ==> k == |name|
  {
    if name == "." || name == ".." then |name|
    else
      var d := LastIndexOf(name, '.');
      if d <= 0 then |name| else d
  }

  /** `asset_meta::construct_meta_from_filepath`: the path is kept as given. */
  function MetaOf(filepath: string): (r: AssetMeta)
    ensures r.filepath == filepath
  {
    var name := FileName(filepath);
    var k := ExtensionStart(name);
    AssetMeta(filepath, name[..k], name[k..])
  }

  /** The file name and the extension of a descriptor together make up the
      final segment of its path, which holds no separator; the extension is
      empty or is one dot followed by characters that are not dots, and it is
      not empty when the segment has a dot after its first character and is
      neither "." nor "..". */
  lemma MetaOfSplitsFileName(filepath: string)
    ensures MetaOf(filepath).filename + MetaOf(filepath).extension == FileName(filepath)
    ensures forall i :: 0 <= i < |FileName(filepath)| ==> FileName(filepath)[i] != '/'
    ensures var e := MetaOf(filepath).extension;
      && (e == [] || e[0] == '.')
      && (forall i :: 1 <= i < |e| ==> e[i] != '.')
    ensures var n := FileName(filepath);
      n != "." && n != ".." && (exists j :: 0 < j < |n| && n[j] == '.')
      ==> MetaOf(filepath).extension != []
  {
    var name := FileName(filepath);
    var k := ExtensionStart(name);
    assert name[..k] + name[k..] == name;
  }

  /** A name with neither separator nor dot is its own file name, without extension. */
  lemma MetaOfPlainName(name: string)
    requires forall i :: 0 <= i < |name| ==> name[i] != '/' && name[i] != '.'
    ensures MetaOf(name).filename == name && MetaOf(name).extension == ""
  {
    assert LastIndexOf(name, '/') == -1;
    assert name[0..] == name;
    assert LastIndexOf(name, '.') == -1;
  }
}
