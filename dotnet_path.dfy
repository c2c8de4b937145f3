/**
 * System.IO.Path as the DSC operation uses it, on Windows: Combine joins with a
 * back-slash, GetDirectoryName keeps what precedes the last directory separator,
 * GetFileNameWithoutExtension keeps what follows the last separator (or volume
 * colon) and drops the last extension.
 */
module DotNetPath {
  import opened Wrappers

  const DirectorySeparatorChar: char := '\\'

  /** Path.DirectorySeparatorChar or Path.AltDirectorySeparatorChar. */
  predicate IsDirectorySeparator(c: char)
  {
    c == '\\' || c == '/'
  }

  /** Where a file name starts after: a directory separator or the volume separator ':'. */
  predicate IsNameBoundary(c: char)
  {
    IsDirectorySeparator(c) || c == ':'
  }

  predicate HasNoNameBoundary(s: string)
  {
    forall i :: 0 <= i < |s| ==> !IsNameBoundary(s[i])
  }

  /** The index of the last character of `s` that satisfies `p`. */
  function LastIndexWhere(s: string, p: char -> bool): (r: Option<nat>)
    ensures r.Some? ==> r.value < |s| && p(s[r.value]) && forall j :: r.value < j < |s| ==> !p(s[j])
    ensures r.None? ==> forall j :: 0 <= j < |s| ==> !p(s[j])
    decreases |s|
  {
    if s == [] then None
    else if p(s[|s| - 1]) then Some(|s| - 1)
    else LastIndexWhere(s[..|s| - 1], p)
  }

  /** Path.Combine(a, b) */
  function Combine(a: string, b: string): string
  {
    a + [DirectorySeparatorChar] + b
  }

  /** Path.GetDirectoryName: empty when the path holds no directory. */
  function GetDirectoryName(path: string): string
  {
    match LastIndexWhere(path, IsDirectorySeparator)
    case None => ""
    case Some(i) => path[..i]
  }

  /** Path.GetFileName */
  function GetFileName(path: string): (name: string)
    ensures HasNoNameBoundary(name)
  {
    match LastIndexWhere(path, IsNameBoundary)
    case None => path
    case Some(i) => path[i + 1..]
  }

  /** Path.GetFileNameWithoutExtension */
  function GetFileNameWithoutExtension(path: string): (name: string)
    ensures HasNoNameBoundary(name)
  {
    var file := GetFileName(path);
    match LastIndexWhere(file, c => c == '.')
    case None => file
    case Some(i) => file[..i]
  }

  /** Joining a directory and a plain file name, and then asking for the directory, gives the directory back. */
  lemma {:induction false} DirectoryOfCombine(dir: string, file: string)
    requires HasNoNameBoundary(file)
    ensures GetDirectoryName(Combine(dir, file)) == dir
  {
    var path := Combine(dir, file);
    var r := LastIndexWhere(path, IsDirectorySeparator);
    assert IsDirectorySeparator(path[|dir|]);
    assert r.Some?;
    assert r.value == |dir|;
    assert path[..|dir|] == dir;
  }

  /** ... and asking for the file name gives the file name back. */
  lemma {:induction false} FileNameOfCombine(dir: string, file: string)
    requires HasNoNameBoundary(file)
    ensures GetFileName(Combine(dir, file)) == file
  {
    var path := Combine(dir, file);
    var r := LastIndexWhere(path, IsNameBoundary);
    assert IsNameBoundary(path[|dir|]);
    assert r.Some?;
    assert r.value == |dir|;
    assert path[|dir| + 1..] == file;
  }
}
