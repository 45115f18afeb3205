/** The parts of .NET Framework's System.IO.Path that the cache and the
    loader use, with Windows separators: '\' and '/' separate directories and
    ':' ends a volume name. */
module Paths {
  import opened Wrappers

  predicate IsDirectorySeparator(c: char) {
    c == '\\' || c == '/'
  }

  /** A character after which a file name starts. */
  predicate IsNameBoundary(c: char) {
    IsDirectorySeparator(c) || c == ':'
  }

  predicate IsPathRooted(p: string) {
    (|p| >= 1 && IsDirectorySeparator(p[0])) || (|p| >= 2 && p[1] == ':')
  }

  /** A file name: no separator inside. */
  predicate IsPlainName(n: string) {
    forall i :: 0 <= i < |n| ==> !IsNameBoundary(n[i])
  }

  /** Path.Combine(a, b) */
  function Combine(a: string, b: string): (r: string)
    ensures b != "" && a != "" && !IsPathRooted(b) ==> |b| <= |r| && r[|r| - |b|..] == b
  {
    if b == "" then a
    else if a == "" then b
    else if IsPathRooted(b) then b
    else if IsNameBoundary(a[|a| - 1]) then a + b
    else a + "\\" + b
  }

  /** The index of the last character satisfying IsNameBoundary, or -1. */
  function LastBoundary(s: string): (i: int)
    ensures -1 <= i < |s|
    ensures i >= 0 ==> IsNameBoundary(s[i])
    ensures forall j :: i < j < |s| ==> !IsNameBoundary(s[j])
    decreases |s|
  {
    if |s| == 0 then -1
    else if IsNameBoundary(s[|s| - 1]) then |s| - 1
    else LastBoundary(s[..|s| - 1])
  }

  /** The index of the last '.', or -1. */
  function LastDot(s: string): (i: int)
    ensures -1 <= i < |s|
    ensures i >= 0 ==> s[i] == '.'
    ensures forall j :: i < j < |s| ==> s[j] != '.'
    decreases |s|
  {
    if |s| == 0 then -1
    else if s[|s| - 1] == '.' then |s| - 1
    else LastDot(s[..|s| - 1])
  }

  /** Path.GetFileName */
  function GetFileName(p: string): (r: string)
    ensures IsPlainName(r)
    ensures |r| <= |p| && r == p[|p| - |r|..]
  {
    p[LastBoundary(p) + 1..]
  }

  /** Path.GetFileNameWithoutExtension: the file name up to its last '.'. */
  function GetFileNameWithoutExtension(p: string): string {
    var name := GetFileName(p);
    var i := LastDot(name);
    if i < 0 then name else name[..i]
  }

  /** What Path.GetExtension can return for a non-null path: empty, or a
      '.' followed by characters that are neither dots nor separators. */
  predicate IsExtension(e: string) {
    e == "" || (e[0] == '.' && forall j :: 1 <= j < |e| ==> e[j] != '.' && !IsNameBoundary(e[j]))
  }

  /** Path.GetExtension: null for null, "" when the file name has no '.' or
      ends in one, otherwise the file name from its last '.'. */
  function GetExtension(p: Option<string>): (r: Option<string>)
    ensures p.None? <==> r.None?
    ensures r.Some? ==> IsExtension(r.value)
  {
    match p
    case None => None
    case Some(s) =>
      var name := GetFileName(s);
      var i := LastDot(name);
      if i < 0 || i == |name| - 1 then Some("") else Some(name[i..])
  }

  /** Combining a folder with a plain name and taking the file name back
      gives the name. */
  lemma CombineFileName(folder: string, name: string)
    requires name != "" && IsPlainName(name) && !IsPathRooted(name)
    ensures GetFileName(Combine(folder, name)) == name
  {
    var r := Combine(folder, name);
    var k := |r| - |name|;
    assert r[k..] == name;
    assert k == 0 || IsNameBoundary(r[k - 1]);
    assert LastBoundary(r) == k - 1;
  }

  /** A file stored as `key + extension` in any folder has `key` as its name
      without extension, provided the key has no dot or separator. */
  lemma StemOfStoredFile(folder: string, key: string, ext: string)
    requires key != "" && IsPlainName(key) && '.' !in key
    requires IsExtension(ext)
    requires !IsPathRooted(key + ext)
    ensures GetFileNameWithoutExtension(Combine(folder, key + ext)) == key
  {
    var name := key + ext;
    assert IsPlainName(name) by {
      forall i | 0 <= i < |name| ensures !IsNameBoundary(name[i]) {
        if i >= |key| {
          assert name[i] == ext[i - |key|];
          if i > |key| { assert !IsNameBoundary(ext[i - |key|]); }
        }
      }
    }
    CombineFileName(folder, name);
    var d := LastDot(name);
    if ext == "" {
      assert name == key;
      assert forall j :: 0 <= j < |name| ==> name[j] != '.';
    } else {
      assert name[|key|] == '.';
      forall j | |key| < j < |name| ensures name[j] != '.' {
        assert name[j] == ext[j - |key|];
      }
      assert d == |key|;
      assert name[..d] == key;
    }
  }
}
