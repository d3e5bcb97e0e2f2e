/**
 * The parts of Python's POSIX path handling (posixpath) that the context
 * loader relies on: the hidden-name test, splitext and join.
 */
module Paths {

  /** A directory entry is hidden when its name starts with a dot. */
  function IsHidden(name: string): (hidden: bool)
    ensures hidden <==> "." <= name
  {
    |name| > 0 && name[0] == '.'
  }

  /** The index of the last occurrence of c in s, or -1 when there is none (str.rfind). */
  function RFind(s: string, c: char): (i: int)
    ensures -1 <= i < |s|
    ensures 0 <= i ==> s[i] == c
    ensures forall j :: i < j < |s| ==> s[j] != c
  {
    if s == [] then -1
    else if s[|s| - 1] == c then |s| - 1
    else RFind(s[..|s| - 1], c)
  }

  predicate AllDots(s: string) {
    forall k :: 0 <= k < |s| ==> s[k] == '.'
  }

  /**
   * os.path.splitext: the extension runs from the last dot of the final path
   * component, dot included, unless everything in that component before the
   * dot is a dot too (".bashrc" has no extension); otherwise it is empty.
   */
  function SplitExt(p: string): (parts: (string, string))
    ensures parts.0 + parts.1 == p
  {
    var sep := RFind(p, '/');
    var dot := RFind(p, '.');
    if sep < dot && !AllDots(p[sep + 1..dot]) then (p[..dot], p[dot..]) else (p, [])
  }

  /** A non-empty extension is one dot followed by neither a dot nor a separator. */
  lemma ExtensionShape(p: string)
    ensures var ext := SplitExt(p).1;
      ext == [] || (ext[0] == '.' && '.' !in ext[1..] && '/' !in ext)
  {
    var sep := RFind(p, '/');
    var dot := RFind(p, '.');
    var ext := SplitExt(p).1;
    if ext != [] {
      assert ext == p[dot..];
      forall k | 0 <= k < |ext|
        ensures ext[k] == p[dot + k] && ext[k] != '/'
        ensures 0 < k ==> ext[k] != '.'
      {
      }
      assert ext[1..] == p[dot + 1..];
    }
  }

  function Extension(name: string): string {
    SplitExt(name).1
  }

  /**
   * For a directory entry name that is not hidden, the extension is empty
   * exactly when the name has no dot; together with SplitExt's contract this
   * makes it the part from the last dot onwards.
   */
  lemma VisibleExtension(name: string)
    requires !IsHidden(name) && '/' !in name
    ensures Extension(name) == [] <==> '.' !in name
  {
    var dot := RFind(name, '.');
    assert RFind(name, '/') == -1;
    if '.' in name {
      assert 0 < dot;
      assert name[..dot][0] != '.';
    }
  }

  /**
   * os.path.join of a directory and one entry name: an absolute name replaces
   * the directory; otherwise the result is the directory, at most one added
   * separator, then the name.
   */
  function Join(a: string, b: string): (path: string)
    ensures |b| > 0 && b[0] == '/' ==> path == b
    ensures !(|b| > 0 && b[0] == '/') ==>
      (&& a <= path && |b| <= |path| && path[|path| - |b|..] == b
       && |a| + |b| <= |path| <= |a| + |b| + 1
       && (|path| > |a| + |b| ==> path[|a|] == '/'))
  {
    if |b| > 0 && b[0] == '/' then b
    else if a == [] || a[|a| - 1] == '/' then a + b
    else a + "/" + b
  }

  /** A name a directory can list: not empty and without a separator. */
  predicate ProperName(name: string) {
    name != [] && '/' !in name
  }

  /** What os.path.join puts in front of an entry name: the directory and, unless it already ends in one, a separator. */
  function DirPrefix(a: string): string {
    if a == [] || a[|a| - 1] == '/' then a else a + "/"
  }

  /** Joining a proper name appends it after the directory prefix, and the result's own prefix ends in that name and a separator. */
  lemma JoinProperName(a: string, name: string)
    requires ProperName(name)
    ensures Join(a, name) == DirPrefix(a) + name
    ensures DirPrefix(Join(a, name)) == DirPrefix(a) + name + "/"
  {
    assert name[0] in name;
    assert name[|name| - 1] in name;
    var j := DirPrefix(a) + name;
    assert j[|j| - 1] == name[|name| - 1];
  }

  /** The path component a relative path starts with: everything before its first separator. */
  function FirstComponent(s: string): string {
    if s == [] || s[0] == '/' then [] else [s[0]] + FirstComponent(s[1..])
  }

  lemma {:induction false} FirstComponentOf(name: string, rest: string)
    requires '/' !in name
    requires rest == [] || rest[0] == '/'
    ensures FirstComponent(name + rest) == name
  {
    if name != [] {
      assert (name + rest)[0] == name[0];
      assert (name + rest)[1..] == name[1..] + rest;
      FirstComponentOf(name[1..], rest);
    } else {
      assert name + rest == rest;
    }
  }
}
