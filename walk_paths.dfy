/**
 * Each file the loader writes out appears under a path of its own: when every
 * directory lists proper names (non-empty, without a separator) and no name
 * twice among its files or among its subdirectories, no two "File:" headers of
 * a directory's context carry the same path.
 */
module WalkPaths {
  import opened Paths
  import opened ContextLoader

  /** A directory snapshot as a POSIX filesystem can present it. */
  predicate WellFormed(d: Dir)
    decreases d
  {
    (forall i :: 0 <= i < |d.files| ==> ProperName(d.files[i].name))
    && (forall i, j :: 0 <= i < j < |d.files| ==> d.files[i].name != d.files[j].name)
    && (forall i, j :: 0 <= i < j < |d.subdirs| ==> d.subdirs[i].name != d.subdirs[j].name)
    && (forall i :: 0 <= i < |d.subdirs| ==> ProperName(d.subdirs[i].name) && WellFormed(d.subdirs[i].dir))
  }

  /** No two found files share a path. */
  predicate DistinctPaths(found: seq<Located>) {
    forall i, j :: 0 <= i < j < |found| ==> found[i].path != found[j].path
  }

  lemma DistinctAppend(a: seq<Located>, b: seq<Located>)
    requires DistinctPaths(a) && DistinctPaths(b)
    requires forall x, y :: x in a && y in b ==> x.path != y.path
    ensures DistinctPaths(a + b)
  {
    forall i, j | 0 <= i < j < |a + b|
      ensures (a + b)[i].path != (a + b)[j].path
    {
      if j < |a| {
        assert (a + b)[i] == a[i] && (a + b)[j] == a[j];
      } else if i >= |a| {
        assert (a + b)[i] == b[i - |a|] && (a + b)[j] == b[j - |a|];
      } else {
        assert (a + b)[i] == a[i] && a[i] in a;
        assert (a + b)[j] == b[j - |a|] && b[j - |a|] in b;
      }
    }
  }

  /** The files kept from one listing: each sits directly under the directory prefix, under a distinct listed name. */
  lemma {:induction false} FilesInPaths(root: string, files: seq<FileEntry>, endings: seq<string>)
    requires forall i :: 0 <= i < |files| ==> ProperName(files[i].name)
    requires forall i, j :: 0 <= i < j < |files| ==> files[i].name != files[j].name
    ensures DistinctPaths(FilesIn(root, files, endings))
    ensures forall x :: x in FilesIn(root, files, endings) ==>
      x.path == DirPrefix(root) + x.name && ProperName(x.name)
      && exists k :: 0 <= k < |files| && files[k].name == x.name
  {
    if files != [] {
      var init := files[..|files| - 1];
      var f := files[|files| - 1];
      FilesInPaths(root, init, endings);
      var before := FilesIn(root, init, endings);
      var added := if Selected(f.name, endings) then [Located(Join(root, f.name), f.name, f.contents)] else [];
      assert FilesIn(root, files, endings) == before + added;
      JoinProperName(root, f.name);
      forall x, y | x in before && y in added
        ensures x.path != y.path
      {
        var k :| 0 <= k < |init| && init[k].name == x.name;
        assert files[k] == init[k];
        var p := DirPrefix(root);
        assert x.name != f.name;
        assert x.path[|p|..] == x.name && y.path[|p|..] == f.name;
      }
      DistinctAppend(before, added);
      forall x | x in FilesIn(root, files, endings)
        ensures x.path == DirPrefix(root) + x.name && ProperName(x.name)
        ensures exists k :: 0 <= k < |files| && files[k].name == x.name
      {
        if x in before {
          var k :| 0 <= k < |init| && init[k].name == x.name;
          assert files[k] == init[k];
        } else {
          assert x == added[0];
          assert files[|files| - 1].name == x.name;
        }
      }
    }
  }

  /** A path under a subdirectory's prefix starts, after the parent's prefix, with that subdirectory's name and a separator. */
  lemma UnderSubdir(root: string, name: string, path: string)
    requires ProperName(name)
    requires DirPrefix(Join(root, name)) <= path
    ensures DirPrefix(root) <= path
    ensures '/' in path[|DirPrefix(root)|..]
    ensures FirstComponent(path[|DirPrefix(root)|..]) == name
  {
    JoinProperName(root, name);
    var p := DirPrefix(root);
    var q := p + name + "/";
    var r := path[|q|..];
    assert path == q + r;
    assert path[|p|..] == name + ("/" + r);
    assert ("/" + r)[0] == '/';
    assert path[|p|..][|name|] == '/';
    FirstComponentOf(name, "/" + r);
  }

  /**
   * Every file of the walk is found under a path of its own, and all of them
   * lie beneath the prefix of the directory the walk started from.
   */
  lemma {:induction false} WalkPathsDistinct(root: string, d: Dir, endings: seq<string>)
    requires WellFormed(d)
    ensures DistinctPaths(Walk(root, d, endings))
    ensures forall x :: x in Walk(root, d, endings) ==> DirPrefix(root) <= x.path
    decreases d, 1, 0
  {
    var p := DirPrefix(root);
    var own := FilesIn(root, d.files, endings);
    var below := WalkSubdirs(root, d, 0, endings);
    FilesInPaths(root, d.files, endings);
    WalkSubdirsPaths(root, d, 0, endings);
    forall x, y | x in own && y in below
      ensures x.path != y.path
    {
      assert x.path[|p|..] == x.name;
    }
    DistinctAppend(own, below);
  }

  lemma {:induction false} WalkSubdirsPaths(root: string, d: Dir, i: nat, endings: seq<string>)
    requires WellFormed(d) && i <= |d.subdirs|
    ensures DistinctPaths(WalkSubdirs(root, d, i, endings))
    ensures forall x :: x in WalkSubdirs(root, d, i, endings) ==>
      DirPrefix(root) <= x.path && '/' in x.path[|DirPrefix(root)|..]
      && exists j :: i <= j < |d.subdirs| && FirstComponent(x.path[|DirPrefix(root)|..]) == d.subdirs[j].name
    decreases d, 0, |d.subdirs| - i
  {
    if i < |d.subdirs| {
      var p := DirPrefix(root);
      var s := d.subdirs[i];
      var head := if IsHidden(s.name) then [] else Walk(Join(root, s.name), s.dir, endings);
      var tail := WalkSubdirs(root, d, i + 1, endings);
      assert WalkSubdirs(root, d, i, endings) == head + tail;
      WalkSubdirsPaths(root, d, i + 1, endings);
      if !IsHidden(s.name) {
        WalkPathsDistinct(Join(root, s.name), s.dir, endings);
      }
      forall x | x in head
        ensures p <= x.path && '/' in x.path[|p|..] && FirstComponent(x.path[|p|..]) == s.name
      {
        UnderSubdir(root, s.name, x.path);
      }
      forall x, y | x in head && y in tail
        ensures x.path != y.path
      {
        var j :| i + 1 <= j < |d.subdirs| && FirstComponent(y.path[|p|..]) == d.subdirs[j].name;
        assert d.subdirs[i].name != d.subdirs[j].name;
      }
      DistinctAppend(head, tail);
    }
  }
}
