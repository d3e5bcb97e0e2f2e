/**
 * The context loader (GptClient._concatenate_files): a single file is read
 * verbatim, a directory is walked top-down and every visible file with an
 * allowed extension is written out under a "File: <path>" header.
 *
 * The filesystem is an abstract snapshot: a directory lists its files and its
 * subdirectories, each in the order the operating system lists them.
 */
module ContextLoader {
  import opened Paths

  datatype FileEntry = FileEntry(name: string, contents: string)
  datatype Dir = Dir(files: seq<FileEntry>, subdirs: seq<SubDir>)
  datatype SubDir = SubDir(name: string, dir: Dir)

  /** What the filesystem holds at a path. */
  datatype PathTarget = RegularFile(contents: string) | Directory(dir: Dir) | Absent

  /** A file the walk reports: the path it was reached by, its name and its text. */
  datatype Located = Located(path: string, name: string, contents: string)

  /** A file of the unpruned listing, and whether some directory on its way down is hidden. */
  datatype Sighting = Sighting(file: Located, concealed: bool)

  /** The walk's pending stack entry: a directory and the path it is reached by. */
  datatype Frame = Frame(root: string, dir: Dir)

  /** A file name is kept when it is not hidden and its extension is allowed. */
  predicate Selected(name: string, endings: seq<string>) {
    !IsHidden(name) && Extension(name) in endings
  }

  function Block(file: Located): string {
    ("File: " + file.path + "\n") + (file.contents + "\n\n")
  }

  /** The text written out for a sequence of files, in order. */
  function Render(found: seq<Located>): string {
    if found == [] then "" else Render(found[..|found| - 1]) + Block(found[|found| - 1])
  }

  // ---------------------------------------------------------------------------
  // The walk as the program performs it: hidden subdirectories are pruned.

  /** The kept files of one directory listing, in listing order. */
  function FilesIn(root: string, files: seq<FileEntry>, endings: seq<string>): seq<Located> {
    if files == [] then []
    else
      var f := files[|files| - 1];
      FilesIn(root, files[..|files| - 1], endings)
        + (if Selected(f.name, endings) then [Located(Join(root, f.name), f.name, f.contents)] else [])
  }

  /** A top-down walk: a directory's own files, then its visible subdirectories' walks in listing order. */
  function Walk(root: string, d: Dir, endings: seq<string>): seq<Located>
    decreases d, 1, 0
  {
    FilesIn(root, d.files, endings) + WalkSubdirs(root, d, 0, endings)
  }

  function WalkSubdirs(root: string, d: Dir, i: nat, endings: seq<string>): seq<Located>
    requires i <= |d.subdirs|
    decreases d, 0, |d.subdirs| - i
  {
    if i == |d.subdirs| then []
    else
      var s := d.subdirs[i];
      (if IsHidden(s.name) then [] else Walk(Join(root, s.name), s.dir, endings))
        + WalkSubdirs(root, d, i + 1, endings)
  }

  /** The text the loader produces for whatever the filesystem holds at path. */
  function Context(path: string, target: PathTarget, endings: seq<string>): string {
    match target
    case RegularFile(contents) => contents
    case Directory(d) => Render(Walk(path, d, endings))
    case Absent => ""
  }

  // ---------------------------------------------------------------------------
  // An independent reference: every file of the tree, nothing pruned, each
  // marked with whether it lies beneath a hidden directory.

  function ListFiles(root: string, files: seq<FileEntry>, concealed: bool): seq<Sighting> {
    if files == [] then []
    else
      var f := files[|files| - 1];
      ListFiles(root, files[..|files| - 1], concealed)
        + [Sighting(Located(Join(root, f.name), f.name, f.contents), concealed)]
  }

  function Listing(root: string, d: Dir, concealed: bool): seq<Sighting>
    decreases d, 1, 0
  {
    ListFiles(root, d.files, concealed) + ListingSubdirs(root, d, 0, concealed)
  }

  function ListingSubdirs(root: string, d: Dir, i: nat, concealed: bool): seq<Sighting>
    requires i <= |d.subdirs|
    decreases d, 0, |d.subdirs| - i
  {
    if i == |d.subdirs| then []
    else
      var s := d.subdirs[i];
      Listing(Join(root, s.name), s.dir, concealed || IsHidden(s.name))
        + ListingSubdirs(root, d, i + 1, concealed)
  }

  /** The files of a listing that are neither hidden nor beneath a hidden directory and have an allowed extension. */
  function Keep(found: seq<Sighting>, endings: seq<string>): seq<Located> {
    if found == [] then []
    else
      var x := found[|found| - 1];
      Keep(found[..|found| - 1], endings)
        + (if !x.concealed && Selected(x.file.name, endings) then [x.file] else [])
  }

  // ---------------------------------------------------------------------------
  // Lemmas

  lemma {:induction false} RenderAppend(a: seq<Located>, b: seq<Located>)
    ensures Render(a + b) == Render(a) + Render(b)
    decreases |b|
  {
    if b == [] {
      assert a + b == a;
    } else {
      var init, last := b[..|b| - 1], b[|b| - 1];
      assert b == init + [last];
      assert a + b == (a + init) + [last];
      RenderAppend(a, init);
      RenderSnoc(a + init, last);
      RenderSnoc(init, last);
      Associative(Render(a), Render(init), Block(last));
    }
  }

  lemma {:induction false} KeepAppend(a: seq<Sighting>, b: seq<Sighting>, endings: seq<string>)
    ensures Keep(a + b, endings) == Keep(a, endings) + Keep(b, endings)
    decreases |b|
  {
    if b == [] {
      assert a + b == a;
    } else {
      assert (a + b)[..|a + b| - 1] == a + b[..|b| - 1];
      KeepAppend(a, b[..|b| - 1], endings);
    }
  }

  /** A file is kept from a listing exactly when it was sighted unconcealed and is selected. */
  lemma {:induction false} KeepMembership(found: seq<Sighting>, endings: seq<string>, x: Located)
    ensures x in Keep(found, endings) <==> Sighting(x, false) in found && Selected(x.name, endings)
  {
    if found != [] {
      var init := found[..|found| - 1];
      assert found == init + [found[|found| - 1]];
      KeepMembership(init, endings, x);
    }
  }

  lemma {:induction false} FilesInIsKept(root: string, files: seq<FileEntry>, endings: seq<string>)
    ensures FilesIn(root, files, endings) == Keep(ListFiles(root, files, false), endings)
  {
    if files != [] {
      FilesInIsKept(root, files[..|files| - 1], endings);
      var f := files[|files| - 1];
      KeepAppend(ListFiles(root, files[..|files| - 1], false),
                 [Sighting(Located(Join(root, f.name), f.name, f.contents), false)], endings);
    }
  }

  lemma {:induction false} ConcealedFilesKeepNothing(root: string, files: seq<FileEntry>, endings: seq<string>)
    ensures Keep(ListFiles(root, files, true), endings) == []
  {
    if files != [] {
      ConcealedFilesKeepNothing(root, files[..|files| - 1], endings);
      var f := files[|files| - 1];
      KeepAppend(ListFiles(root, files[..|files| - 1], true),
                 [Sighting(Located(Join(root, f.name), f.name, f.contents), true)], endings);
    }
  }

  /** Nothing beneath a hidden directory is ever kept. */
  lemma {:induction false} ConcealedKeepsNothing(root: string, d: Dir, endings: seq<string>)
    ensures Keep(Listing(root, d, true), endings) == []
    decreases d, 1, 0
  {
    ConcealedFilesKeepNothing(root, d.files, endings);
    ConcealedSubdirsKeepNothing(root, d, 0, endings);
    KeepAppend(ListFiles(root, d.files, true), ListingSubdirs(root, d, 0, true), endings);
  }

  lemma {:induction false} ConcealedSubdirsKeepNothing(root: string, d: Dir, i: nat, endings: seq<string>)
    requires i <= |d.subdirs|
    ensures Keep(ListingSubdirs(root, d, i, true), endings) == []
    decreases d, 0, |d.subdirs| - i
  {
    if i < |d.subdirs| {
      var s := d.subdirs[i];
      ConcealedKeepsNothing(Join(root, s.name), s.dir, endings);
      ConcealedSubdirsKeepNothing(root, d, i + 1, endings);
      KeepAppend(Listing(Join(root, s.name), s.dir, true), ListingSubdirs(root, d, i + 1, true), endings);
    }
  }

  /**
   * The pruned walk is exactly the unpruned listing filtered by the selection
   * rule: same files, same order, each sighting at most once.
   */
  lemma {:induction false} WalkIsKeptListing(root: string, d: Dir, endings: seq<string>)
    ensures Walk(root, d, endings) == Keep(Listing(root, d, false), endings)
    decreases d, 1, 0
  {
    FilesInIsKept(root, d.files, endings);
    WalkSubdirsIsKept(root, d, 0, endings);
    KeepAppend(ListFiles(root, d.files, false), ListingSubdirs(root, d, 0, false), endings);
  }

  lemma {:induction false} WalkSubdirsIsKept(root: string, d: Dir, i: nat, endings: seq<string>)
    requires i <= |d.subdirs|
    ensures WalkSubdirs(root, d, i, endings) == Keep(ListingSubdirs(root, d, i, false), endings)
    decreases d, 0, |d.subdirs| - i
  {
    if i < |d.subdirs| {
      var s := d.subdirs[i];
      var sub := Join(root, s.name);
      if IsHidden(s.name) {
        ConcealedKeepsNothing(sub, s.dir, endings);
      } else {
        WalkIsKeptListing(sub, s.dir, endings);
      }
      WalkSubdirsIsKept(root, d, i + 1, endings);
      KeepAppend(Listing(sub, s.dir, IsHidden(s.name)), ListingSubdirs(root, d, i + 1, false), endings);
    }
  }

  /**
   * A file appears in a directory's concatenation exactly when its name is not
   * hidden, its extension is allowed, and no directory on its way down from
   * the walked root is hidden.
   */
  lemma IncludedIffVisibleAndSelected(root: string, d: Dir, endings: seq<string>, x: Located)
    ensures x in Walk(root, d, endings)
        <==> Sighting(x, false) in Listing(root, d, false) && !IsHidden(x.name) && Extension(x.name) in endings
  {
    WalkIsKeptListing(root, d, endings);
    KeepMembership(Listing(root, d, false), endings, x);
  }

  /** With no allowed extensions a directory yields the empty text. */
  lemma EmptyEndingsYieldNothing(path: string, d: Dir)
    ensures Context(path, Directory(d), []) == ""
  {
    var w := Walk(path, d, []);
    if w != [] {
      IncludedIffVisibleAndSelected(path, d, [], w[0]);
      assert false;
    }
  }

  /** A regular file is returned verbatim: no header, no extension filter. */
  lemma SingleFileVerbatim(path: string, contents: string, endings: seq<string>)
    ensures Context(path, RegularFile(contents), endings) == contents
  {
  }

  // ---------------------------------------------------------------------------
  // The walk's pending stack, and the loader as the program runs it.

  /** The text still to come from a stack of pending directories, top first. */
  function Pending(stack: seq<Frame>, endings: seq<string>): seq<Located> {
    if stack == [] then [] else Walk(stack[0].root, stack[0].dir, endings) + Pending(stack[1..], endings)
  }

  /** The pruning of the walk: the subdirectories whose names do not start with a dot, in listing order. */
  function VisibleSubdirs(subdirs: seq<SubDir>): (visible: seq<SubDir>)
    ensures forall s :: s in visible <==> s in subdirs && !IsHidden(s.name)
  {
    if subdirs == [] then []
    else (if IsHidden(subdirs[0].name) then [] else [subdirs[0]]) + VisibleSubdirs(subdirs[1..])
  }

  /** The stack frames os.walk descends into for the given subdirectories of root. */
  function Frames(root: string, subdirs: seq<SubDir>): seq<Frame> {
    if subdirs == [] then [] else [Frame(Join(root, subdirs[0].name), subdirs[0].dir)] + Frames(root, subdirs[1..])
  }

  function Size(d: Dir): nat
    decreases d, 1, 0
  {
    1 + SizeFrom(d, 0)
  }

  function SizeFrom(d: Dir, i: nat): nat
    requires i <= |d.subdirs|
    decreases d, 0, |d.subdirs| - i
  {
    if i == |d.subdirs| then 0 else Size(d.subdirs[i].dir) + SizeFrom(d, i + 1)
  }

  function StackSize(stack: seq<Frame>): nat {
    if stack == [] then 0 else Size(stack[0].dir) + StackSize(stack[1..])
  }

  lemma {:induction false} PendingAppend(a: seq<Frame>, b: seq<Frame>, endings: seq<string>)
    ensures Pending(a + b, endings) == Pending(a, endings) + Pending(b, endings)
  {
    if a == [] {
      assert a + b == b;
    } else {
      assert (a + b)[0] == a[0];
      assert (a + b)[1..] == a[1..] + b;
      PendingAppend(a[1..], b, endings);
    }
  }

  lemma {:induction false} StackSizeAppend(a: seq<Frame>, b: seq<Frame>)
    ensures StackSize(a + b) == StackSize(a) + StackSize(b)
  {
    if a == [] {
      assert a + b == b;
    } else {
      assert (a + b)[0] == a[0];
      assert (a + b)[1..] == a[1..] + b;
      StackSizeAppend(a[1..], b);
    }
  }

  /** Pushing the visible subdirectories and walking them is the rest of the directory's walk, and it is smaller. */
  lemma {:induction false} VisibleFramesWalk(root: string, d: Dir, i: nat, endings: seq<string>)
    requires i <= |d.subdirs|
    ensures Pending(Frames(root, VisibleSubdirs(d.subdirs[i..])), endings) == WalkSubdirs(root, d, i, endings)
    ensures StackSize(Frames(root, VisibleSubdirs(d.subdirs[i..]))) <= SizeFrom(d, i)
    decreases |d.subdirs| - i
  {
    if i < |d.subdirs| {
      var s := d.subdirs[i];
      assert d.subdirs[i..][0] == s;
      assert d.subdirs[i..][1..] == d.subdirs[i + 1..];
      VisibleFramesWalk(root, d, i + 1, endings);
      if !IsHidden(s.name) {
        var rest := Frames(root, VisibleSubdirs(d.subdirs[i + 1..]));
        var frames := Frames(root, VisibleSubdirs(d.subdirs[i..]));
        assert VisibleSubdirs(d.subdirs[i..]) == [s] + VisibleSubdirs(d.subdirs[i + 1..]);
        assert frames == [Frame(Join(root, s.name), s.dir)] + rest;
        assert frames[0] == Frame(Join(root, s.name), s.dir) && frames[1..] == rest;
        assert Pending(frames, endings) == Walk(Join(root, s.name), s.dir, endings) + Pending(rest, endings);
        assert StackSize(frames) == Size(s.dir) + StackSize(rest);
      } else {
        assert VisibleSubdirs(d.subdirs[i..]) == VisibleSubdirs(d.subdirs[i + 1..]);
      }
    }
  }

  /** One step of the walk: popping a directory yields its files, then what its visible subdirectories yield. */
  lemma WalkStep(root: string, d: Dir, rest: seq<Frame>, endings: seq<string>)
    ensures Pending([Frame(root, d)] + rest, endings)
         == FilesIn(root, d.files, endings) + Pending(Frames(root, VisibleSubdirs(d.subdirs)) + rest, endings)
    ensures StackSize(Frames(root, VisibleSubdirs(d.subdirs)) + rest) < StackSize([Frame(root, d)] + rest)
  {
    var stack := [Frame(root, d)] + rest;
    var frames := Frames(root, VisibleSubdirs(d.subdirs));
    assert stack[0] == Frame(root, d) && stack[1..] == rest;
    assert d.subdirs[0..] == d.subdirs;
    VisibleFramesWalk(root, d, 0, endings);
    PendingAppend(frames, rest, endings);
    StackSizeAppend(frames, rest);
    calc {
      Pending(stack, endings);
      Walk(root, d, endings) + Pending(rest, endings);
      (FilesIn(root, d.files, endings) + WalkSubdirs(root, d, 0, endings)) + Pending(rest, endings);
      FilesIn(root, d.files, endings) + (Pending(frames, endings) + Pending(rest, endings));
    }
  }

  /** The text side of WalkStep: what the loader has written plus what is pending stays the same. */
  lemma WalkStepText(concat: string, root: string, d: Dir, rest: seq<Frame>, endings: seq<string>)
    ensures concat + Render(FilesIn(root, d.files, endings)) + Render(Pending(Frames(root, VisibleSubdirs(d.subdirs)) + rest, endings))
         == concat + Render(Pending([Frame(root, d)] + rest, endings))
    ensures StackSize(Frames(root, VisibleSubdirs(d.subdirs)) + rest) < StackSize([Frame(root, d)] + rest)
  {
    var files := FilesIn(root, d.files, endings);
    var later := Pending(Frames(root, VisibleSubdirs(d.subdirs)) + rest, endings);
    WalkStep(root, d, rest, endings);
    RenderAppend(files, later);
    Associative(concat, Render(files), Render(later));
  }

  /** How the kept files of a listing grow by one more file. */
  lemma FilesInStep(root: string, files: seq<FileEntry>, i: nat, endings: seq<string>)
    requires i < |files|
    ensures FilesIn(root, files[..i + 1], endings)
         == FilesIn(root, files[..i], endings)
            + (if Selected(files[i].name, endings) then [Located(Join(root, files[i].name), files[i].name, files[i].contents)] else [])
  {
    assert files[..i + 1][..i] == files[..i];
  }

  lemma RenderSnoc(found: seq<Located>, file: Located)
    ensures Render(found + [file]) == Render(found) + Block(file)
  {
    assert (found + [file])[..|found|] == found;
  }

  lemma Associative(a: string, b: string, c: string)
    ensures (a + b) + c == a + (b + c)
  {
  }

  /** Appending one file's header and then its text extends the rendering by that file's block. */
  lemma AppendFileText(concat: string, found: seq<Located>, file: Located)
    ensures concat + Render(found) + ("File: " + file.path + "\n") + (file.contents + "\n\n")
         == concat + Render(found + [file])
  {
    var written := concat + Render(found);
    var header := "File: " + file.path + "\n";
    var trailer := file.contents + "\n\n";
    Associative(written, header, trailer);
    assert header + trailer == Block(file);
    Associative(concat, Render(found), Block(file));
    RenderSnoc(found, file);
  }

  /**
   * The inner loop of GptClient._concatenate_files over one directory's
   * files: hidden files and files with other extensions are skipped, each
   * other file is appended under its "File: <path>" header.
   */
  method AppendFiles(concat: string, root: string, files: seq<FileEntry>, endings: seq<string>)
    returns (result: string)
    ensures result == concat + Render(FilesIn(root, files, endings))
  {
    result := concat;
    for i := 0 to |files|
      invariant result == concat + Render(FilesIn(root, files[..i], endings))
    {
      var file := files[i];
      FilesInStep(root, files, i, endings);
      if IsHidden(file.name) {
        assert FilesIn(root, files[..i], endings) + [] == FilesIn(root, files[..i], endings);
        continue;
      }
      var fileExtension := SplitExt(file.name).1;
      if fileExtension !in endings {
        assert FilesIn(root, files[..i], endings) + [] == FilesIn(root, files[..i], endings);
        continue;
      }
      var filePath := Join(root, file.name);
      result := result + ("File: " + filePath + "\n");
      result := result + (file.contents + "\n\n");
      assert Selected(file.name, endings);
      ghost var found := FilesIn(root, files[..i], endings);
      ghost var located := Located(filePath, file.name, file.contents);
      AppendFileText(concat, found, located);
    }
    assert files[..|files|] == files;
  }

  /**
   * GptClient._concatenate_files: a regular file is returned as it is;
   * otherwise the directory is walked top-down, pruning hidden subdirectories,
   * and each visible file with an allowed extension is appended under its
   * header. A path that is neither yields "", as os.walk reports nothing.
   */
  method ConcatenateFiles(path: string, target: PathTarget, endings: seq<string>) returns (concat: string)
    ensures concat == Context(path, target, endings)
  {
    if target.RegularFile? {
      return target.contents;
    }
    concat := "";
    var stack: seq<Frame> := if target.Directory? then [Frame(path, target.dir)] else [];
    if target.Directory? {
      assert Pending(stack, endings) == Walk(path, target.dir, endings) + [];
      assert Walk(path, target.dir, endings) + [] == Walk(path, target.dir, endings);
    }
    assert concat + Render(Pending(stack, endings)) == Render(Pending(stack, endings));
    while stack != []
      invariant concat + Render(Pending(stack, endings)) == Context(path, target, endings)
      decreases StackSize(stack)
    {
      var root, d := stack[0].root, stack[0].dir;
      var dirs := VisibleSubdirs(d.subdirs);
      assert stack == [Frame(root, d)] + stack[1..];
      WalkStepText(concat, root, d, stack[1..], endings);
      concat := AppendFiles(concat, root, d.files, endings);
      stack := Frames(root, dirs) + stack[1..];
    }
  }
}
