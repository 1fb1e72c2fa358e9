/**
 * `FileHelper` of misc/file_helper.py: listing the image files of a directory
 * by a `:`-separated, case-insensitive extension pattern, and the removal of a
 * directory's contents with its guard against the file-system root.
 *
 * The directory listing, `os.path.isfile` and the `os.walk` traversal are
 * inputs; removals are returned as a list of actions instead of performed.
 */
module FileHelper {
  import PyStr
  import PosixPath
  import Seqs

  /** The default `load_pattern` of `read_images_in_dir`. */
  const DefaultPattern: string := ".png:.jpg:.jpeg:.gif"

  /** The extensions of a load pattern: its `:`-separated pieces, lower-cased. */
  function ParsePattern(pattern: string): (exts: seq<string>)
    ensures |exts| >= 1
    ensures forall i :: 0 <= i < |exts| ==> ':' !in exts[i]
    ensures PyStr.Join(exts, ':') == PyStr.Lower(pattern)
  {
    var pieces := PyStr.Split(pattern, ':');
    var exts := seq(|pieces|, i requires 0 <= i < |pieces| => PyStr.Lower(pieces[i]));
    forall i | 0 <= i < |exts|
      ensures ':' !in exts[i]
    {
      LowerKeepsColonOut(pieces[i]);
    }
    PyStr.JoinSplit(pattern, ':');
    LowerJoin(pieces, exts, ':');
    exts
  }

  lemma LowerKeepsColonOut(s: string)
    requires ':' !in s
    ensures ':' !in PyStr.Lower(s)
  {
  }

  lemma LowerAppend(a: string, b: string)
    ensures PyStr.Lower(a + b) == PyStr.Lower(a) + PyStr.Lower(b)
  {
    assert forall i :: 0 <= i < |a + b| ==>
      PyStr.Lower(a + b)[i] == (PyStr.Lower(a) + PyStr.Lower(b))[i];
  }

  /** Lower-casing each piece, then joining, is lower-casing the join. */
  lemma {:induction false} LowerJoin(pieces: seq<string>, lowered: seq<string>, sep: char)
    requires sep == PyStr.LowerChar(sep)
    requires |lowered| == |pieces|
    requires forall i :: 0 <= i < |pieces| ==> lowered[i] == PyStr.Lower(pieces[i])
    ensures PyStr.Join(lowered, sep) == PyStr.Lower(PyStr.Join(pieces, sep))
    decreases |pieces|
  {
    if |pieces| > 1 {
      LowerJoin(pieces[1..], lowered[1..], sep);
      var rest := PyStr.Join(pieces[1..], sep);
      LowerAppend(pieces[0] + [sep], rest);
      LowerAppend(pieces[0], [sep]);
      assert PyStr.Lower([sep]) == [sep];
    }
  }

  /** Lower-casing leaves a string without capital letters unchanged. */
  lemma LowerOfLowerCase(s: string)
    requires forall i :: 0 <= i < |s| ==> !('A' <= s[i] <= 'Z')
    ensures PyStr.Lower(s) == s
  {
  }

  /** Parsing a pattern written from lower-case extensions gives back those extensions. */
  lemma ParseJoinedPattern(exts: seq<string>)
    requires |exts| >= 1
    requires forall k :: 0 <= k < |exts| ==> ':' !in exts[k]
    requires forall k, i :: 0 <= k < |exts| && 0 <= i < |exts[k]| ==> !('A' <= exts[k][i] <= 'Z')
    ensures ParsePattern(PyStr.Join(exts, ':')) == exts
  {
    PyStr.SplitJoin(exts, ':');
    var parsed := ParsePattern(PyStr.Join(exts, ':'));
    forall k | 0 <= k < |exts|
      ensures parsed[k] == exts[k]
    {
      LowerOfLowerCase(exts[k]);
    }
  }

  const DefaultExtensions: seq<string> := [".png", ".jpg", ".jpeg", ".gif"]

  lemma DefaultPatternIsJoin()
    ensures PyStr.Join(DefaultExtensions, ':') == DefaultPattern
  {
    var pieces := DefaultExtensions;
    assert PyStr.Join(pieces[3..], ':') == ".gif";
    assert PyStr.Join(pieces[2..], ':') == ".jpeg:.gif";
    assert PyStr.Join(pieces[1..], ':') == ".jpg:.jpeg:.gif";
  }

  /** The default pattern stands for exactly these four extensions, in this order. */
  lemma DefaultPatternExtensions()
    ensures ParsePattern(DefaultPattern) == DefaultExtensions
  {
    DefaultPatternIsJoin();
    assert forall k :: 0 <= k < |DefaultExtensions| ==> ':' !in DefaultExtensions[k];
    assert forall k, i :: 0 <= k < |DefaultExtensions| && 0 <= i < |DefaultExtensions[k]| ==>
      !('A' <= DefaultExtensions[k][i] <= 'Z');
    ParseJoinedPattern(DefaultExtensions);
  }

  lemma EndsWithOneOfFour(s: string, a: string, b: string, c: string, d: string)
    ensures PyStr.EndsWithAny(s, [a, b, c, d]) <==>
      PyStr.EndsWith(s, a) || PyStr.EndsWith(s, b) || PyStr.EndsWith(s, c) || PyStr.EndsWith(s, d)
  {
    var suffixes := [a, b, c, d];
    if PyStr.EndsWithAny(s, suffixes) {
      var i :| 0 <= i < 4 && PyStr.EndsWith(s, suffixes[i]);
      assert i == 0 || i == 1 || i == 2 || i == 3;
    } else {
      assert !PyStr.EndsWith(s, suffixes[0]) && !PyStr.EndsWith(s, suffixes[1]);
      assert !PyStr.EndsWith(s, suffixes[2]) && !PyStr.EndsWith(s, suffixes[3]);
    }
  }

  /** With the default pattern a name passes the extension test iff, lower-cased, it ends in one of the four. */
  lemma DefaultPatternAnyCase(name: string)
    ensures PyStr.EndsWithAny(PyStr.Lower(name), ParsePattern(DefaultPattern)) <==>
      PyStr.EndsWith(PyStr.Lower(name), ".png") || PyStr.EndsWith(PyStr.Lower(name), ".jpg") ||
      PyStr.EndsWith(PyStr.Lower(name), ".jpeg") || PyStr.EndsWith(PyStr.Lower(name), ".gif")
  {
    DefaultPatternExtensions();
    EndsWithOneOfFour(PyStr.Lower(name), ".png", ".jpg", ".jpeg", ".gif");
  }

  /**
   * The test `read_images_in_dir` applies to each listed name: a regular file
   * whose lower-cased name ends in one of the extensions, which fits in the name.
   */
  predicate Accepts(dir: string, exts: seq<string>, isFile: string -> bool, name: string)
    ensures Accepts(dir, exts, isFile, name) <==>
      isFile(PosixPath.Join(dir, name)) &&
      exists t :: t in exts && |t| <= |name| && PyStr.Lower(name)[|name| - |t|..] == t
  {
    isFile(PosixPath.Join(dir, name)) && PyStr.EndsWithAny(PyStr.Lower(name), exts)
  }

  function ImageFilter(dir: string, exts: seq<string>, isFile: string -> bool): string -> bool
  {
    name => Accepts(dir, exts, isFile, name)
  }

  /**
   * `read_images_in_dir`: `listing` is `os.listdir(dir)` and `isFile` is
   * `os.path.isfile`. The result keeps the listed names, unchanged and in
   * listing order, that are regular files with an accepted extension.
   */
  method ReadImagesInDir(dir: string, listing: seq<string>, isFile: string -> bool, pattern: string)
    returns (matches: seq<string>)
    ensures matches == Seqs.Filter(ImageFilter(dir, ParsePattern(pattern), isFile), listing)
    ensures forall name :: name in matches <==>
      name in listing && Accepts(dir, ParsePattern(pattern), isFile, name)
    ensures Seqs.IsSubsequence(matches, listing)
  {
    var exts := ParsePattern(pattern);
    var keep := ImageFilter(dir, exts, isFile);
    matches := [];
    for i := 0 to |listing|
      invariant matches == Seqs.Filter(keep, listing[..i])
    {
      var filename := listing[i];
      assert listing[..i + 1][..i] == listing[..i];
      if isFile(PosixPath.Join(dir, filename)) && PyStr.EndsWithAny(PyStr.Lower(filename), exts) {
        matches := matches + [filename];
      }
    }
    assert listing[..|listing|] == listing;
    Seqs.FilterIsSubsequence(keep, listing);
  }

  /** One `(root, dirs, files)` triple of `os.walk`. */
  datatype WalkEntry = WalkEntry(root: string, dirs: seq<string>, files: seq<string>)

  /** A removal `remove_files_in_dir` performs: `os.remove` of a file or `shutil.rmtree` of a directory. */
  datatype Removal = RemoveFile(path: string) | RemoveTree(path: string)

  /** The removals of the first `n` of `names` under `root`. */
  function PathRemovals(root: string, names: seq<string>, n: nat, tree: bool): seq<Removal>
    requires n <= |names|
  {
    if n == 0 then []
    else
      var path := PosixPath.Join(root, names[n - 1]);
      PathRemovals(root, names, n - 1, tree) + [if tree then RemoveTree(path) else RemoveFile(path)]
  }

  /** The removals of one walk entry: its files, then its sub-directories. */
  function EntryRemovals(e: WalkEntry): seq<Removal>
  {
    PathRemovals(e.root, e.files, |e.files|, false) + PathRemovals(e.root, e.dirs, |e.dirs|, true)
  }

  function WalkRemovals(walk: seq<WalkEntry>, n: nat): seq<Removal>
    requires n <= |walk|
  {
    if n == 0 then [] else WalkRemovals(walk, n - 1) + EntryRemovals(walk[n - 1])
  }

  function EntryCount(walk: seq<WalkEntry>, n: nat): nat
    requires n <= |walk|
  {
    if n == 0 then 0 else EntryCount(walk, n - 1) + |walk[n - 1].files| + |walk[n - 1].dirs|
  }

  lemma {:induction false} PathRemovalsAt(root: string, names: seq<string>, n: nat, tree: bool)
    requires n <= |names|
    ensures |PathRemovals(root, names, n, tree)| == n
    ensures forall k :: 0 <= k < n ==>
      PathRemovals(root, names, n, tree)[k] ==
        (if tree then RemoveTree(PosixPath.Join(root, names[k])) else RemoveFile(PosixPath.Join(root, names[k])))
    decreases n
  {
    if n > 0 {
      PathRemovalsAt(root, names, n - 1, tree);
    }
  }

  /** Within one entry, every file is removed first, then every sub-directory tree, each under the entry's root. */
  lemma EntryRemovalsLayout(e: WalkEntry)
    ensures |EntryRemovals(e)| == |e.files| + |e.dirs|
    ensures forall k :: 0 <= k < |e.files| ==>
      EntryRemovals(e)[k] == RemoveFile(PosixPath.Join(e.root, e.files[k]))
    ensures forall k :: |e.files| <= k < |EntryRemovals(e)| ==>
      EntryRemovals(e)[k] == RemoveTree(PosixPath.Join(e.root, e.dirs[k - |e.files|]))
  {
    PathRemovalsAt(e.root, e.files, |e.files|, false);
    PathRemovalsAt(e.root, e.dirs, |e.dirs|, true);
  }

  /** One removal per file and per directory the walk reports. */
  lemma {:induction false} WalkRemovalsCount(walk: seq<WalkEntry>, n: nat)
    requires n <= |walk|
    ensures |WalkRemovals(walk, n)| == EntryCount(walk, n)
    decreases n
  {
    if n > 0 {
      WalkRemovalsCount(walk, n - 1);
      EntryRemovalsLayout(walk[n - 1]);
    }
  }

  /** One inner loop of `remove_files_in_dir`. */
  method RemoveAll(root: string, names: seq<string>, tree: bool) returns (removed: seq<Removal>)
    ensures removed == PathRemovals(root, names, |names|, tree)
  {
    removed := [];
    for k := 0 to |names|
      invariant removed == PathRemovals(root, names, k, tree)
    {
      var path := PosixPath.Join(root, names[k]);
      removed := removed + [if tree then RemoveTree(path) else RemoveFile(path)];
    }
  }

  /**
   * `remove_files_in_dir`: nothing for the root `/` or `\`; otherwise, for
   * each entry of the bottom-up walk in order, its files and then its
   * sub-directories.
   */
  method RemoveFilesInDir(path: string, walk: seq<WalkEntry>) returns (removed: seq<Removal>)
    ensures path == "/" || path == "\\" ==> removed == []
    ensures path != "/" && path != "\\" ==> removed == WalkRemovals(walk, |walk|)
  {
    if path == "/" || path == "\\" {
      return [];
    }
    removed := [];
    for i := 0 to |walk|
      invariant removed == WalkRemovals(walk, i)
    {
      var files := RemoveAll(walk[i].root, walk[i].files, false);
      var dirs := RemoveAll(walk[i].root, walk[i].dirs, true);
      removed := removed + files + dirs;
    }
  }
}
