/** The parts of Python's `os.path` (POSIX flavour) that the dataset builder uses. */
module PosixPath {

  /** `s.rfind(c)`: the last position of `c`, or -1. */
  function LastIndexOf(s: string, c: char): (r: int)
    ensures -1 <= r < |s|
    ensures 0 <= r ==> s[r] == c && c !in s[r + 1..]
    ensures r == -1 ==> c !in s
    decreases |s|
  {
    if s == [] then -1
    else if s[|s| - 1] == c then |s| - 1
    else
      var r := LastIndexOf(s[..|s| - 1], c);
      assert s == s[..|s| - 1] + [s[|s| - 1]];
      assert r >= 0 ==> s[r + 1..] == s[..|s| - 1][r + 1..] + [s[|s| - 1]];
      r
  }

  /** The last occurrence is at or after any occurrence. */
  lemma LastIndexOfAtLeast(s: string, c: char, j: nat)
    requires j < |s| && s[j] == c
    ensures LastIndexOf(s, c) >= j
    decreases |s|
  {
    if s[|s| - 1] != c {
      LastIndexOfAtLeast(s[..|s| - 1], c, j);
    }
  }

  /** The tail of `os.path.split(path)`: everything after the last '/'. */
  function Basename(path: string): (tail: string)
    ensures '/' !in tail
    ensures |tail| <= |path| && path[|path| - |tail|..] == tail
    ensures |tail| < |path| ==> path[|path| - |tail| - 1] == '/'
  {
    path[LastIndexOf(path, '/') + 1..]
  }

  /** Some character before position `k` of `name` is not a dot. */
  predicate HasNonDotBefore(name: string, k: int)
  {
    exists i :: 0 <= i < k && i < |name| && name[i] != '.'
  }

  /**
   * `os.path.splitext(name)` for a name without '/': the extension starts at
   * the last dot, unless everything before that dot is dots (".profile").
   */
  function SplitExt(name: string): (parts: (string, string))
    requires '/' !in name
    ensures parts.0 + parts.1 == name
    ensures var dot := LastIndexOf(name, '.');
      parts.1 != "" <==> 0 <= dot && HasNonDotBefore(name, dot)
    ensures parts.1 != "" ==> parts.1[0] == '.' && '.' !in parts.1[1..]
  {
    var dot := LastIndexOf(name, '.');
    if 0 <= dot && HasNonDotBefore(name, dot) then (name[..dot], name[dot..])
    else (name, "")
  }

  /** Neither part of a split name holds a '/'. */
  lemma SplitExtPlain(name: string)
    requires '/' !in name
    ensures '/' !in SplitExt(name).0 && '/' !in SplitExt(name).1
  {
    var parts := SplitExt(name);
    assert name[..|parts.0|] == parts.0 && name[|parts.0|..] == parts.1;
  }

  /** `os.path.join(a, b)`: an absolute `b` discards `a`; otherwise `a` is kept in front of `b`. */
  function Join(a: string, b: string): (r: string)
    ensures |b| > 0 && b[0] == '/' ==> r == b
    ensures !(|b| > 0 && b[0] == '/') ==> |a| + |b| <= |r| <= |a| + |b| + 1
  {
    if |b| > 0 && b[0] == '/' then b
    else if a == "" || a[|a| - 1] == '/' then a + b
    else a + "/" + b
  }

  /** A relative `b` follows `a`, with a '/' between them unless `a` is empty or already ends in one. */
  lemma JoinRelative(a: string, b: string)
    requires b == "" || b[0] != '/'
    ensures Join(a, b) == a + (if a == "" || a[|a| - 1] == '/' then "" else "/") + b
  {
  }

  /** The join ends in `b`. */
  lemma JoinEndsWithName(a: string, b: string)
    ensures |b| <= |Join(a, b)| && Join(a, b)[|Join(a, b)| - |b|..] == b
  {
  }

  /** Joining a non-empty directory and a relative name keeps the directory as a prefix. */
  lemma JoinKeepsDirectory(a: string, b: string)
    requires a != "" && (b == "" || b[0] != '/')
    ensures |a| <= |Join(a, b)| && Join(a, b)[..|a|] == a
  {
  }

  /** Joining a directory and a plain file name gives a path whose basename is that name. */
  lemma JoinBasename(a: string, b: string)
    requires b != "" && '/' !in b
    ensures Basename(Join(a, b)) == b
  {
    var u := Join(a, b);
    var r := LastIndexOf(u, '/');
    if a == "" {
      assert u == b;
    } else {
      var slash := if a[|a| - 1] == '/' then |a| - 1 else |a|;
      assert u[slash] == '/' && u[slash + 1..] == b;
      LastIndexOfAtLeast(u, '/', slash);
    }
  }
}
