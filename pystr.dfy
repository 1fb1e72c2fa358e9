/**
 * The Python built-ins the modelled code calls: `int()` of a float, slicing
 * `s[:k]`, `str.lower`, `str.endswith` and `str.split(sep)`; `sep.join`, which
 * the code does not call, states the round trip of `split`.
 */
module PyStr {

  /** `int(x)` on a float: truncation toward zero (not Dafny's floor). */
  function Trunc(x: real): (r: int)
    ensures 0.0 <= x ==> 0 <= r && r as real <= x < r as real + 1.0
    ensures x < 0.0 ==> r <= 0 && r as real - 1.0 < x <= r as real
  {
    if 0.0 <= x then x.Floor else -((-x).Floor)
  }

  /** `s[:k]`: a non-negative stop keeps at most `k` elements, a negative one drops the last `-k`. */
  function PyPrefix<T>(s: seq<T>, k: int): (r: seq<T>)
    ensures 0 <= k ==> |r| == if k < |s| then k else |s|
    ensures k < 0 ==> |r| == if |s| + k < 0 then 0 else |s| + k
    ensures r == s[..|r|]
  {
    if 0 <= k then (if k < |s| then s[..k] else s)
    else if |s| + k < 0 then [] else s[..|s| + k]
  }

  /** ASCII lower-casing of one character. */
  function LowerChar(c: char): (d: char)
    ensures 'A' <= c <= 'Z' ==> 'a' <= d <= 'z' && d as int - c as int == 32
    ensures !('A' <= c <= 'Z') ==> d == c
  {
    if 'A' <= c <= 'Z' then (c as int + 32) as char else c
  }

  /** `s.lower()`, restricted to ASCII letters. */
  function Lower(s: string): (r: string)
    ensures |r| == |s|
    ensures forall i :: 0 <= i < |s| ==> r[i] == LowerChar(s[i])
  {
    seq(|s|, i requires 0 <= i < |s| => LowerChar(s[i]))
  }

  /** `s.endswith(suffix)`. */
  predicate EndsWith(s: string, suffix: string)
    ensures EndsWith(s, suffix) <==> |suffix| <= |s| && s == s[..|s| - |suffix|] + suffix
    ensures EndsWith(s, suffix) ==> suffix == [] || EndsWith(s, suffix[1..])
  {
    |suffix| <= |s| && s[|s| - |suffix|..] == suffix
  }

  /** `s.endswith(suffixes)` for a tuple: true iff some suffix matches. */
  predicate EndsWithAny(s: string, suffixes: seq<string>)
    ensures EndsWithAny(s, suffixes) <==> exists t :: t in suffixes && EndsWith(s, t)
    ensures suffixes == [] ==> !EndsWithAny(s, suffixes)
  {
    assert forall t :: t in suffixes ==> exists i :: 0 <= i < |suffixes| && suffixes[i] == t;
    assert forall i :: 0 <= i < |suffixes| ==> suffixes[i] in suffixes;
    exists i :: 0 <= i < |suffixes| && EndsWith(s, suffixes[i])
  }

  /** `s.split(sep)` for a one-character separator: never empty, pieces free of `sep`. */
  function Split(s: string, sep: char): (pieces: seq<string>)
    ensures |pieces| >= 1
    ensures forall k :: 0 <= k < |pieces| ==> sep !in pieces[k]
    decreases |s|
  {
    if s == [] then [""]
    else
      var rest := Split(s[1..], sep);
      if s[0] == sep then [""] + rest
      else [[s[0]] + rest[0]] + rest[1..]
  }

  /** `sep.join(pieces)`. */
  function Join(pieces: seq<string>, sep: char): string
    decreases |pieces|
  {
    if pieces == [] then ""
    else if |pieces| == 1 then pieces[0]
    else pieces[0] + [sep] + Join(pieces[1..], sep)
  }

  /** Joining what `Split` produced gives back the original string. */
  lemma {:induction false} JoinSplit(s: string, sep: char)
    ensures Join(Split(s, sep), sep) == s
    decreases |s|
  {
    if s != [] {
      JoinSplit(s[1..], sep);
      var rest := Split(s[1..], sep);
      if s[0] == sep {
        assert Split(s, sep) == [""] + rest;
        assert Join([""] + rest, sep) == "" + [sep] + Join(rest, sep) by {
          assert ([""] + rest)[1..] == rest;
        }
      } else {
        var pieces := [[s[0]] + rest[0]] + rest[1..];
        assert Split(s, sep) == pieces;
        if |rest| == 1 {
          assert Join(pieces, sep) == [s[0]] + rest[0];
        } else {
          assert pieces[1..] == rest[1..];
          assert Join(rest, sep) == rest[0] + [sep] + Join(rest[1..], sep);
          assert [s[0]] + rest[0] + [sep] + Join(rest[1..], sep) == [s[0]] + Join(rest, sep);
        }
        assert s == [s[0]] + s[1..];
      }
    }
  }

  /** Splitting a join of separator-free pieces gives back the pieces. */
  lemma {:induction false} SplitJoin(pieces: seq<string>, sep: char)
    requires |pieces| >= 1
    requires forall k :: 0 <= k < |pieces| ==> sep !in pieces[k]
    ensures Split(Join(pieces, sep), sep) == pieces
    decreases |pieces|, |pieces[0]|
  {
    var first := pieces[0];
    if first == [] {
      if |pieces| == 1 {
      } else {
        var tail := Join(pieces[1..], sep);
        SplitJoin(pieces[1..], sep);
        assert Join(pieces, sep) == [sep] + tail;
        assert ([sep] + tail)[1..] == tail;
        assert pieces == [""] + pieces[1..];
      }
    } else {
      var shorter := [first[1..]] + pieces[1..];
      assert shorter[1..] == pieces[1..];
      assert sep !in first[1..] by {
        assert forall c :: c in first[1..] ==> c in first;
      }
      SplitJoin(shorter, sep);
      var s := Join(pieces, sep);
      if |pieces| == 1 {
        assert s == first;
        assert Join(shorter, sep) == first[1..];
      } else {
        assert s == first + [sep] + Join(pieces[1..], sep);
        assert Join(shorter, sep) == first[1..] + [sep] + Join(pieces[1..], sep);
      }
      assert s[0] == first[0] && s[1..] == Join(shorter, sep);
      assert first == [first[0]] + first[1..];
    }
  }
}
