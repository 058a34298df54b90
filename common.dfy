/** Optional values, standing for Swift's `T?`. */
module Wrappers {

  datatype Option<+T> = None | Some(value: T)
}

/**
 * Integer conversions of Swift that differ from Dafny's: `Int(x)` on a
 * floating-point value truncates toward zero, and Swift's `/` and `%` on
 * `Int` truncate toward zero as well (Dafny's are Euclidean).
 */
module Numeric {

  /** `Int(x)`: the integer part of `x`, rounded toward zero. */
  function Trunc(x: real): (n: int)
    ensures x >= 0.0 ==> n == x.Floor
    ensures x >= 0.0 ==> 0 <= n && n as real <= x < n as real + 1.0
    ensures x < 0.0 ==> n <= 0 && x <= n as real && n as real - 1.0 < x
  {
    if x >= 0.0 then x.Floor else -((-x).Floor)
  }

  /** Swift's `a / b` for a positive divisor: the quotient rounded toward zero. */
  function Quot(a: int, b: int): (q: int)
    requires b > 0
    ensures a >= 0 ==> 0 <= q && q * b <= a < q * b + b
    ensures a < 0 ==> q <= 0 && a <= q * b < a + b
  {
    if a >= 0 then a / b else -((-a) / b)
  }

  /** Swift's `a % b` for a positive divisor: the remainder takes the sign of `a`. */
  function Rem(a: int, b: int): (r: int)
    requires b > 0
    ensures Quot(a, b) * b + r == a
    ensures a >= 0 ==> 0 <= r < b
    ensures a < 0 ==> -b < r <= 0
  {
    if a >= 0 then a % b else -((-a) % b)
  }
}

/**
 * File paths, written as strings with `/` between components, and the three
 * `URL` operations the library uses on them.
 */
module Paths {
  import opened Wrappers

  type Url = string

  /** `url.lastPathComponent`: the text after the last `/`. */
  function LastPathComponent(p: Url): (c: string)
    ensures '/' !in c
    ensures |c| <= |p| && p[|p| - |c|..] == c
    ensures '/' !in p ==> c == p
  {
    if p == [] then []
    else if p[|p| - 1] == '/' then []
    else LastPathComponent(p[..|p| - 1]) + [p[|p| - 1]]
  }

  /** `dir.appendingPathComponent(c)`; an empty component names `dir` itself. */
  function AppendPathComponent(dir: Url, c: string): (p: Url)
    ensures c == [] ==> p == dir
    ensures c != [] ==> dir < p && p[|dir|] == '/' && p[|dir| + 1..] == c
  {
    if c == [] then dir else dir + "/" + c
  }

  lemma {:induction false} LastOfAppended(dir: Url, c: string)
    requires c != [] && '/' !in c
    ensures LastPathComponent(AppendPathComponent(dir, c)) == c
  {
    var p := dir + "/" + c;
    assert p == (dir + "/" + c[..|c| - 1]) + [c[|c| - 1]];
    if |c| == 1 {
      assert p[..|p| - 1] == dir + "/";
    } else {
      assert p[..|p| - 1] == dir + "/" + c[..|c| - 1];
      LastOfAppended(dir, c[..|c| - 1]);
    }
  }

  /** Position of the last occurrence of `ch` in `s`, if any. */
  function LastIndexOf(s: string, ch: char): (r: Option<nat>)
    ensures r.Some? ==> r.value < |s| && s[r.value] == ch && ch !in s[r.value + 1..]
    ensures r.None? ==> ch !in s
  {
    if s == [] then None
    else if s[|s| - 1] == ch then Some(|s| - 1)
    else LastIndexOf(s[..|s| - 1], ch)
  }

  /**
   * `deletingPathExtension()` on a file name: the name without the text from
   * its last `.` on; a name whose only `.` leads keeps it.
   */
  function DropExtension(name: string): (stem: string)
    ensures stem <= name
    ensures |name| > 0 && '.' in name[1..] ==>
      |stem| < |name| && name[|stem|] == '.' && '.' !in name[|stem| + 1..]
    ensures |name| == 0 || '.' !in name[1..] ==> stem == name
  {
    match LastIndexOf(name, '.')
    case Some(k) =>
      if k > 0 then
        assert name[1..][k - 1] == '.';
        name[..k]
      else
        assert name[1..] == name[k + 1..];
        name
    case None =>
      name
  }

  /** `url.deletingPathExtension().lastPathComponent`: the file name without its extension. */
  function FileStem(p: Url): (stem: string)
    ensures '/' !in stem
    ensures stem <= LastPathComponent(p)
    ensures '.' !in LastPathComponent(p) ==> stem == LastPathComponent(p)
  {
    var name := LastPathComponent(p);
    assert |name| > 0 && '.' !in name ==> '.' !in name[1..] by {
      if |name| > 0 && '.' in name[1..] {
        var j :| 0 <= j < |name[1..]| && name[1..][j] == '.';
        assert name[j + 1] == '.';
      }
    }
    DropExtension(name)
  }
}

/** The `AudioTrack` record shared by the library and the player. */
module Tracks {
  import opened Wrappers
  import opened Paths

  /** Track identities; the source draws a fresh UUID for every record it builds. */
  type TrackId = nat

  /** An audio track. Artwork images are not modelled. */
  datatype AudioTrack = AudioTrack(
    id: TrackId,
    title: string,
    artist: string,
    url: Option<Url>,
    duration: real)
}
