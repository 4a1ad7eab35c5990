/** The two functions of Node's `path` module (POSIX flavour) that the providers
    call on a document's file-system path: `basename` for the editor title and
    `extname` for the office viewer's routing and its "open" payload. */
module NodePath {
  import opened Protocol

  function TrimTrailingSlashes(p: string): (r: string)
    ensures r <= p
    ensures r == [] || r[|r| - 1] != '/'
  {
    if p == [] || p[|p| - 1] != '/' then p else TrimTrailingSlashes(p[..|p| - 1])
  }

  /** The part of `p` after its last '/' (all of `p` when it has none). */
  function LastSegment(p: string): (r: string)
    ensures |r| <= |p|
    ensures '/' !in r
    ensures |r| < |p| ==> p[|p| - |r| - 1] == '/'
  {
    if p == [] || p[|p| - 1] == '/' then [] else LastSegment(p[..|p| - 1]) + [p[|p| - 1]]
  }

  /** The index of the last occurrence of `c` in `s`. */
  function LastIndexOf(s: string, c: char): (r: Option<nat>)
    ensures r.Some? ==> r.value < |s| && s[r.value] == c && c !in s[r.value + 1..]
    ensures r.None? ==> c !in s
  {
    if s == [] then None
    else if s[|s| - 1] == c then Some(|s| - 1)
    else LastIndexOf(s[..|s| - 1], c)
  }

  /** `path.basename(p)`: the last segment, trailing separators ignored. */
  function Basename(p: string): (r: string)
    ensures '/' !in r
  {
    LastSegment(TrimTrailingSlashes(p))
  }

  /** `path.extname(p)`: from the last '.' of the last segment to its end; empty
      when the segment has no '.', when its only '.' that counts is its first
      character (".bashrc"), and for the segment "..". */
  function Extname(p: string): (r: string)
    ensures r == [] || (r[0] == '.' && '.' !in r[1..] && '/' !in r)
    ensures |r| <= |Basename(p)| && r == Basename(p)[|Basename(p)| - |r|..]
  {
    var part := Basename(p);
    if part == ".." then []
    else match LastIndexOf(part, '.')
      case None => []
      case Some(d) => if d == 0 then [] else part[d..]
  }

  /** The last segment is the end of the path. */
  lemma {:induction false} LastSegmentIsSuffix(p: string)
    ensures LastSegment(p) == p[|p| - |LastSegment(p)|..]
    decreases |p|
  {
    if p != [] && p[|p| - 1] != '/' {
      var q := p[..|p| - 1];
      LastSegmentIsSuffix(q);
      assert p[|p| - |LastSegment(p)|..] == q[|q| - |LastSegment(q)|..] + [p[|p| - 1]];
    }
  }

  lemma {:induction false} LastSegmentAfterSlash(dir: string, name: string)
    requires '/' !in name
    ensures LastSegment(dir + "/" + name) == name
    decreases |name|
  {
    var p := dir + "/" + name;
    if name == [] {
      assert p[|p| - 1] == '/';
    } else {
      assert p[..|p| - 1] == dir + "/" + name[..|name| - 1];
      LastSegmentAfterSlash(dir, name[..|name| - 1]);
      assert name == name[..|name| - 1] + [name[|name| - 1]];
    }
  }

  /** The base name of `dir/name` is `name`, whatever the directory, and a
      trailing separator does not change it. */
  lemma BasenameOfFileName(dir: string, name: string)
    requires name != [] && '/' !in name
    ensures Basename(dir + "/" + name) == name
    ensures Basename(dir + "/" + name + "/") == name
  {
    var p := dir + "/" + name;
    assert p[|p| - 1] == name[|name| - 1];
    assert (p + "/")[..|p + "/"| - 1] == p;
    LastSegmentAfterSlash(dir, name);
  }

  lemma {:induction false} LastDotInSuffix(stem: string, ext: string)
    requires |ext| >= 1 && ext[0] == '.' && '.' !in ext[1..]
    ensures LastIndexOf(stem + ext, '.') == Some(|stem|)
    decreases |ext|
  {
    var s := stem + ext;
    if |ext| == 1 {
      assert s[|s| - 1] == '.';
    } else {
      assert s[|s| - 1] == ext[|ext| - 1] && ext[|ext| - 1] in ext[1..];
      assert s[..|s| - 1] == stem + ext[..|ext| - 1];
      assert ext[..|ext| - 1][1..] == ext[1..|ext| - 1];
      LastDotInSuffix(stem, ext[..|ext| - 1]);
    }
  }

  /** The extension of `dir/name.ext` is `.ext`, whatever the directory, as long
      as the name before it is not empty and the file is not "..". */
  lemma ExtnameOfFileName(dir: string, name: string, ext: string)
    requires |ext| >= 1 && ext[0] == '.' && '.' !in ext[1..] && '/' !in ext
    requires name != [] && '/' !in name && name + ext != ".."
    ensures Extname(dir + "/" + name + ext) == ext
  {
    var p := dir + "/" + name + ext;
    assert p == dir + "/" + (name + ext);
    assert p[|p| - 1] == ext[|ext| - 1];
    LastSegmentAfterSlash(dir, name + ext);
    LastDotInSuffix(name, ext);
  }
}
