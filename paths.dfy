/** File-name handling used by the uploader: the extension of a file name, the
    remote title derived from it, the last element of a directory path, and the
    joining of a directory and a file name. The separator is '/'. */
module Paths {

  /** The extension of a path, scanned from its end as the standard library's
      Ext does: stop with "" at a separator, stop at the first '.' met. */
  function Ext(path: string): (e: string)
    ensures |e| <= |path|
    decreases |path|
  {
    if path == [] then ""
    else
      var c := path[|path| - 1];
      if c == '/' then ""
      else if c == '.' then "."
      else
        var e := Ext(path[..|path| - 1]);
        if e == "" then "" else e + [c]
  }

  /** The characters after the last '/' of the path (all of it if it has none). */
  function LastElement(path: string): (s: string)
    ensures |s| <= |path|
    decreases |path|
  {
    if path == [] || path[|path| - 1] == '/' then ""
    else LastElement(path[..|path| - 1]) + [path[|path| - 1]]
  }

  /** `e` is the extension of `path`: either the suffix that starts at the last
      '.' of the final path element, or "" when that element has no '.'. */
  ghost predicate IsExtOf(path: string, e: string) {
    |e| <= |path| && e == path[|path| - |e|..] &&
    if e == "" then '.' !in LastElement(path)
    else e[0] == '.' && forall k :: 0 < k < |e| ==> e[k] != '.' && e[k] != '/'
  }

  /** Ext gives the suffix from the last '.' of the final element, or "". */
  lemma {:induction false} ExtIsExtension(path: string)
    ensures IsExtOf(path, Ext(path))
    decreases |path|
  {
    if path != [] {
      var c := path[|path| - 1];
      var front := path[..|path| - 1];
      if c != '/' && c != '.' {
        ExtIsExtension(front);
        var e := Ext(front);
        assert LastElement(path) == LastElement(front) + [c];
        if e != "" {
          assert path[|path| - |e| - 1..] == front[|front| - |e|..] + [c];
        }
      }
    }
  }

  /** A '.' with no '/' after it lies in the last element. */
  lemma DotInLastElement(path: string, p: nat)
    requires p < |path| && path[p] == '.'
    requires forall k :: p < k < |path| ==> path[k] != '/'
    ensures '.' in LastElement(path)
  {
    LastElementShape(path);
    var s := LastElement(path);
    assert s[p - (|path| - |s|)] == path[p];
  }

  /** The extension is the only suffix with the properties of IsExtOf. */
  lemma ExtUnique(path: string, e: string)
    requires IsExtOf(path, e)
    ensures e == Ext(path)
  {
    ExtIsExtension(path);
    var x := Ext(path);
    if e == "" && x != "" {
      DotInLastElement(path, |path| - |x|);
    } else if e != "" && x == "" {
      DotInLastElement(path, |path| - |e|);
    }
  }

  /** A path with no '.' at all has no extension. */
  lemma {:induction false} ExtWithoutDot(path: string)
    requires '.' !in path
    ensures Ext(path) == ""
    decreases |path|
  {
    if path != [] {
      var front := path[..|path| - 1];
      assert forall c :: c in front ==> c in path;
      ExtWithoutDot(front);
    }
  }

  /** The remote title of a file: its name with the extension removed. */
  function TitleOf(name: string): string {
    name[..|name| - |Ext(name)|]
  }

  /** The title and the extension make up the name again; a name without
      extension is its own title. */
  lemma TitleSplit(name: string)
    ensures TitleOf(name) + Ext(name) == name
    ensures Ext(name) == "" ==> TitleOf(name) == name && '.' !in LastElement(name)
  {
    ExtIsExtension(name);
  }

  /** The path with every trailing '/' removed. */
  function TrimSlashes(path: string): (t: string)
    ensures |t| <= |path|
    decreases |path|
  {
    if path != [] && path[|path| - 1] == '/' then TrimSlashes(path[..|path| - 1]) else path
  }

  /** The last element of a directory path, as the standard library's Base:
      "." for the empty path, "/" for a path of separators only, otherwise the
      last element after trailing separators are removed. */
  function Base(path: string): string {
    if path == "" then "."
    else
      var t := TrimSlashes(path);
      if t == "" then "/" else LastElement(t)
  }

  /** What remains after trimming is a prefix that does not end in '/', and
      only '/' was removed. */
  lemma {:induction false} TrimmedShape(path: string)
    ensures var t := TrimSlashes(path);
      t == path[..|t|] && (t == "" || t[|t| - 1] != '/') &&
      forall k :: |t| <= k < |path| ==> path[k] == '/'
    decreases |path|
  {
    if path != [] && path[|path| - 1] == '/' {
      TrimmedShape(path[..|path| - 1]);
    }
  }

  /** The last element holds no '/' and is all of the path, or follows a '/'. */
  lemma {:induction false} LastElementShape(path: string)
    ensures var s := LastElement(path);
      s == path[|path| - |s|..] && '/' !in s && (|s| == |path| || path[|path| - |s| - 1] == '/')
    decreases |path|
  {
    if path != [] && path[|path| - 1] != '/' {
      var front := path[..|path| - 1];
      LastElementShape(front);
      var s := LastElement(front);
      assert path[|path| - |s| - 1..] == front[|front| - |s|..] + [path[|path| - 1]];
    }
  }

  /** The base name is never empty, and holds a '/' only when it is "/". */
  lemma BaseShape(path: string)
    ensures Base(path) != ""
    ensures path == "" ==> Base(path) == "."
    ensures '/' in Base(path) ==> Base(path) == "/"
  {
    if path != "" && TrimSlashes(path) != "" {
      TrimmedShape(path);
      LastElementShape(TrimSlashes(path));
    }
  }

  /** The last element of a path that ends in "/" followed by a name
      without separators is that name. */
  lemma {:induction false} LastElementAfterSlash(dir: string, name: string)
    requires '/' !in name
    ensures LastElement(dir + "/" + name) == name
    decreases |name|
  {
    var path := dir + "/" + name;
    if name == [] {
      assert path[|path| - 1] == '/';
    } else {
      var front := name[..|name| - 1];
      assert path[..|path| - 1] == dir + "/" + front;
      LastElementAfterSlash(dir, front);
      assert LastElement(path) == LastElement(dir + "/" + front) + [name[|name| - 1]];
    }
  }

  /** The path of a file in a directory. */
  function Join(dir: string, name: string): string {
    if dir == "" then name
    else if dir[|dir| - 1] == '/' then dir + name
    else dir + "/" + name
  }
}
