/**
 * Go's path/filepath functions on Unix, where '/' is the only separator and
 * there are no volume names.
 */
module GoPath {

  predicate NoSlash(s: string) {
    forall i :: 0 <= i < |s| ==> s[i] != '/'
  }

  lemma NoSlashConcat(a: string, b: string)
    requires NoSlash(a) && NoSlash(b)
    ensures NoSlash(a + b)
  {
    assert forall i :: 0 <= i < |a + b| ==> (a + b)[i] == if i < |a| then a[i] else b[i - |a|];
  }

  predicate NoDot(s: string) {
    forall i :: 0 <= i < |s| ==> s[i] != '.'
  }

  /** `path` with every trailing '/' removed. */
  function TrimTrailingSlashes(path: string): (r: string)
    ensures |r| <= |path| && r == path[..|r|]
    ensures r != [] ==> r[|r| - 1] != '/'
    ensures forall i :: |r| <= i < |path| ==> path[i] == '/'
  {
    if path != [] && path[|path| - 1] == '/' then TrimTrailingSlashes(path[..|path| - 1]) else path
  }

  /** What follows the last '/' of `path` (all of it when there is none). */
  function LastElement(path: string): (r: string)
    ensures |r| <= |path| && r == path[|path| - |r|..]
    ensures NoSlash(r)
    ensures |r| < |path| ==> path[|path| - |r| - 1] == '/'
  {
    if path == [] || path[|path| - 1] == '/' then []
    else LastElement(path[..|path| - 1]) + [path[|path| - 1]]
  }

  lemma LastElementOfSlashFree(path: string)
    requires NoSlash(path)
    ensures LastElement(path) == path
  {
  }

  /**
   * filepath.Base: the last element of `path` after trailing slashes are
   * removed; "." for the empty path and "/" for a path of slashes only.
   */
  function Base(path: string): (b: string)
    ensures b != []
    ensures NoSlash(b) || b == "/"
  {
    if path == [] then "."
    else
      var e := LastElement(TrimTrailingSlashes(path));
      if e == [] then "/" else e
  }

  /** A name without '/' is its own base name. */
  lemma BaseOfName(name: string)
    requires name != [] && NoSlash(name)
    ensures Base(name) == name
  {
    LastElementOfSlashFree(name);
  }

  /** Applying Base again changes nothing. */
  lemma BaseIdempotent(path: string)
    ensures Base(Base(path)) == Base(path)
  {
    var b := Base(path);
    if b == "/" {
      assert TrimTrailingSlashes(b) == [];
    } else {
      BaseOfName(b);
    }
  }

  /** The base name of `dir + "/" + name` is `name` when `name` holds no '/'. */
  lemma BaseOfJoined(dir: string, name: string)
    requires name != [] && NoSlash(name)
    ensures Base(dir + "/" + name) == name
  {
    var p := dir + "/" + name;
    assert TrimTrailingSlashes(p) == p;
    LastElementSuffix(dir + "/", name);
  }

  lemma {:induction false} LastElementSuffix(prefix: string, name: string)
    requires prefix != [] && prefix[|prefix| - 1] == '/' && NoSlash(name)
    ensures LastElement(prefix + name) == name
    decreases |name|
  {
    var p := prefix + name;
    if name == [] {
      assert p == prefix;
    } else {
      assert p[..|p| - 1] == prefix + name[..|name| - 1];
      LastElementSuffix(prefix, name[..|name| - 1]);
    }
  }

  /**
   * filepath.Ext: the suffix of `path` that starts at the last '.' of its
   * final element, or "" when that element has no '.'.
   */
  function Ext(path: string): (e: string)
    ensures |e| <= |path| && e == path[|path| - |e|..]
    ensures e != [] ==> e[0] == '.' && NoSlash(e) && NoDot(e[1..])
  {
    if path == [] || path[|path| - 1] == '/' then []
    else if path[|path| - 1] == '.' then "."
    else
      var e := Ext(path[..|path| - 1]);
      if e == [] then [] else e + [path[|path| - 1]]
  }

  /** Ext is "" exactly when no '.' follows the last '/'. */
  lemma {:induction false} ExtEmpty(path: string)
    ensures Ext(path) == [] <==> NoDot(LastElement(path))
  {
    if path != [] && path[|path| - 1] != '/' {
      var init, c := path[..|path| - 1], path[|path| - 1];
      assert LastElement(path) == LastElement(init) + [c];
      NoDotSnoc(LastElement(init), c);
      if c != '.' {
        ExtEmpty(init);
      }
    }
  }

  lemma NoDotSnoc(s: string, c: char)
    ensures NoDot(s + [c]) <==> NoDot(s) && c != '.'
  {
    assert forall i :: 0 <= i < |s| ==> (s + [c])[i] == s[i];
    assert (s + [c])[|s|] == c;
  }

  /** A path ending in '.' followed by a dot- and slash-free tail has that extension. */
  lemma {:induction false} ExtOfSuffix(stem: string, ext: string)
    requires ext != [] && ext[0] == '.' && NoSlash(ext) && NoDot(ext[1..])
    ensures Ext(stem + ext) == ext
    decreases |ext|
  {
    var p := stem + ext;
    if |ext| == 1 {
      assert p[|p| - 1] == '.';
    } else {
      var shorter := ext[..|ext| - 1];
      var c := ext[|ext| - 1];
      assert c == ext[1..][|ext| - 2];
      assert c != '.' && c != '/';
      assert p[|p| - 1] == c;
      assert p[..|p| - 1] == stem + shorter;
      assert NoSlash(shorter);
      assert NoDot(shorter[1..]) by {
        assert shorter[1..] == ext[1..][..|ext| - 2];
      }
      ExtOfSuffix(stem, shorter);
      assert shorter + [c] == ext;
    }
  }

  /** strings.TrimSuffix */
  function TrimSuffix(s: string, suffix: string): (r: string)
    ensures |r| <= |s| && r == s[..|r|]
    ensures |suffix| <= |s| && s[|s| - |suffix|..] == suffix ==> r + suffix == s
  {
    if |suffix| <= |s| && s[|s| - |suffix|..] == suffix then s[..|s| - |suffix|] else s
  }

  /** Trimming a suffix that is there leaves what precedes it. */
  lemma TrimSuffixConcat(a: string, b: string)
    ensures TrimSuffix(a + b, b) == a
  {
    assert (a + b)[|a + b| - |b|..] == b;
    assert (a + b)[..|a + b| - |b|] == a;
  }

  /**
   * filepath.Join of two non-empty elements, for elements that are already in
   * clean form (no "." or ".." element, no doubled or trailing '/').
   */
  function Join(dir: string, name: string): string {
    if dir == [] then name else if name == [] then dir else dir + "/" + name
  }
}
