/** Go's `path/filepath.Base` on a Unix system, where '/' is the only separator and there are no volume names. */
module Filepath {

  /** `path` without the trailing run of separators. */
  function StripTrailingSeparators(path: string): (r: string)
    ensures r <= path
    ensures r == [] || r[|r| - 1] != '/'
    ensures (forall i :: 0 <= i < |path| ==> path[i] == '/') ==> r == []
  {
    if path != [] && path[|path| - 1] == '/' then StripTrailingSeparators(path[..|path| - 1]) else path
  }

  /** The longest suffix of `path` that holds no separator. */
  function LastElement(path: string): (r: string)
    ensures |r| <= |path| && r == path[|path| - |r|..]
    ensures '/' !in r
    ensures path != [] && path[|path| - 1] != '/' ==> r != []
  {
    if path == [] || path[|path| - 1] == '/' then []
    else
      var init := path[..|path| - 1];
      var r := LastElement(init);
      assert init[|init| - |r|..] + [path[|path| - 1]] == path[|path| - |r| - 1..];
      r + [path[|path| - 1]]
  }

  /**
   * filepath.Base: the last element of `path` once trailing separators are dropped;
   * "." for the empty path and "/" for a path made only of separators.
   */
  function Base(path: string): (r: string)
    ensures r != []
    ensures '/' in r ==> r == "/"
    ensures path == [] ==> r == "."
    ensures path != [] && (forall i :: 0 <= i < |path| ==> path[i] == '/') ==> r == "/"
  {
    if path == [] then "."
    else
      var trimmed := StripTrailingSeparators(path);
      if trimmed == [] then "/" else LastElement(trimmed)
  }

  /** Trailing separators are dropped before the last element is taken: "bin/app/" names "app". */
  lemma BaseIgnoresTrailingSeparator(path: string)
    requires path != []
    ensures Base(path + "/") == Base(path)
  {
    var p := path + "/";
    assert p[..|p| - 1] == path;
    assert StripTrailingSeparators(p) == StripTrailingSeparators(path);
  }

  /** A non-empty name without separators (how a binary is usually invoked from $PATH) is its own base name. */
  lemma {:induction false} BaseOfPlainName(name: string)
    requires name != [] && '/' !in name
    ensures Base(name) == name
  {
    PlainNameIsLastElement(name);
  }

  lemma {:induction false} PlainNameIsLastElement(name: string)
    requires '/' !in name
    ensures LastElement(name) == name
  {
    if name != [] {
      var p := name[..|name| - 1];
      assert '/' !in p by {
        forall i | 0 <= i < |p| ensures p[i] != '/' {
          assert p[i] == name[i];
        }
      }
      PlainNameIsLastElement(p);
      assert name == p + [name[|name| - 1]];
    }
  }

  /** Base keeps only what follows the last separator: "./bin/app" and "/usr/local/bin/app" both give "app". */
  lemma BaseDropsDirectories(dir: string, name: string)
    requires name != [] && '/' !in name
    ensures Base(dir + "/" + name) == name
  {
    var path := dir + "/" + name;
    assert path[|path| - 1] == name[|name| - 1];
    assert StripTrailingSeparators(path) == path;
    LastElementAfterSeparator(dir + "/", name);
  }

  lemma {:induction false} LastElementAfterSeparator(prefix: string, name: string)
    requires prefix != [] && prefix[|prefix| - 1] == '/' && '/' !in name
    ensures LastElement(prefix + name) == name
  {
    if name == [] {
      assert prefix + name == prefix;
    } else {
      var p := name[..|name| - 1];
      assert '/' !in p by {
        forall i | 0 <= i < |p| ensures p[i] != '/' {
          assert p[i] == name[i];
        }
      }
      LastElementAfterSeparator(prefix, p);
      assert (prefix + name)[..|prefix + name| - 1] == prefix + p;
      assert name == p + [name[|name| - 1]];
    }
  }
}
