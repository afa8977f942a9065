// File-system paths as `URL.appendingPathComponent` and `lastPathComponent`
// treat them: components joined by '/'.
module Paths {

  /** `dir.appendingPathComponent(name).path`. */
  function JoinPath(dir: string, name: string): (p: string)
    ensures |p| == |dir| + 1 + |name| && p[|dir|] == '/'
  {
    dir + "/" + name
  }

  /** Everything after the last '/', or the whole string when it has none. */
  function LastPathComponent(p: string): (c: string)
    ensures |c| <= |p|
    ensures '/' !in c
  {
    if p == [] || p[|p| - 1] == '/' then []
    else LastPathComponent(p[..|p| - 1]) + [p[|p| - 1]]
  }

  /** The last component is the tail of the path, and it reaches back to
      the last '/' (or to the start of a path without one). */
  lemma {:induction false} LastComponentIsTail(p: string)
    ensures var c := LastPathComponent(p);
      && c == p[|p| - |c|..]
      && (|c| < |p| ==> p[|p| - |c| - 1] == '/')
  {
    if p != [] && p[|p| - 1] != '/' {
      var init := p[..|p| - 1];
      LastComponentIsTail(init);
      var c := LastPathComponent(p);
      assert c == LastPathComponent(init) + [p[|p| - 1]];
      assert p[|p| - |c|..] == init[|init| - |LastPathComponent(init)|..] + [p[|p| - 1]];
    }
  }

  /** The last component of a joined path is the name that was appended,
      provided the name is itself a single component. */
  lemma {:induction false} LastComponentOfJoin(dir: string, name: string)
    requires '/' !in name
    ensures LastPathComponent(JoinPath(dir, name)) == name
    decreases |name|
  {
    var p := JoinPath(dir, name);
    if name == [] {
      assert p[|p| - 1] == '/';
    } else {
      var init := name[..|name| - 1];
      assert p[..|p| - 1] == JoinPath(dir, init);
      assert '/' !in init by {
        forall k | 0 <= k < |init| ensures init[k] != '/' {
          assert init[k] == name[k];
        }
      }
      LastComponentOfJoin(dir, init);
      assert name == init + [name[|name| - 1]];
    }
  }
}
