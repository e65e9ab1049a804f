/** A reference to another asset, kept both as written and as resolved against the referring document. */
module AssetRefs {
  import opened Wrappers
  import opened Ui

  /** Anchoring a path written in a document to that document's own path. */
  type Relative = (AssetPath, string) -> AssetPath

  /** The two parts of a reference: the path as written and the path it currently resolves to. */
  datatype RefState = RefState(path: string, resolved: AssetPath)

  /** Resolving against `base`: the written path stays, the resolved path is recomputed from it alone. */
  function Resolve(s: RefState, base: AssetPath, relative: Relative): RefState {
    RefState(s.path, relative(base, s.path))
  }

  class AssetRef {
    var path: string
    var resolved: AssetPath

    function State(): RefState
      reads this
    {
      RefState(path, resolved)
    }

    /** A fresh reference resolves to its own path, with no label. */
    constructor(p: string)
      ensures path == p
      ensures resolved == AssetPath(p, None)
    {
      path := p;
      resolved := AssetPath(p, None);
    }

    /** Recompute the resolved path from the written one; the written path never changes. */
    method ResolveAssetPath(base: AssetPath, relative: Relative)
      modifies this
      ensures path == old(path)
      ensures resolved == relative(base, path)
      ensures State() == Resolve(old(State()), base, relative)
    {
      resolved := relative(base, path);
    }

    /** The path the reference currently resolves to. */
    function Resolved(): (r: AssetPath)
      reads this
      ensures r == State().resolved
    {
      resolved
    }
  }

  /** What resolving produces does not depend on what was resolved before. */
  lemma ResolveForgetsPrevious(s: RefState, t: RefState, base: AssetPath, relative: Relative)
    requires s.path == t.path
    ensures Resolve(s, base, relative) == Resolve(t, base, relative)
  {
  }

  /** Resolving twice against the same base is resolving once. */
  lemma ResolveIdempotent(s: RefState, base: AssetPath, relative: Relative)
    ensures Resolve(Resolve(s, base, relative), base, relative) == Resolve(s, base, relative)
  {
  }

  /** Resolving against `b1` and then `b2` is resolving against `b2` alone. */
  lemma LastBaseWins(s: RefState, b1: AssetPath, b2: AssetPath, relative: Relative)
    ensures Resolve(Resolve(s, b1, relative), b2, relative) == Resolve(s, b2, relative)
  {
  }
}
