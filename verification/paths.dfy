/** Filesystem paths as sequences of components. */
module Paths {

  /** A path: the root is the empty sequence, `/a/b` is `["a", "b"]`. */
  type Path = seq<string>

  const Root: Path := []

  /** `pathlib.Path.parent`: drops the last component; the root is its own parent. */
  function Parent(p: Path): (q: Path)
    ensures q <= p
    ensures q == p <==> p == Root
    ensures p != Root ==> |q| == |p| - 1
  {
    if |p| == 0 then p else p[..|p| - 1]
  }

}
