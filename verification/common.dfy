/** Small shared vocabulary: optional values, results and filesystem paths. */
module Common {

  datatype Option<+T> = None | Some(value: T)

  datatype Result<+T, +E> = Ok(value: T) | Err(error: E)

  /** A filesystem path: absolute or relative, as a list of components. */
  datatype Path = Path(absolute: bool, parts: seq<string>)

  /** `base.join(p)`: an absolute `p` replaces `base`, a relative one is appended to it. */
  function Join(base: Path, p: Path): (r: Path)
    ensures p.absolute ==> r == p
    ensures !p.absolute ==> r.absolute == base.absolute && |r.parts| == |base.parts| + |p.parts|
    ensures !p.absolute ==> r.parts[..|base.parts|] == base.parts && r.parts[|base.parts|..] == p.parts
  {
    if p.absolute then p else Path(base.absolute, base.parts + p.parts)
  }

  /** `base.join(name)` for a single relative component. */
  function Child(base: Path, name: string): (r: Path)
    ensures r.absolute == base.absolute && r.parts == base.parts + [name]
  {
    Join(base, Path(false, [name]))
  }

  /** The directory holding `p`; the root (no components) has no parent. */
  function Parent(p: Path): (r: Path)
    requires p.parts != []
  {
    Path(p.absolute, p.parts[..|p.parts| - 1])
  }

  /** Every ancestor of `p`, `p` itself included (what `create_dir_all` creates). */
  function Ancestors(p: Path): (r: set<Path>)
    ensures p in r
    ensures forall q :: q in r ==> q.absolute == p.absolute && |q.parts| <= |p.parts| && q.parts == p.parts[..|q.parts|]
  {
    assert p == Path(p.absolute, p.parts[..|p.parts|]);
    set i | 0 <= i <= |p.parts| :: Path(p.absolute, p.parts[..i])
  }
}
