/** What the server tells the client to walk, and which paths that covers. */
module Instructions {
  import opened StringOrder
  import opened Paths

  datatype Subtree = Subtree(relPath: string, maxDepth: int)

  datatype Instruction = Instruction(subtrees: seq<Subtree>, files: seq<string>, knownMissing: seq<string>)

  predicate IsWholeScope(h: Instruction) {
    h.subtrees == [] && h.files == [] && h.knownMissing == []
  }

  /** The root of a scope, or a normalised path below it. */
  predicate ScopePath(r: string) {
    r == "" || RelPath(r)
  }

  /** At or below `a`, where the empty path is the root of the scope. */
  predicate Within(r: string, a: string) {
    a == "" || AtOrUnder(r, a)
  }

  /** What follows the subtree's root in the path, without the separator. */
  function Remaining(r: string, a: string): string
    requires Within(r, a)
  {
    if a == "" then r
    else if r == a then ""
    else
      UnderShape(r, a);
      r[|a| + 1..]
  }

  function Slashes(s: string): nat {
    if s == "" then 0 else Slashes(s[1..]) + (if s[0] == '/' then 1 else 0)
  }

  /** How many components a relative path has: the length of `split("/")`, the empty path having none. */
  function Depth(s: string): nat {
    if s == "" then 0 else Slashes(s) + 1
  }

  predicate WithinSubtree(r: string, t: Subtree) {
    Within(r, t.relPath) && (t.maxDepth < 0 || Depth(Remaining(r, t.relPath)) <= t.maxDepth + 1)
  }

  predicate CoveredBySome(r: string, ts: seq<Subtree>) {
    exists i :: 0 <= i < |ts| && WithinSubtree(r, ts[i])
  }

  /** The paths an instruction speaks for: an absent remote path among them is to be deleted. */
  predicate Covered(r: string, h: Instruction) {
    IsWholeScope(h) || r in h.files || r in h.knownMissing || CoveredBySome(r, h.subtrees)
  }
}
