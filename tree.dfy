/** The progress tracker: the stack of tree parts that is grown or shrunk
    by one part per round according to the sign of the score difference. */
module Tree {

  /** The fixed order in which the parts of the tree appear. */
  const TreeParts: seq<string> := ["star", "top", "middle", "bottom", "trunk"]

  /** The stack shows the first few parts of the tree, in order. */
  predicate IsTreePrefix(state: seq<string>) {
    |state| <= |TreeParts| && state == TreeParts[..|state|]
  }

  /** One update of the stack for a given score difference: a positive
      difference adds the next part unless the tree is complete, a negative
      one removes the last part unless the stack is empty, zero keeps it. */
  function TreeStep(state: seq<string>, scoreDiff: int): (r: seq<string>)
    ensures scoreDiff == 0 ==> r == state
    ensures |r| == |state| + 1 <==> scoreDiff > 0 && |state| < |TreeParts|
    ensures |r| == |state| - 1 <==> scoreDiff < 0 && |state| > 0
    ensures |state| - 1 <= |r| <= |state| + 1
    ensures |r| > |state| ==> r == state + [TreeParts[|state|]]
    ensures |r| < |state| ==> r == state[..|r|]
    ensures |r| == |state| ==> r == state
    ensures IsTreePrefix(state) ==> IsTreePrefix(r)
  {
    if scoreDiff > 0 then
      if |state| < |TreeParts| then state + [TreeParts[|state|]] else state
    else if scoreDiff < 0 then
      if |state| > 0 then state[..|state| - 1] else state
    else
      state
  }
}
