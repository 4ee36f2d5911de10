/** `plan_recursion` (src/symphony/rlm/recursive.py): a query priced before it runs. */
module RecursionPlans {
  import opened Numbers
  import opened Chunker
  import opened Recursion
  import opened BoundaryFree

  datatype Plan = Plan(leaves: seq<nat>, depthReached: nat, truncatedLeaves: nat, internalNodes: nat)

  const NOTHING := Plan([], 0, 0, 0)

  function TokensOf(length: nat): nat { CeilDiv(length, CHARS_PER_TOKEN) }

  function Reach(p: Plan, depth: nat): Plan { p.(depthReached := Max(p.depthReached, depth)) }

  function Branch(p: Plan): Plan { p.(internalNodes := p.internalNodes + 1) }

  function SizeSent(budget: Budget, length: nat): nat { TokensOf(Min(length, budget.MaxChunkChars())) }

  function PlanLeaf(budget: Budget, length: nat, p: Plan): Plan
  {
    p.(leaves := p.leaves + [SizeSent(budget, length)],
       truncatedLeaves := p.truncatedLeaves + if length > budget.MaxChunkChars() then 1 else 0)
  }

  function Walk(budget: Budget, length: nat, depth: nat, p: Plan): Plan
    requires budget.Valid()
    decreases Max(budget.maxDepth - depth, 0), 0
  {
    if TokensOf(length) <= budget.maxChunkTokens || depth >= budget.maxDepth then
      PlanLeaf(budget, length, Reach(p, depth))
    else WalkPieces(budget, length, LevelChars(length, budget), depth, Branch(Reach(p, depth)))
  }

  /** `length` characters in steps of `step`, with what is left over last. */
  function WalkPieces(budget: Budget, length: nat, step: nat, depth: nat, p: Plan): Plan
    requires budget.Valid() && depth < budget.maxDepth && step > 0
    decreases budget.maxDepth - depth - 1, length + 1
  {
    if length == 0 then p
    else if length <= step then Walk(budget, length, depth + 1, p)
    else WalkPieces(budget, length - step, step, depth, Walk(budget, step, depth + 1, p))
  }

  function PlanOf(budget: Budget, payload: string): Plan
    requires budget.Valid()
  {
    if payload == "" then NOTHING else Walk(budget, |payload|, 0, NOTHING)
  }

  // ---- What the plan says ----

  function Sum(xs: seq<nat>): nat { if xs == [] then 0 else Sum(xs[..|xs| - 1]) + xs[|xs| - 1] }

  /** `max_calls_upper_bound`: one call a leaf, and one for each node that may have to reduce. */
  function UpperCalls(p: Plan): nat { |p.leaves| + p.internalNodes }

  function WouldStopOn(budget: Budget, p: Plan): seq<Reason>
  {
    (if UpperCalls(p) > budget.maxCalls then [MaxCalls] else [])
    + (if Sum(p.leaves) > budget.maxTotalTokens then [MaxTotalTokens] else [])
    + (if p.truncatedLeaves > 0 then [MaxDepthTruncated] else [])
  }

  predicate FitsBudget(budget: Budget, p: Plan)
  {
    !(UpperCalls(p) > budget.maxCalls || Sum(p.leaves) > budget.maxTotalTokens || p.truncatedLeaves > 0)
  }

  datatype Report = Report(
    chars: nat,
    tokens: nat,
    estimatedCalls: nat,
    maxCallsUpperBound: nat,
    internalNodes: nat,
    estimatedTokensCharged: nat,
    estimatedDepth: nat,
    truncatedLeaves: nat,
    fitsBudget: bool,
    wouldStopOn: seq<Reason>)

  function ReportOf(budget: Budget, payload: string): Report
    requires budget.Valid()
  {
    var p := PlanOf(budget, payload);
    Report(|payload|, EstimateTokens(payload), |p.leaves|, UpperCalls(p), p.internalNodes, Sum(p.leaves),
           p.depthReached, p.truncatedLeaves, FitsBudget(budget, p), WouldStopOn(budget, p))
  }

  // ---- The tree a query really builds ----

  /** The same walk over the text, split where the chunker splits it. It asks no sub-model. */
  function Tree(budget: Budget, body: string, depth: nat, p: Plan): Plan
    requires budget.Valid()
    decreases Max(budget.maxDepth - depth, 0), 0
  {
    if IsLeaf(budget, body, depth) then PlanLeaf(budget, |body|, Reach(p, depth))
    else TreePieces(budget, Split(budget, body), depth, Branch(Reach(p, depth)))
  }

  function TreePieces(budget: Budget, pieces: seq<Chunk>, depth: nat, p: Plan): Plan
    requires budget.Valid() && depth < budget.maxDepth
    decreases budget.maxDepth - depth - 1, |pieces| + 1
  {
    if pieces == [] then p else TreePieces(budget, pieces[1..], depth, Tree(budget, pieces[0].text, depth + 1, p))
  }

  function TreeOf(budget: Budget, payload: string): Plan
    requires budget.Valid()
  {
    if payload == "" then NOTHING else Tree(budget, payload, 0, NOTHING)
  }

  lemma WalkOneStep(budget: Budget, length: nat, step: nat, depth: nat, p: Plan)
    requires budget.Valid() && depth < budget.maxDepth && 0 < step && 0 < length
    ensures var n := Min(step, length);
            WalkPieces(budget, length, step, depth, p)
            == WalkPieces(budget, length - n, step, depth, Walk(budget, n, depth + 1, p))
  {
  }

  lemma {:induction false} TreeIsWalk(budget: Budget, body: string, depth: nat, p: Plan)
    requires budget.Valid() && budget.overlapTokens == 0 && NoBoundaries(body)
    ensures Tree(budget, body, depth, p) == Walk(budget, |body|, depth, p)
    decreases Max(budget.maxDepth - depth, 0), 0
  {
    if !IsLeaf(budget, body, depth) {
      SplitIsEven(budget, body);
      TreePiecesAreWalk(budget, body, LevelChars(|body|, budget), 0, Split(budget, body), depth,
                        Branch(Reach(p, depth)));
    }
  }

  lemma {:induction false} TreePiecesAreWalk(budget: Budget, body: string, step: nat, from: nat, pieces: seq<Chunk>,
                                             depth: nat, p: Plan)
    requires budget.Valid() && budget.overlapTokens == 0 && depth < budget.maxDepth && step > 0 && from <= |body|
    requires EvenSteps(pieces, body, step, from)
    ensures TreePieces(budget, pieces, depth, p) == WalkPieces(budget, |body| - from, step, depth, p)
    decreases budget.maxDepth - depth - 1, |pieces| + 1
  {
    if pieces != [] {
      var c := pieces[0];
      TreeIsWalk(budget, c.text, depth + 1, p);
      WalkOneStep(budget, |body| - from, step, depth, p);
      TreePiecesAreWalk(budget, body, step, c.end, pieces[1..], depth, Walk(budget, |c.text|, depth + 1, p));
    }
  }

  /** On text without natural boundaries, split without overlap, the plan is the tree. */
  lemma PlanIsTree(budget: Budget, payload: string)
    requires budget.Valid() && budget.overlapTokens == 0 && NoBoundaries(payload)
    ensures PlanOf(budget, payload) == TreeOf(budget, payload)
  {
    if payload != "" {
      TreeIsWalk(budget, payload, 0, NOTHING);
    }
  }
}
