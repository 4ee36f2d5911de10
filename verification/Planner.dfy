/** `plan_recursion` as the source writes it: a recursive closure updating the variables around it. */
module Planning {
  import opened Numbers
  import opened Chunker
  import opened Recursion
  import P = RecursionPlans

  /** The closure `walk` and the variables it updates. */
  class Planner {
    const budget: Budget
    var leaves: seq<nat>
    var depthReached: nat
    var truncatedLeaves: nat
    var internalNodes: nat

    ghost function Now(): P.Plan
      reads this
    {
      P.Plan(leaves, depthReached, truncatedLeaves, internalNodes)
    }

    constructor (budget: Budget)
      ensures this.budget == budget && Now() == P.NOTHING
    {
      this.budget := budget;
      leaves, depthReached, truncatedLeaves, internalNodes := [], 0, 0, 0;
    }

    method Walk(chars: nat, depth: nat)
      requires budget.Valid()
      modifies this
      ensures Now() == P.Walk(budget, chars, depth, old(Now()))
      decreases Max(budget.maxDepth - depth, 0), 0
    {
      var length := chars;
      depthReached := Max(depthReached, depth);
      if P.TokensOf(length) <= budget.maxChunkTokens || depth >= budget.maxDepth {
        if length > budget.MaxChunkChars() {
          truncatedLeaves := truncatedLeaves + 1;
          length := budget.MaxChunkChars();
        }
        leaves := leaves + [P.TokensOf(length)];
        return;
      }
      internalNodes := internalNodes + 1;
      var step := LevelChars(length, budget);
      LeftOfDivision(length, step);
      WalkPieces(length / step, step, length % step, depth);
    }

    /** The `divmod` loop of `walk`. */
    method WalkPieces(full: nat, step: nat, rest: nat, depth: nat)
      requires budget.Valid() && depth < budget.maxDepth && rest < step
      modifies this
      ensures Now() == P.WalkPieces(budget, Left(full, step, rest), step, depth, old(Now()))
      decreases budget.maxDepth - depth - 1, 1
    {
      for i := 0 to full
        invariant P.WalkPieces(budget, Left(full, step, rest), step, depth, old(Now()))
               == P.WalkPieces(budget, Left(full - i, step, rest), step, depth, Now())
      {
        OneStep(budget, full - i, step, rest, depth, Now());
        Walk(step, depth + 1);
      }
      if rest != 0 {
        Walk(rest, depth + 1);
      }
    }
  }

  /** What the plan still has to walk after all but `n` full steps. */
  function Left(n: nat, step: nat, rest: nat): nat { if n == 0 then rest else Left(n - 1, step, rest) + step }

  lemma {:induction false} LeftOverall(n: nat, step: nat, rest: nat)
    ensures Left(n, step, rest) == n * step + rest
  {
    if n > 0 {
      LeftOverall(n - 1, step, rest);
      assert n * step == (n - 1) * step + step;
    }
  }

  lemma LeftOfDivision(length: nat, step: nat)
    requires step > 0
    ensures Left(length / step, step, length % step) == length
  {
    LeftOverall(length / step, step, length % step);
  }

  lemma OneStep(budget: Budget, n: nat, step: nat, rest: nat, depth: nat, p: P.Plan)
    requires budget.Valid() && depth < budget.maxDepth && step > 0 && n > 0
    ensures P.WalkPieces(budget, Left(n, step, rest), step, depth, p)
         == P.WalkPieces(budget, Left(n - 1, step, rest), step, depth, P.Walk(budget, step, depth + 1, p))
  {
    P.WalkOneStep(budget, Left(n, step, rest), step, depth, p);
  }

  method NameStops(overCalls: bool, overTokens: bool, truncated: bool) returns (named: seq<Reason>)
    ensures named == (if overCalls then [MaxCalls] else []) + (if overTokens then [MaxTotalTokens] else [])
                     + (if truncated then [MaxDepthTruncated] else [])
  {
    named := [];
    if overCalls {
      named := named + [MaxCalls];
    }
    if overTokens {
      named := named + [MaxTotalTokens];
    }
    if truncated {
      named := named + [MaxDepthTruncated];
    }
  }

  method PlanRecursion(budget: Budget, payload: string) returns (report: P.Report)
    requires budget.Valid()
    ensures report == P.ReportOf(budget, payload)
  {
    var planner := new Planner(budget);
    if payload != "" {
      planner.Walk(|payload|, 0);
    }
    var charged := P.Sum(planner.leaves);
    var upperCalls := |planner.leaves| + planner.internalNodes;
    var overCalls := upperCalls > budget.maxCalls;
    var overTokens := charged > budget.maxTotalTokens;
    var wouldStopOn := NameStops(overCalls, overTokens, planner.truncatedLeaves > 0);
    report := P.Report(|payload|, EstimateTokens(payload), |planner.leaves|, upperCalls, planner.internalNodes, charged,
                       planner.depthReached, planner.truncatedLeaves,
                       !(overCalls || overTokens || planner.truncatedLeaves > 0), wouldStopOn);
  }
}
