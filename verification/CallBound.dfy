/** When `max_calls_upper_bound` (src/symphony/rlm/recursive.py) bounds the calls, whatever is asked and answered. */
module CallBounds {
  import opened Options
  import opened Numbers
  import opened Chunker
  import opened Recursion
  import opened RecursionPlans
  import opened Fanout
  import opened PlanVerdicts
  import BoundaryFree

  /** Enough tokens for every call the budget allows, as in the source's default budget. */
  predicate TokensSuffice(budget: Budget)
  {
    budget.maxCalls * budget.maxChunkTokens <= budget.maxTotalTokens
  }

  /** A run in which no bound has been hit yet, save that leaves may have been truncated. */
  ghost predicate Fresh(env: Env, l: Ledger)
  {
    && WithinBudget(env, l) && !l.raised
    && l.tokens <= l.calls * env.budget.maxChunkTokens
  }

  lemma OneMoreCallIsPaid(budget: Budget, l: Ledger, size: nat)
    requires TokensSuffice(budget) && l.calls < budget.maxCalls && l.tokens <= l.calls * budget.maxChunkTokens
    requires size <= budget.maxChunkTokens
    ensures l.tokens + size <= budget.maxTotalTokens
    ensures l.tokens + size <= (l.calls + 1) * budget.maxChunkTokens
  {
    OneMore(l.calls + 1, budget.maxChunkTokens);
    MulOrder(l.calls + 1, budget.maxCalls, budget.maxChunkTokens);
  }

  lemma BlockedByCallsOnly(env: Env, l: Ledger, size: nat)
    requires TokensSuffice(env.budget) && Fresh(env, l) && size <= env.budget.maxChunkTokens
    ensures BlockedBy(env, l, size) == if l.calls == env.budget.maxCalls then Some(MaxCalls) else None
  {
    if l.calls < env.budget.maxCalls {
      OneMoreCallIsPaid(env.budget, l, size);
    }
  }

  /** A call is made unless raising a truncation comes first, or all calls are used up. */
  lemma AskFresh(env: Env, body: string, at: nat, depth: nat, kind: Kind, l: Ledger)
    requires env.budget.Valid() && TokensSuffice(env.budget) && Fresh(env, l) && depth <= env.budget.maxDepth
    ensures var l' := AskModel(env, body, at, depth, kind, l).1;
            if env.budget.raises && |body| > env.budget.MaxChunkChars() then l'.raised && l'.calls == l.calls
            else if l.calls == env.budget.maxCalls then l'.calls == l.calls
            else Fresh(env, l') && l'.calls == l.calls + 1
  {
    var limit := env.budget.MaxChunkChars();
    var context := if |body| > limit then body[..limit] else body;
    var noted := if |body| > limit then Note(env, l, MaxDepthTruncated) else l;
    AskExtends(env, body, at, depth, kind, l);
    if !noted.raised {
      BlockedByCallsOnly(env, noted, EstimateTokens(context));
      if l.calls < env.budget.maxCalls {
        OneMoreCallIsPaid(env.budget, noted, EstimateTokens(context));
      }
    }
  }

  lemma NeverFewerCalls(env: Env, l: Ledger, l': Ledger)
    requires WithinBudget(env, l) && Extends(env, l, l')
    ensures WithinBudget(env, l') && l.calls <= l'.calls
  {
  }

  ghost predicate LeafSized(env: Env, pieces: seq<Chunk>)
  {
    forall i :: 0 <= i < |pieces| ==> EstimateTokens(pieces[i].text) <= env.budget.maxChunkTokens
  }

  lemma {:induction false} ReducePiecesReach(env: Env, pieces: seq<Chunk>, depth: nat, outs: seq<string>, l: Ledger)
    requires env.budget.Valid() && TokensSuffice(env.budget) && Fresh(env, l) && depth <= env.budget.maxDepth
    requires LeafSized(env, pieces)
    ensures ReducePieces(env, pieces, depth, outs, l).2.calls >= Min(env.budget.maxCalls, l.calls + |pieces|)
    decreases |pieces|
  {
    if pieces != [] {
      BlockedByCallsOnly(env, l, EstimateTokens(pieces[0].text));
      if l.calls < env.budget.maxCalls {
        var (answer, asked) := AskModel(env, pieces[0].text, 0, depth, Reduce, l);
        AskFresh(env, pieces[0].text, 0, depth, Reduce, l);
        ReducePiecesReach(env, pieces[1..], depth, outs + [answer], asked);
      }
    }
  }

  lemma LeafChunks(env: Env, body: string)
    requires env.budget.Valid()
    ensures LeafSized(env, ChunkText(body, env.budget.MaxChunkChars(), 0, Auto).value)
    ensures |ChunkText(body, env.budget.MaxChunkChars(), 0, Auto).value| * env.budget.MaxChunkChars() >= |body|
  {
    var limit := env.budget.MaxChunkChars();
    var pieces := ChunkText(body, limit, 0, Auto).value;
    ChunkTextTiles(body, limit, 0, Auto);
    forall i | 0 <= i < |pieces| ensures EstimateTokens(pieces[i].text) <= env.budget.maxChunkTokens {
      assert ChunkFits(pieces, i, body, limit, 0);
    }
    ChunksReach(pieces, body, limit, |pieces|);
  }

  lemma {:induction false} ChunksReach(chunks: seq<Chunk>, text: string, maxChars: nat, k: nat)
    requires ChunksTile(chunks, text, maxChars, 0) && k <= |chunks|
    ensures BodyStart(chunks, k) <= k * maxChars
  {
    if k > 0 {
      ChunksReach(chunks, text, maxChars, k - 1);
      assert ChunkFits(chunks, k - 1, text, maxChars, 0);
      OneMore(k, maxChars);
    }
  }

  lemma PassReaches(env: Env, pieces: seq<Chunk>, depth: nat, l: Ledger)
    requires env.budget.Valid() && TokensSuffice(env.budget) && Fresh(env, l) && depth <= env.budget.maxDepth
    requires LeafSized(env, pieces)
    ensures var passed := ReducePieces(env, pieces, depth, [], l).2;
            WithinBudget(env, passed) && passed.calls >= Min(env.budget.maxCalls, |pieces|)
  {
    ReducePiecesReach(env, pieces, depth, [], l);
    ReducePiecesExtends(env, pieces, depth, [], l);
  }

  /** A reduction calls once for each leaf-sized piece of what it reduces, as long as there are calls. */
  lemma ReduceReaches(env: Env, body: string, depth: nat, rounds: nat, l: Ledger)
    requires env.budget.Valid() && TokensSuffice(env.budget) && Fresh(env, l) && depth <= env.budget.maxDepth
    requires rounds > 0 && EstimateTokens(body) > env.budget.maxChunkTokens
    ensures ReduceToBudget(env, body, depth, rounds, l).1.calls
         >= Min(env.budget.maxCalls, |ChunkText(body, env.budget.MaxChunkChars(), 0, Auto).value|)
  {
    var pieces := ChunkText(body, env.budget.MaxChunkChars(), 0, Auto).value;
    LeafChunks(env, body);
    PassReaches(env, pieces, depth, l);
    ReduceIsPassAndAfter(env, body, depth, rounds, l);
    AfterPassKeepsCalls(env, body, depth, rounds - 1, ReducePieces(env, pieces, depth, [], l));
  }

  lemma AfterPassKeepsCalls(env: Env, body: string, depth: nat, rounds: nat, pass: (bool, seq<string>, Ledger))
    requires env.budget.Valid() && WithinBudget(env, pass.2) && depth <= env.budget.maxDepth
    ensures AfterPass(env, body, depth, rounds, pass).1.calls >= pass.2.calls
  {
    var candidate := env.merge(pass.1, depth);
    ReduceExtends(env, candidate, depth, rounds, pass.2);
    NeverFewerCalls(env, pass.2, ReduceToBudget(env, candidate, depth, rounds, pass.2).1);
  }

  // ---- How far a raising query gets ----

  /** Leaves called before the first truncation that raises, if one does; and whether a split body was done by then. */
  datatype Until = Until(leaves: nat, completed: bool, cut: bool)

  function UntilCut(budget: Budget, body: string, depth: nat): Until
    requires budget.Valid()
    decreases Max(budget.maxDepth - depth, 0), 0
  {
    if IsLeaf(budget, body, depth) then
      var cut := budget.raises && |body| > budget.MaxChunkChars();
      Until(if cut then 0 else 1, false, cut)
    else
      var u := UntilCutPieces(budget, Split(budget, body), depth);
      u.(completed := u.completed || !u.cut)
  }

  function UntilCutPieces(budget: Budget, pieces: seq<Chunk>, depth: nat): Until
    requires budget.Valid() && depth < budget.maxDepth
    decreases budget.maxDepth - depth - 1, |pieces| + 1
  {
    if pieces == [] then Until(0, false, false)
    else
      var first := UntilCut(budget, pieces[0].text, depth + 1);
      if first.cut then first
      else
        var rest := UntilCutPieces(budget, pieces[1..], depth);
        Until(first.leaves + rest.leaves, first.completed || rest.completed, rest.cut)
  }

  /** Raising ends the query while no split body is done and at most `calls` leaves are called. */
  predicate RaisesWithin(budget: Budget, payload: string, calls: nat)
    requires budget.Valid()
  {
    var u := UntilCut(budget, payload, 0);
    u.cut && !u.completed && u.leaves <= calls
  }

  lemma {:induction false} SolveEndsAtCut(env: Env, body: string, at: nat, depth: nat, l: Ledger)
    requires env.budget.Valid() && env.budget.raises
    requires var u := UntilCut(env.budget, body, depth); u.cut && !u.completed
    ensures var l' := Solve(env, body, at, depth, l).1;
            l'.raised && l'.calls <= l.calls + UntilCut(env.budget, body, depth).leaves
    decreases Max(env.budget.maxDepth - depth, 0), 0
  {
    if !IsLeaf(env.budget, body, depth) {
      var pieces := Split(env.budget, body);
      PiecesEndAtCut(env, pieces, at, depth, [],
                     Begin(l, depth, |pieces|));
    }
  }

  lemma {:induction false} PiecesEndAtCut(env: Env, pieces: seq<Chunk>, at: nat, depth: nat, answers: seq<string>,
                                          l: Ledger)
    requires env.budget.Valid() && env.budget.raises && depth < env.budget.maxDepth
    requires var u := UntilCutPieces(env.budget, pieces, depth); u.cut && !u.completed
    ensures var l' := SolvePieces(env, pieces, at, depth, answers, l).1;
            l'.raised && l'.calls <= l.calls + UntilCutPieces(env.budget, pieces, depth).leaves
    decreases env.budget.maxDepth - depth - 1, |pieces| + 1
  {
    var text, start := pieces[0].text, at + pieces[0].start;
    var first := UntilCut(env.budget, text, depth + 1);
    if first.cut {
      SolveEndsAtCut(env, text, start, depth + 1, l);
    } else {
      var (answer, solved) := Solve(env, text, start, depth + 1, l);
      assert IsLeaf(env.budget, text, depth + 1) && solved.calls <= l.calls + 1;
      if !solved.raised {
        PiecesEndAtCut(env, pieces[1..], at, depth, answers + [answer], solved);
      }
    }
  }

  // ---- A merge that takes more calls than planned ----

  /** Every merge is long enough for `pieces` leaf-sized pieces. */
  function LongMerges(budget: Budget, pieces: nat): Env
  {
    Env(budget,
        (n: nat, context: string) => "",
        (answers: seq<string>, depth: nat) => Xs(pieces * budget.MaxChunkChars()))
  }

  /** The calls reach `goal`, or only leaves have been called so far, up to the cut if there is one. */
  ghost predicate Reaches(env: Env, l: Ledger, l': Ledger, u: Until, goal: nat)
  {
    && WithinBudget(env, l')
    && (|| l'.calls >= goal
        || (!u.completed && l'.calls == l.calls + u.leaves && if u.cut then l'.raised else Fresh(env, l')))
  }

  lemma LongMergeReaches(env: Env, depth: nat, l: Ledger, pieces: nat)
    requires env.budget.Valid() && TokensSuffice(env.budget) && Fresh(env, l) && depth <= env.budget.maxDepth
    requires pieces > 1
    ensures ReduceToBudget(env, Xs(pieces * env.budget.MaxChunkChars()), depth, MAX_REDUCE_ROUNDS, l).1.calls
         >= Min(env.budget.maxCalls, pieces)
  {
    var limit := env.budget.MaxChunkChars();
    var merged := Xs(pieces * limit);
    OneMore(pieces, limit);
    MulOrder(1, pieces - 1, limit);
    assert |merged| == pieces * limit > limit;
    ReduceReaches(env, merged, depth, MAX_REDUCE_ROUNDS, l);
    LeafChunks(env, merged);
    NotFewer(|ChunkText(merged, limit, 0, Auto).value|, pieces, limit);
  }

  lemma {:induction false} SolveReaches(env: Env, body: string, at: nat, depth: nat, l: Ledger, pieces: nat)
    requires env == LongMerges(env.budget, pieces) && pieces > 1
    requires env.budget.Valid() && TokensSuffice(env.budget) && Fresh(env, l) && depth <= env.budget.maxDepth
    ensures Reaches(env, l, Solve(env, body, at, depth, l).1, UntilCut(env.budget, body, depth),
                    Min(env.budget.maxCalls, pieces))
    decreases env.budget.maxDepth - depth, 0
  {
    SolveExtends(env, body, at, depth, l);
    if IsLeaf(env.budget, body, depth) {
      AskFresh(env, body, at, depth, Leaf, l.(depthReached := Max(l.depthReached, depth)));
    } else {
      var split := Split(env.budget, body);
      var start := Begin(l, depth, |split|);
      PiecesReach(env, split, at, depth, [], start, pieces);
      BranchReaches(env, body, at, depth, l, pieces);
    }
  }

  lemma BranchReaches(env: Env, body: string, at: nat, depth: nat, l: Ledger, pieces: nat)
    requires env == LongMerges(env.budget, pieces) && pieces > 1
    requires env.budget.Valid() && TokensSuffice(env.budget) && Fresh(env, l) && depth <= env.budget.maxDepth
    requires !IsLeaf(env.budget, body, depth)
    requires var split := Split(env.budget, body);
             var start := Begin(l, depth, |split|);
             Reaches(env, start, SolvePieces(env, split, at, depth, [], start).1,
                     UntilCutPieces(env.budget, split, depth), Min(env.budget.maxCalls, pieces))
    ensures Reaches(env, l, Solve(env, body, at, depth, l).1, UntilCut(env.budget, body, depth),
                    Min(env.budget.maxCalls, pieces))
  {
    var split := Split(env.budget, body);
    var start := Begin(l, depth, |split|);
    var (answers, solved) := SolvePieces(env, split, at, depth, [], start);
    if !solved.raised {
      var merged := env.merge(answers, depth);
      ReduceExtends(env, merged, depth, MAX_REDUCE_ROUNDS, solved);
      NeverFewerCalls(env, solved, ReduceToBudget(env, merged, depth, MAX_REDUCE_ROUNDS, solved).1);
      if solved.calls < Min(env.budget.maxCalls, pieces) {
        LongMergeReaches(env, depth, solved, pieces);
      }
    }
  }

  lemma {:induction false} PiecesReach(env: Env, split: seq<Chunk>, at: nat, depth: nat, answers: seq<string>,
                                       l: Ledger, pieces: nat)
    requires env == LongMerges(env.budget, pieces) && pieces > 1 && depth < env.budget.maxDepth
    requires env.budget.Valid() && TokensSuffice(env.budget) && Fresh(env, l)
    ensures Reaches(env, l, SolvePieces(env, split, at, depth, answers, l).1, UntilCutPieces(env.budget, split, depth),
                    Min(env.budget.maxCalls, pieces))
    decreases env.budget.maxDepth - depth - 1, |split| + 1
  {
    SolvePiecesExtends(env, split, at, depth, answers, l);
    BlockedByCallsOnly(env, l, 0);
    if split != [] && l.calls < env.budget.maxCalls {
      var text, start := split[0].text, at + split[0].start;
      var (answer, solved) := Solve(env, text, start, depth + 1, l);
      SolveReaches(env, text, start, depth + 1, l, pieces);
      if !solved.raised {
        SolvePiecesExtends(env, split[1..], at, depth, answers + [answer], solved);
        NeverFewerCalls(env, solved, SolvePieces(env, split[1..], at, depth, answers + [answer], solved).1);
        if solved.calls < Min(env.budget.maxCalls, pieces) {
          PiecesReach(env, split[1..], at, depth, answers + [answer], solved, pieces);
        }
      }
    }
  }

  /** Long merges make the query pass any planned number of calls, unless raising a truncation ends it first. */
  lemma LongMergesCallMore(budget: Budget, payload: string, pieces: nat)
    requires budget.Valid() && TokensSuffice(budget) && pieces > 1 && payload != "" && !IsLeaf(budget, payload, 0)
    requires !(budget.raises && RaisesWithin(budget, payload, pieces - 1))
    ensures RecursiveQuery(LongMerges(budget, pieces), payload).1.calls >= Min(budget.maxCalls, pieces)
  {
    SolveReaches(LongMerges(budget, pieces), payload, 0, 0, EMPTY, pieces);
    if !budget.raises {
      OnlyRaisingCuts(budget, payload, 0);
    }
  }

  lemma {:induction false} OnlyRaisingCuts(budget: Budget, body: string, depth: nat)
    requires budget.Valid() && !budget.raises
    ensures !UntilCut(budget, body, depth).cut
    decreases Max(budget.maxDepth - depth, 0), 0
  {
    if !IsLeaf(budget, body, depth) {
      OnlyRaisingCutsPieces(budget, Split(budget, body), depth);
    }
  }

  lemma {:induction false} OnlyRaisingCutsPieces(budget: Budget, pieces: seq<Chunk>, depth: nat)
    requires budget.Valid() && !budget.raises && depth < budget.maxDepth
    ensures !UntilCutPieces(budget, pieces, depth).cut
    decreases budget.maxDepth - depth - 1, |pieces| + 1
  {
    if pieces != [] {
      OnlyRaisingCuts(budget, pieces[0].text, depth + 1);
      OnlyRaisingCutsPieces(budget, pieces[1..], depth);
    }
  }

  lemma NotFewer(n: nat, m: nat, size: nat)
    requires n * size >= m * size && size > 0
    ensures n >= m
  {
  }

  // ---- When the planned bound holds ----

  /** What keeps the calls of a query within its planned bound, whatever the sub-model and the combiner do. */
  predicate BoundIsKept(budget: Budget, payload: string)
    requires budget.Valid()
  {
    var p := PlanOf(budget, payload);
    || p.internalNodes == 0
    || budget.maxCalls <= UpperCalls(p)
    || (budget.raises && RaisesWithin(budget, payload, UpperCalls(p)))
  }

  /** It does so under every budget. */
  lemma UpperBoundHoldsIfKept(env: Env, payload: string)
    requires env.budget.Valid() && BoundIsKept(env.budget, payload)
    ensures RecursiveQuery(env, payload).1.calls <= UpperCalls(PlanOf(env.budget, payload))
  {
    var p := PlanOf(env.budget, payload);
    if p.internalNodes == 0 {
      LeafCallsOnce(env, payload);
    } else if env.budget.maxCalls <= UpperCalls(p) {
      QueryStaysWithinBudget(env, payload);
    } else {
      SolveEndsAtCut(env, payload, 0, 0, EMPTY);
    }
  }

  /**
    With tokens enough for every call allowed it is also needed: the planned upper bound holds for a payload whatever
    the sub-model and the combiner do if and only if the plan has no internal node, or the call limit itself is within
    it, or the query raises a truncation before it can reduce anything or call more leaves than that.
   */
  lemma UpperBoundHoldsIff(budget: Budget, payload: string)
    requires budget.Valid() && TokensSuffice(budget)
    ensures (forall env: Env | env.budget == budget ::
               RecursiveQuery(env, payload).1.calls <= UpperCalls(PlanOf(budget, payload)))
       <==> BoundIsKept(budget, payload)
  {
    var bound := UpperCalls(PlanOf(budget, payload));
    if BoundIsKept(budget, payload) {
      forall env: Env | env.budget == budget ensures RecursiveQuery(env, payload).1.calls <= bound {
        UpperBoundHoldsIfKept(env, payload);
      }
    } else {
      var env := LongMerges(budget, bound + 1);
      LongMergesCallMore(budget, payload, bound + 1);
      assert env.budget == budget && RecursiveQuery(env, payload).1.calls > bound;
    }
  }

  lemma LeafCallsOnce(env: Env, payload: string)
    requires env.budget.Valid() && PlanOf(env.budget, payload).internalNodes == 0
    ensures RecursiveQuery(env, payload).1.calls <= UpperCalls(PlanOf(env.budget, payload))
  {
    if payload != "" && !IsLeaf(env.budget, payload, 0) {
      WalkKeepsNodes(env.budget, |payload|, LevelChars(|payload|, env.budget), 0, Branch(Reach(NOTHING, 0)));
      assert false;
    }
  }

  lemma {:induction false} WalkKeepsNodes(budget: Budget, length: nat, step: nat, depth: nat, p: Plan)
    requires budget.Valid() && depth < budget.maxDepth && step > 0
    ensures WalkPieces(budget, length, step, depth, p).internalNodes >= p.internalNodes
    decreases budget.maxDepth - depth, length
  {
    if length > 0 {
      var n := Min(step, length);
      var ahead := Walk(budget, n, depth + 1, p);
      WalkOneStep(budget, length, step, depth, p);
      if !(TokensOf(n) <= budget.maxChunkTokens || depth + 1 >= budget.maxDepth) {
        WalkKeepsNodes(budget, n, LevelChars(n, budget), depth + 1, Branch(Reach(p, depth + 1)));
      }
      WalkKeepsNodes(budget, length - n, step, depth, ahead);
    }
  }

  /** The witness: any five characters, planned at three calls at most, which merges of sixteen make four or more. */
  lemma UpperBoundCanFail(budget: Budget, payload: string)
    requires budget == Budget(4, 1, 128, 500, 2, 0, false) && |payload| == 5
    ensures UpperCalls(PlanOf(budget, payload)) == 3
    ensures RecursiveQuery(LongMerges(budget, 4), payload).1.calls > 3
  {
    assert LevelChars(5, budget) == 4;
    WalkOneStep(budget, 5, 4, 0, Branch(Reach(NOTHING, 0)));
    LongMergesCallMore(budget, payload, 4);
  }

  // ---- A text that splits unevenly ----

  lemma {:induction false} CutComesAt(text: string, level: Level, i: nat, cut: nat)
    requires 0 < i <= cut <= |text| && (cut < |text| ==> CutAt(text, level, cut))
    requires forall k :: i <= k < cut ==> !CutAt(text, level, k)
    ensures NextCut(text, level, i) == cut
    decreases cut - i
  {
    if i < cut {
      CutComesAt(text, level, i + 1, cut);
    }
  }

  lemma UnitComes(text: string, level: Level, start: nat, cut: nat)
    requires start < cut <= |text| && (cut < |text| ==> CutAt(text, level, cut))
    requires forall k :: start < k < cut ==> !CutAt(text, level, k)
    ensures UnitsFrom(text, level, start) == [text[start..cut]] + UnitsFrom(text, level, cut)
  {
    CutComesAt(text, level, start + 1, cut);
  }

  lemma OneParagraph(text: string)
    requires text != "" && forall i :: 0 <= i < |text| ==> text[i] != '\n'
    ensures Units(text, Paragraph) == [text]
  {
    UnitComes(text, Paragraph, 0, |text|);
    assert text[0..|text|] == text;
  }

  lemma UnevenUnits(text: string)
    requires text == "\raaa\r\raaa\r\r"
    ensures Units(text, LineBreak) == [text[0..1], text[1..5], text[5..6], text[6..10], text[10..11]]
  {
    UnitComes(text, LineBreak, 0, 1);
    UnitComes(text, LineBreak, 1, 5);
    LastUnevenUnits(text);
  }

  lemma LastUnevenUnits(text: string)
    requires text == "\raaa\r\raaa\r\r"
    ensures UnitsFrom(text, LineBreak, 5) == [text[5..6], text[6..10], text[10..11]]
  {
    UnitComes(text, LineBreak, 5, 6);
    UnitComes(text, LineBreak, 6, 10);
    UnitComes(text, LineBreak, 10, 11);
  }

  lemma FittingUnitsAreAtoms(pieces: seq<string>, levels: seq<Level>, budget: nat)
    requires budget > 0 && Fits(pieces, budget)
    ensures AtomsOfAll(pieces, levels, budget) == pieces
    decreases |pieces|
  {
    if pieces != [] {
      FittingUnitsAreAtoms(pieces[1..], levels, budget);
    }
  }

  /** Neighbours that do not fit together are never packed together. */
  lemma {:induction false} ApartStaysApart(pieces: seq<string>, budget: nat)
    requires pieces != [] && NoneEmpty(pieces) && NeighboursOverflow(pieces, budget)
    ensures Bodies(pieces[0], pieces[1..], budget) == pieces
    decreases |pieces|
  {
    if |pieces| > 1 {
      assert |pieces[0]| + |pieces[1]| > budget;
      ApartStaysApart(pieces[1..], budget);
    }
  }

  lemma UnevenSplit(budget: Budget, text: string)
    requires budget == Budget(1, 1, 128, 500, 3, 0, false) && text == "\raaa\r\raaa\r\r"
    ensures |Split(budget, text)| == 5
  {
    var units := [text[0..1], text[1..5], text[5..6], text[6..10], text[10..11]];
    var levels := LevelsOf(Auto);
    assert LevelChars(11, budget) == 4 && BodyBudget(budget, text) == 4;
    OneParagraph(text);
    UnevenUnits(text);
    assert levels[1..][0] == LineBreak;
    FittingUnitsAreAtoms(units, levels[1..][1..], 4);
    assert Atoms(text, levels, 4) == Atoms(text, levels[1..], 4) == units;
    SplitFollowsBodies(budget, text);
    BoundaryFree.FirstStarts(units, 4);
    ApartStaysApart(units, 4);
  }

  /**
    Even without a single reduction the planned bound can fail on natural boundaries: a text of eleven characters,
    planned at four calls at most, that makes five leaves.
   */
  lemma UnevenSplitsExceedTheBound(budget: Budget, text: string)
    requires budget == Budget(1, 1, 128, 500, 3, 0, false) && text == "\raaa\r\raaa\r\r"
    ensures UpperCalls(PlanOf(budget, text)) == 4 < |TreeOf(budget, text).leaves|
  {
    var p := Branch(Reach(NOTHING, 0));
    assert LevelChars(11, budget) == 4;
    WalkOneStep(budget, 11, 4, 0, p);
    WalkOneStep(budget, 7, 4, 0, Walk(budget, 4, 1, p));
    UnevenSplit(budget, text);
    OneLeafEach(budget, Split(budget, text), 0, p);
  }

  lemma {:induction false} OneLeafEach(budget: Budget, pieces: seq<Chunk>, depth: nat, p: Plan)
    requires budget.Valid() && depth < budget.maxDepth
    ensures |TreePieces(budget, pieces, depth, p).leaves| >= |p.leaves| + |pieces|
    decreases |pieces|
  {
    if pieces != [] {
      TreeGrows(budget, pieces[0].text, depth + 1, p);
      OneLeafEach(budget, pieces[1..], depth, Tree(budget, pieces[0].text, depth + 1, p));
    }
  }
}
