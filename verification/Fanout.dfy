/**
  How many pieces one level makes (src/symphony/rlm/recursive.py, src/symphony/rlm/repl.py), against the `fanout` that
  the source's own comment promises.
 */
module Fanout {
  import opened Chunker
  import opened Recursion
  import opened BoundaryFree

  // ---- The bound that always holds ----

  /** One level makes at most 2 * fanout - 1 pieces when there is no overlap. */
  lemma SplitCountBound(budget: Budget, body: string)
    requires budget.Valid() && budget.overlapTokens == 0
    ensures |Split(budget, body)| <= 2 * budget.fanout - 1
  {
    var f := budget.fanout;
    CeilDivCovers(|body|, f);
    var step := LevelChars(|body|, budget);
    MulOrder(CeilDiv(|body|, f), step, f);
    ChunkCountBound(body, step, f, Auto);
  }

  lemma CeilDivCovers(a: nat, b: nat)
    requires b > 0
    ensures CeilDiv(a, b) * b >= a
  {
  }

  lemma MulOrder(a: nat, b: nat, c: nat)
    requires a <= b
    ensures a * c <= b * c
  {
  }

  /** The bound is reached: three pieces at a fanout of two, where the source's own comment promises two. */
  lemma FanoutIsNotTheBound(budget: Budget)
    requires budget == Budget(4, 1, 128, 500, 2, 0, false)
    ensures |Split(budget, "\naaa\nbbb")| == 3
  {
    var text := "\naaa\nbbb";
    assert LevelChars(|text|, budget) == 4;
    assert NextCut(text, Paragraph, 1) == 8;
    assert text[0..8] == text;
    assert UnitsFrom(text, Paragraph, 8) == [];
    assert Units(text, Paragraph) == [text];
    assert CutAt(text, LineBreak, 1) && CutAt(text, LineBreak, 5);
    assert NextCut(text, LineBreak, 2) == 5 && NextCut(text, LineBreak, 6) == 8;
    assert UnitsFrom(text, LineBreak, 5) == [text[5..8]];
    assert UnitsFrom(text, LineBreak, 1) == [text[1..5], text[5..8]];
    assert Units(text, LineBreak) == [text[0..1], text[1..5], text[5..8]];
    var units := [text[0..1], text[1..5], text[5..8]];
    var levels := [Sentence, Char];
    assert AtomsOfAll(units[1..][1..][1..], levels, 4) == [];
    assert AtomsOfAll(units[1..][1..], levels, 4) == [text[5..8]];
    assert AtomsOfAll(units[1..], levels, 4) == [text[1..5], text[5..8]];
    assert AtomsOfAll(units, levels, 4) == units;
    assert LevelsOf(Auto)[1..] == [LineBreak, Sentence, Char] && LevelsOf(Auto)[1..][1..] == levels;
    assert Atoms(text, LevelsOf(Auto)[1..], 4) == units;
    assert Atoms(text, LevelsOf(Auto), 4) == units;
    assert "" + units[0] == units[0];
    assert Bodies("", units, 4) == units;
  }

  // ---- Greedy packing is optimal ----

  /**
    With a group of `open` characters begun, `atoms` can be put away in order so that no group exceeds `budget`, by
    beginning at most `groups` more. Every way of doing so is tried.
   */
  predicate Packs(open: nat, atoms: seq<string>, budget: nat, groups: nat)
    decreases |atoms|
  {
    || atoms == []
    || (open + |atoms[0]| <= budget && Packs(open + |atoms[0]|, atoms[1..], budget, groups))
    || (groups > 0 && |atoms[0]| <= budget && Packs(|atoms[0]|, atoms[1..], budget, groups - 1))
  }

  /** Some way of cutting `atoms` into consecutive groups needs at most `groups` of them. */
  predicate Packable(atoms: seq<string>, budget: nat, groups: nat)
  {
    atoms == [] || (groups > 0 && |atoms[0]| <= budget && Packs(|atoms[0]|, atoms[1..], budget, groups - 1))
  }

  lemma {:induction false} EmptierPacksToo(open: nat, fuller: nat, atoms: seq<string>, budget: nat, few: nat,
                                           groups: nat)
    requires open <= fuller && few <= groups && Packs(fuller, atoms, budget, few)
    ensures Packs(open, atoms, budget, groups)
    decreases |atoms|
  {
    if atoms != [] {
      var a, rest := |atoms[0]|, atoms[1..];
      if fuller + a <= budget && Packs(fuller + a, rest, budget, few) {
        EmptierPacksToo(open + a, fuller + a, rest, budget, few, groups);
      } else {
        EmptierPacksToo(a, a, rest, budget, few - 1, groups - 1);
      }
    }
  }

  /** One more group makes up for any group left open. */
  lemma {:induction false} NewGroupMakesUp(open: nat, other: nat, atoms: seq<string>, budget: nat, groups: nat)
    requires Packs(other, atoms, budget, groups)
    ensures Packs(open, atoms, budget, groups + 1)
    decreases |atoms|
  {
    if atoms != [] {
      var a, rest := |atoms[0]|, atoms[1..];
      if other + a <= budget && Packs(other + a, rest, budget, groups) {
        EmptierPacksToo(a, other + a, rest, budget, groups, groups);
      } else {
        EmptierPacksToo(a, a, rest, budget, groups - 1, groups);
      }
    }
  }

  lemma {:induction false} GreedyIsOptimal(buffer: string, atoms: seq<string>, budget: nat, groups: nat)
    requires buffer != "" && NoneEmpty(atoms) && Fits(atoms, budget)
    ensures Bodies(buffer, atoms, budget) != []
    ensures |Bodies(buffer, atoms, budget)| <= groups + 1 <==> Packs(|buffer|, atoms, budget, groups)
    decreases |atoms|
  {
    if atoms != [] {
      var a, rest := atoms[0], atoms[1..];
      if |buffer| + |a| > budget {
        GreedyIsOptimal(a, rest, budget, if groups > 0 then groups - 1 else 0);
      } else {
        GreedyIsOptimal(buffer + a, rest, budget, groups);
        if groups > 0 && Packs(|a|, rest, budget, groups - 1) {
          NewGroupMakesUp(|buffer| + |a|, |a|, rest, budget, groups - 1);
        }
      }
    }
  }

  /** Size left for a body once the overlap is taken off. */
  function BodyBudget(budget: Budget, body: string): nat
    requires budget.Valid()
  {
    LevelChars(|body|, budget) - budget.OverlapChars()
  }

  function AtomsOf(budget: Budget, body: string): seq<string>
    requires budget.Valid()
  {
    if body == "" then [] else Atoms(body, LevelsOf(Auto), BodyBudget(budget, body))
  }

  lemma SplitFollowsBodies(budget: Budget, body: string)
    requires budget.Valid() && body != ""
    ensures AtomsOf(budget, body) != [] && NoneEmpty(AtomsOf(budget, body))
    ensures Concat(AtomsOf(budget, body)) == body && Fits(AtomsOf(budget, body), BodyBudget(budget, body))
    ensures |Split(budget, body)| == |Bodies("", AtomsOf(budget, body), BodyBudget(budget, body))|
  {
    var atoms, size := AtomsOf(budget, body), BodyBudget(budget, body);
    AtomsTile(body, LevelsOf(Auto), size);
    BodiesTile("", atoms, size);
    assert "" + Concat(atoms) == body && body[0..] == body;
    ChunksFollowBodies(body, Bodies("", atoms, size), 0, 0, budget.OverlapChars());
  }

  /**
    A level keeps to its fanout if and only if it can be kept to: the pieces are at most `fanout` exactly when some way
    of gathering the body's units, in order, into groups within the level's size needs no more than that.
   */
  lemma FanoutHoldsIffUnitsPack(budget: Budget, body: string)
    requires budget.Valid()
    ensures |Split(budget, body)| <= budget.fanout
       <==> Packable(AtomsOf(budget, body), BodyBudget(budget, body), budget.fanout)
  {
    if body != "" {
      var atoms, size := AtomsOf(budget, body), BodyBudget(budget, body);
      SplitFollowsBodies(budget, body);
      FirstStarts(atoms, size);
      GreedyIsOptimal(atoms[0], atoms[1..], size, budget.fanout - 1);
    }
  }

  // ---- When it can ----

  lemma {:induction false} EvenStepsAreFew(pieces: seq<Chunk>, text: string, step: nat, from: nat)
    requires step > 0 && from <= |text| && EvenSteps(pieces, text, step, from) && pieces != []
    ensures (|pieces| - 1) * step < |text| - from
    decreases |pieces|
  {
    if |pieces| > 1 {
      EvenStepsAreFew(pieces[1..], text, step, pieces[0].end);
      OneMore(|pieces| - 1, step);
    }
  }

  /** Without overlap and without natural boundaries the promise holds. */
  lemma FanoutHoldsWithoutBoundaries(budget: Budget, body: string)
    requires budget.Valid() && budget.overlapTokens == 0 && NoBoundaries(body)
    ensures |Split(budget, body)| <= budget.fanout
  {
    var pieces, step := Split(budget, body), LevelChars(|body|, budget);
    SplitIsEven(budget, body);
    if pieces != [] {
      EvenStepsAreFew(pieces, body, step, 0);
      CeilDivCovers(|body|, budget.fanout);
      MulOrder(CeilDiv(|body|, budget.fanout), step, budget.fanout);
      FewerSteps(|pieces| - 1, budget.fanout, step);
    }
  }

  lemma FewerSteps(n: nat, m: nat, step: nat)
    requires n * step < step * m
    ensures n < m
  {
  }

  /** `n` bodies of at least `room` characters each. */
  function Filled(n: nat, room: nat): nat { if n == 0 then 0 else Filled(n - 1, room) + room }

  lemma {:induction false} FilledIsProduct(n: nat, room: nat)
    ensures Filled(n, room) == n * room
  {
    if n > 0 {
      FilledIsProduct(n - 1, room);
      OneMore(n, room);
    }
  }

  /** No unit is longer than `unit`: then every body but the last is filled to within a unit of its size. */
  lemma {:induction false} BodiesAreFull(buffer: string, atoms: seq<string>, budget: nat, unit: nat)
    requires buffer != "" && unit <= budget && NoneEmpty(atoms) && Fits(atoms, unit)
    ensures Bodies(buffer, atoms, budget) != []
    ensures Filled(|Bodies(buffer, atoms, budget)| - 1, budget - unit + 1) < |buffer| + |Concat(atoms)|
    decreases |atoms|
  {
    if atoms != [] {
      if |buffer| + |atoms[0]| > budget {
        BodiesAreFull(atoms[0], atoms[1..], budget, unit);
      } else {
        BodiesAreFull(buffer + atoms[0], atoms[1..], budget, unit);
      }
    }
  }

  lemma FewBodies(n: nat, fanout: nat, room: nat, length: nat)
    requires Filled(n, room) < length <= fanout * room
    ensures n < fanout
  {
    FilledIsProduct(n, room);
    FewerSteps(n, fanout, room);
  }

  lemma ShortUnitsPackWell(atoms: seq<string>, size: nat, unit: nat, fanout: nat)
    requires atoms != [] && unit <= size && NoneEmpty(atoms) && Fits(atoms, unit)
    requires |Concat(atoms)| <= fanout * (size - unit + 1)
    ensures |Bodies("", atoms, size)| <= fanout
  {
    FirstStarts(atoms, size);
    BodiesAreFull(atoms[0], atoms[1..], size, unit);
    FewBodies(|Bodies(atoms[0], atoms[1..], size)| - 1, fanout, size - unit + 1, |Concat(atoms)|);
  }

  /** It also holds for a body whose units are short enough to fill `fanout` groups to within a unit each. */
  lemma FanoutHoldsForShortUnits(budget: Budget, body: string, unit: nat)
    requires budget.Valid() && unit <= BodyBudget(budget, body) && Fits(AtomsOf(budget, body), unit)
    requires |body| <= budget.fanout * (BodyBudget(budget, body) - unit + 1)
    ensures |Split(budget, body)| <= budget.fanout
  {
    if body != "" {
      SplitFollowsBodies(budget, body);
      ShortUnitsPackWell(AtomsOf(budget, body), BodyBudget(budget, body), unit, budget.fanout);
    }
  }
}
