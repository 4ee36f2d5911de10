/** Where chunks may end (src/symphony/rlm/repl.py), told by the cuts of each level alone. */
module ChunkBoundaries {
  import opened Numbers
  import opened Chunker

  /** `text[p..q]` is the one piece of its level with position `e` inside it. */
  ghost predicate UnitAround(text: string, level: Level, p: nat, e: nat, q: nat)
  {
    && p < e < q <= |text|
    && (p > 0 ==> CutAt(text, level, p)) && (q < |text| ==> CutAt(text, level, q))
    && forall k :: p < k < q ==> !CutAt(text, level, k)
  }

  /**
    The ladder: a text over the budget may be cut wherever its first level cuts it, and inside a piece of that level
    only where the further levels would cut that piece. Below the last level, at multiples of the budget.
   */
  ghost predicate Breakable(text: string, levels: seq<Level>, budget: nat, e: nat)
    requires budget > 0
    decreases |levels|
  {
    && 0 < e < |text| && |text| > budget
    && if levels == [] then e % budget == 0
       else CutAt(text, levels[0], e) || BreakableInside(text, levels, budget, e)
  }

  ghost predicate BreakableInside(text: string, levels: seq<Level>, budget: nat, e: nat)
    requires budget > 0 && levels != []
    decreases |levels|, 0
  {
    exists p: nat, q: nat ::
      UnitAround(text, levels[0], p, e, q) && Breakable(text[p..q], levels[1..], budget, e - p)
  }

  // ---- Where the atoms end ----

  /** Some piece ends at position `e` of their concatenation. */
  predicate EndAt(pieces: seq<string>, e: nat)
  {
    pieces != [] && (e == |pieces[0]| || (e > |pieces[0]| && EndAt(pieces[1..], e - |pieces[0]|)))
  }

  lemma {:induction false} EndAtAppend(a: seq<string>, b: seq<string>, e: nat)
    requires NoneEmpty(a) && e > 0
    ensures EndAt(a + b, e) <==> EndAt(a, e) || (e > |Concat(a)| && EndAt(b, e - |Concat(a)|))
  {
    if a == [] {
      assert a + b == b;
    } else {
      assert (a + b)[1..] == a[1..] + b;
      if e > |a[0]| {
        EndAtAppend(a[1..], b, e - |a[0]|);
      }
    }
  }

  lemma {:induction false} EndAtTotal(pieces: seq<string>)
    requires NoneEmpty(pieces) && pieces != []
    ensures EndAt(pieces, |Concat(pieces)|)
    ensures forall e: nat :: EndAt(pieces, e) ==> e <= |Concat(pieces)|
  {
    if |pieces| > 1 {
      EndAtTotal(pieces[1..]);
    }
  }

  lemma {:induction false} HardSlicesEnd(text: string, budget: nat, e: nat)
    requires budget > 0 && 0 < e < |text|
    ensures EndAt(HardSlices(text, budget), e) <==> e % budget == 0
  {
    if |text| > budget {
      var later := HardSlices(text[budget..], budget);
      assert ([text[..budget]] + later)[1..] == later;
      if e > budget {
        HardSlicesEnd(text[budget..], budget, e - budget);
        OneBudgetOn(e, budget);
      } else {
        BelowOneBudget(e, budget);
      }
    } else {
      BelowOneBudget(e, budget);
    }
  }

  lemma OneBudgetOn(e: nat, budget: nat)
    requires 0 < budget < e
    ensures (e - budget) % budget == 0 <==> e % budget == 0
  {
    SmallMultiple(e / budget - (e - budget) / budget - 1, budget, (e - budget) % budget - e % budget);
  }

  lemma SmallMultiple(k: int, budget: int, r: int)
    requires budget > 0 && k * budget == r && -budget < r < budget
    ensures k == 0
  {
  }

  lemma BelowOneBudget(e: nat, budget: nat)
    requires 0 < e <= budget
    ensures e % budget == 0 <==> e == budget
  {
  }

  lemma {:induction false} NextCutCuts(text: string, level: Level, i: nat)
    requires 0 < i <= |text|
    ensures var cut := NextCut(text, level, i); cut < |text| ==> CutAt(text, level, cut)
    decreases |text| - i
  {
    if i < |text| && !CutAt(text, level, i) {
      NextCutCuts(text, level, i + 1);
    }
  }

  lemma UnitIsUnique(text: string, level: Level, p: nat, q: nat, p': nat, q': nat, e: nat)
    requires UnitAround(text, level, p, e, q) && UnitAround(text, level, p', e, q')
    ensures p == p' && q == q'
  {
  }

  lemma AtomsOfUnits(text: string, levels: seq<Level>, budget: nat)
    requires budget > 0 && levels != [] && |text| > budget
    ensures Atoms(text, levels, budget) == AtomsOfAll(Units(text, levels[0]), levels[1..], budget)
  {
    var pieces := Units(text, levels[0]);
    if |pieces| <= 1 {
      UnitsTile(text, levels[0], 0);
      assert Concat(pieces) == text[0..] == text;
      assert pieces == [pieces[0]] && pieces[0] == pieces[0] + Concat(pieces[1..]) == text;
      assert AtomsOfAll([text], levels[1..], budget) == Atoms(text, levels[1..], budget) + [];
    }
  }

  lemma {:induction false} AtomsEnd(text: string, levels: seq<Level>, budget: nat, e: nat)
    requires budget > 0 && 0 < e < |text|
    ensures EndAt(Atoms(text, levels, budget), e) <==> Breakable(text, levels, budget, e)
    decreases |levels|, 0, 0
  {
    if |text| > budget {
      if levels == [] {
        HardSlicesEnd(text, budget, e);
      } else {
        AtomsOfUnits(text, levels, budget);
        AtomsFromEnd(text, levels, 0, budget, e);
      }
    }
  }

  /** The atoms from a cut on. */
  function AtomsFrom(text: string, levels: seq<Level>, start: nat, budget: nat): seq<string>
    requires budget > 0 && levels != [] && start <= |text|
  {
    AtomsOfAll(UnitsFrom(text, levels[0], start), levels[1..], budget)
  }

  lemma {:induction false} AtomsFromEnd(text: string, levels: seq<Level>, start: nat, budget: nat, e: nat)
    requires budget > 0 && levels != [] && start < e < |text| && (start > 0 ==> CutAt(text, levels[0], start))
    ensures EndAt(AtomsFrom(text, levels, start, budget), e - start)
       <==> CutAt(text, levels[0], e) || BreakableInside(text, levels, budget, e)
    decreases |levels| - 1, 1, |text| - start
  {
    var cut := NextCut(text, levels[0], start + 1);
    NextCutCuts(text, levels[0], start + 1);
    FirstUnitAtoms(text, levels, start, cut, budget, e);
    if e < cut {
      AtomsEnd(text[start..cut], levels[1..], budget, e - start);
      InsideOneUnit(text, levels, start, cut, budget, e);
    } else if e > cut {
      AtomsFromEnd(text, levels, cut, budget, e);
    }
  }

  lemma InsideOneUnit(text: string, levels: seq<Level>, p: nat, q: nat, budget: nat, e: nat)
    requires budget > 0 && levels != [] && UnitAround(text, levels[0], p, e, q)
    ensures BreakableInside(text, levels, budget, e) <==> Breakable(text[p..q], levels[1..], budget, e - p)
  {
    forall p': nat, q': nat | UnitAround(text, levels[0], p', e, q') ensures p' == p && q' == q {
      UnitIsUnique(text, levels[0], p, q, p', q', e);
    }
  }

  lemma FirstUnitAtoms(text: string, levels: seq<Level>, start: nat, cut: nat, budget: nat, e: nat)
    requires budget > 0 && levels != [] && start < e < |text| && cut == NextCut(text, levels[0], start + 1)
    ensures EndAt(AtomsFrom(text, levels, start, budget), e - start)
       <==> if e < cut then EndAt(Atoms(text[start..cut], levels[1..], budget), e - start)
            else e == cut || EndAt(AtomsFrom(text, levels, cut, budget), e - cut)
  {
    var unit := text[start..cut];
    var head := Atoms(unit, levels[1..], budget);
    var later := UnitsFrom(text, levels[0], cut);
    assert ([unit] + later)[1..] == later;
    assert AtomsOfAll([unit] + later, levels[1..], budget) == head + AtomsOfAll(later, levels[1..], budget);
    AtomsTile(unit, levels[1..], budget);
    EndAtTotal(head);
    EndAtAppend(head, AtomsOfAll(later, levels[1..], budget), e - start);
  }

  // ---- Where the bodies end ----

  /** Each body ends where an atom does, and at the last such place within the budget. */
  ghost predicate WellEnded(bodies: seq<string>, from: nat, atoms: seq<string>, budget: nat)
    decreases |bodies|
  {
    bodies == []
    || var end := from + |bodies[0]|;
       && EndAt(atoms, end)
       && (forall e: nat :: EndAt(atoms, e) && e > end ==> e - from > budget)
       && WellEnded(bodies[1..], end, atoms, budget)
  }

  lemma {:induction false} BodiesEnd(buffer: string, rest: seq<string>, budget: nat, from: nat, atoms: seq<string>)
    requires NoneEmpty(rest) && (buffer != "" ==> EndAt(atoms, from + |buffer|))
    requires forall e :: e > from + |buffer| ==> (EndAt(atoms, e) <==> EndAt(rest, e - from - |buffer|))
    ensures WellEnded(Bodies(buffer, rest, budget), from, atoms, budget)
    decreases |rest|
  {
    if rest != [] {
      assert EndAt(atoms, from + |buffer| + |rest[0]|);
      if buffer != "" && |buffer| + |rest[0]| > budget {
        BodiesEnd(rest[0], rest[1..], budget, from + |buffer|, atoms);
        var later := Bodies(rest[0], rest[1..], budget);
        assert ([buffer] + later)[1..] == later;
      } else {
        BodiesEnd(buffer + rest[0], rest[1..], budget, from, atoms);
      }
    }
  }

  // ---- Where the chunks end ----

  /** The body from `from` to `end` fits, ends at a break or with the text, and no later break would still fit. */
  ghost predicate EndsAtLastBreak(text: string, levels: seq<Level>, budget: nat, from: nat, end: nat)
    requires budget > 0
  {
    && from < end <= |text| && end - from <= budget
    && MayEnd(text, levels, budget, end)
    && forall e :: end < e && MayEnd(text, levels, budget, e) ==> e - from > budget
  }

  ghost predicate MayEnd(text: string, levels: seq<Level>, budget: nat, e: nat)
    requires budget > 0
  {
    e == |text| || Breakable(text, levels, budget, e)
  }

  ghost predicate AllEndAtLastBreak(chunks: seq<Chunk>, text: string, levels: seq<Level>, budget: nat)
    requires budget > 0
  {
    forall k :: 0 <= k < |chunks| ==> EndsAtLastBreak(text, levels, budget, BodyStart(chunks, k), chunks[k].end)
  }

  lemma {:induction false} WellEndedFrom(chunks: seq<Chunk>, text: string, bodies: seq<string>, overlap: nat,
                                         atoms: seq<string>, budget: nat, k: nat)
    requires FollowBodies(chunks, text, bodies, 0, 0, overlap) && WellEnded(bodies, 0, atoms, budget) && k <= |chunks|
    ensures WellEnded(bodies[k..], BodyStart(chunks, k), atoms, budget)
  {
    if k == 0 {
      assert bodies[0..] == bodies;
    } else {
      WellEndedFrom(chunks, text, bodies, overlap, atoms, budget, k - 1);
      assert FollowsBody(chunks, text, bodies, 0, 0, overlap, k - 1);
      assert bodies[k - 1..][1..] == bodies[k..];
    }
  }

  /** The break positions and the end of the text are the ends of the atoms. */
  lemma EndsAreBreaks(text: string, levels: seq<Level>, budget: nat, e: nat)
    requires budget > 0 && text != "" && e > 0
    ensures EndAt(Atoms(text, levels, budget), e) <==> MayEnd(text, levels, budget, e)
  {
    AtomsTile(text, levels, budget);
    EndAtTotal(Atoms(text, levels, budget));
    if e < |text| {
      AtomsEnd(text, levels, budget, e);
    }
  }

  /** The k-th chunk's body is a body, and ends as well as its body does. */
  lemma ChunkEndsWell(chunks: seq<Chunk>, text: string, bodies: seq<string>, overlap: nat, atoms: seq<string>,
                      budget: nat, k: nat)
    requires FollowBodies(chunks, text, bodies, 0, 0, overlap) && WellEnded(bodies, 0, atoms, budget) && k < |chunks|
    requires Fits(bodies, budget) && NoneEmpty(bodies)
    ensures var from, end := BodyStart(chunks, k), chunks[k].end;
            && from < end <= |text| && end - from <= budget && EndAt(atoms, end)
            && forall e: nat :: EndAt(atoms, e) && e > end ==> e - from > budget
  {
    WellEndedFrom(chunks, text, bodies, overlap, atoms, budget, k);
    assert FollowsBody(chunks, text, bodies, 0, 0, overlap, k);
    assert bodies[k..][0] == bodies[k];
  }

  lemma AtomEndsAreLastBreaks(text: string, levels: seq<Level>, budget: nat, from: nat, end: nat)
    requires budget > 0 && from < end <= |text| && end - from <= budget
    requires EndAt(Atoms(text, levels, budget), end)
    requires forall e: nat :: EndAt(Atoms(text, levels, budget), e) && e > end ==> e - from > budget
    ensures EndsAtLastBreak(text, levels, budget, from, end)
  {
    EndsAreBreaks(text, levels, budget, end);
    forall e | end < e && MayEnd(text, levels, budget, e) ensures e - from > budget {
      EndsAreBreaks(text, levels, budget, e);
    }
  }

  lemma BodiesEndAtLastBreaks(text: string, levels: seq<Level>, bodies: seq<string>, chunks: seq<Chunk>, budget: nat,
                              overlap: nat, k: nat)
    requires budget > 0 && text != "" && k < |chunks|
    requires bodies == Bodies("", Atoms(text, levels, budget), budget)
    requires FollowBodies(chunks, text, bodies, 0, 0, overlap) && Fits(bodies, budget) && NoneEmpty(bodies)
    ensures EndsAtLastBreak(text, levels, budget, BodyStart(chunks, k), chunks[k].end)
  {
    var atoms := Atoms(text, levels, budget);
    AtomsTile(text, levels, budget);
    BodiesEnd("", atoms, budget, 0, atoms);
    ChunkEndsWell(chunks, text, bodies, overlap, atoms, budget, k);
    AtomEndsAreLastBreaks(text, levels, budget, BodyStart(chunks, k), chunks[k].end);
  }

  /** Every body ends at the last break that fits, told by the cuts of the levels alone. */
  lemma ChunksEndAtLastBreaks(text: string, maxChars: int, overlap: int, boundary: Boundary)
    requires maxChars > 0 && overlap >= 0
    ensures AllEndAtLastBreak(ChunkText(text, maxChars, overlap, boundary).value, text, LevelsOf(boundary),
                              maxChars - Min(overlap, maxChars - 1))
  {
    if text != "" {
      var used := Min(overlap, maxChars - 1);
      var size, levels := maxChars - used, LevelsOf(boundary);
      var atoms := Atoms(text, levels, size);
      var bodies := Bodies("", atoms, size);
      AtomsTile(text, levels, size);
      BodiesTile("", atoms, size);
      assert "" + Concat(atoms) == text && text[0..] == text;
      ChunksFollowBodies(text, bodies, 0, 0, used);
      forall k | 0 <= k < |ChunksFrom(text, bodies, 0, 0, used)| {
        BodiesEndAtLastBreaks(text, levels, bodies, ChunksFrom(text, bodies, 0, 0, used), size, used, k);
      }
    }
  }

  // ---- There is no other way ----

  lemma LastBreakIsUnique(text: string, levels: seq<Level>, budget: nat, from: nat, a: nat, b: nat)
    requires budget > 0
    requires EndsAtLastBreak(text, levels, budget, from, a) && EndsAtLastBreak(text, levels, budget, from, b)
    ensures a == b
  {
  }

  /** The k-th chunk is in its place and ends at the last break. */
  ghost predicate MadeAt(chunks: seq<Chunk>, text: string, levels: seq<Level>, maxChars: nat, overlap: nat, k: nat)
    requires overlap < maxChars && k < |chunks|
  {
    && ChunkFits(chunks, k, text, maxChars, overlap)
    && EndsAtLastBreak(text, levels, maxChars - overlap, BodyStart(chunks, k), chunks[k].end)
  }

  ghost predicate Made(chunks: seq<Chunk>, text: string, levels: seq<Level>, maxChars: nat, overlap: nat)
    requires overlap < maxChars
  {
    forall k :: 0 <= k < |chunks| ==> MadeAt(chunks, text, levels, maxChars, overlap, k)
  }

  lemma NextAgrees(a: seq<Chunk>, b: seq<Chunk>, text: string, levels: seq<Level>, maxChars: nat, overlap: nat, k: nat)
    requires overlap < maxChars && k < |a| && k < |b| && BodyStart(a, k) == BodyStart(b, k)
    requires MadeAt(a, text, levels, maxChars, overlap, k) && MadeAt(b, text, levels, maxChars, overlap, k)
    ensures a[k] == b[k]
  {
    LastBreakIsUnique(text, levels, maxChars - overlap, BodyStart(a, k), a[k].end, b[k].end);
  }

  lemma {:induction false} PrefixesAgree(a: seq<Chunk>, b: seq<Chunk>, text: string, levels: seq<Level>, maxChars: nat,
                                         overlap: nat, k: nat)
    requires overlap < maxChars && k <= |a| && k <= |b|
    requires Made(a, text, levels, maxChars, overlap) && Made(b, text, levels, maxChars, overlap)
    ensures a[..k] == b[..k] && BodyStart(a, k) == BodyStart(b, k)
  {
    if k > 0 {
      PrefixesAgree(a, b, text, levels, maxChars, overlap, k - 1);
      NextAgrees(a, b, text, levels, maxChars, overlap, k - 1);
      assert a[..k] == a[..k - 1] + [a[k - 1]] && b[..k] == b[..k - 1] + [b[k - 1]];
    }
  }

  lemma StartsInside(chunks: seq<Chunk>, text: string, levels: seq<Level>, maxChars: nat, overlap: nat, k: nat)
    requires overlap < maxChars && Made(chunks, text, levels, maxChars, overlap) && k < |chunks|
    ensures BodyStart(chunks, k) < |text|
  {
    assert MadeAt(chunks, text, levels, maxChars, overlap, k);
  }

  lemma NotLonger(a: seq<Chunk>, b: seq<Chunk>, text: string, levels: seq<Level>, maxChars: nat, overlap: nat)
    requires overlap < maxChars && BodyStart(a, |a|) == |text|
    requires Made(a, text, levels, maxChars, overlap) && Made(b, text, levels, maxChars, overlap)
    ensures |a| >= |b|
  {
    if |a| < |b| {
      PrefixesAgree(a, b, text, levels, maxChars, overlap, |a|);
      StartsInside(b, text, levels, maxChars, overlap, |a|);
    }
  }

  lemma MadeByTiling(chunks: seq<Chunk>, text: string, levels: seq<Level>, maxChars: nat, overlap: nat)
    requires overlap < maxChars
    requires ChunksTile(chunks, text, maxChars, overlap) && AllEndAtLastBreak(chunks, text, levels, maxChars - overlap)
    ensures Made(chunks, text, levels, maxChars, overlap) && BodyStart(chunks, |chunks|) == |text|
  {
  }

  lemma TilingsAgree(a: seq<Chunk>, b: seq<Chunk>, text: string, levels: seq<Level>, maxChars: nat, overlap: nat)
    requires overlap < maxChars
    requires ChunksTile(a, text, maxChars, overlap) && AllEndAtLastBreak(a, text, levels, maxChars - overlap)
    requires ChunksTile(b, text, maxChars, overlap) && AllEndAtLastBreak(b, text, levels, maxChars - overlap)
    ensures a == b
  {
    MadeByTiling(a, text, levels, maxChars, overlap);
    MadeByTiling(b, text, levels, maxChars, overlap);
    NotLonger(a, b, text, levels, maxChars, overlap);
    NotLonger(b, a, text, levels, maxChars, overlap);
    PrefixesAgree(a, b, text, levels, maxChars, overlap, |a|);
    assert a[..|a|] == a && b[..|b|] == b;
  }

  /**
    The chunks are determined: whatever tiles the text with every body ending at the last break that fits is what the
    chunker makes.
   */
  lemma ChunkingIsUnique(chunks: seq<Chunk>, text: string, maxChars: int, overlap: int, boundary: Boundary)
    requires maxChars > 0 && overlap >= 0
    ensures chunks == ChunkText(text, maxChars, overlap, boundary).value
       <==> && ChunksTile(chunks, text, maxChars, Min(overlap, maxChars - 1))
            && AllEndAtLastBreak(chunks, text, LevelsOf(boundary), maxChars - Min(overlap, maxChars - 1))
  {
    ChunkTextTiles(text, maxChars, overlap, boundary);
    ChunksEndAtLastBreaks(text, maxChars, overlap, boundary);
    var used := Min(overlap, maxChars - 1);
    if ChunksTile(chunks, text, maxChars, used)
       && AllEndAtLastBreak(chunks, text, LevelsOf(boundary), maxChars - used) {
      var made := ChunkText(text, maxChars, overlap, boundary).value;
      TilingsAgree(chunks, made, text, LevelsOf(boundary), maxChars, used);
    }
  }

  // ---- The automatic ladder, written out ----

  ghost predicate BreaksInSentence(text: string, budget: nat, e: nat)
    requires budget > 0
  {
    exists p: nat, q: nat :: UnitAround(text, Sentence, p, e, q) && q - p > budget && (e - p) % budget == 0
  }

  ghost predicate BreaksInLine(text: string, budget: nat, e: nat)
    requires budget > 0
  {
    exists p: nat, q: nat :: UnitAround(text, LineBreak, p, e, q) && q - p > budget
      && (CutAt(text[p..q], Sentence, e - p) || BreaksInSentence(text[p..q], budget, e - p))
  }

  ghost predicate BreaksInParagraph(text: string, budget: nat, e: nat)
    requires budget > 0
  {
    exists p: nat, q: nat :: UnitAround(text, Paragraph, p, e, q) && q - p > budget
      && (CutAt(text[p..q], LineBreak, e - p) || BreaksInLine(text[p..q], budget, e - p))
  }

  lemma CharBreaks(text: string, budget: nat, e: nat)
    requires budget > 0
    ensures Breakable(text, [Char], budget, e) <==> 0 < e < |text| && |text| > budget && e % budget == 0
  {
    if 0 < e < |text| {
      assert UnitAround(text, Char, 0, e, |text|) && text[0..|text|] == text;
      InsideOneUnit(text, [Char], 0, |text|, budget, e);
    }
  }

  lemma SentenceBreaks(text: string, budget: nat, e: nat)
    requires budget > 0
    ensures Breakable(text, [Sentence, Char], budget, e)
       <==> 0 < e < |text| && |text| > budget && (CutAt(text, Sentence, e) || BreaksInSentence(text, budget, e))
  {
    assert [Sentence, Char][1..] == [Char];
    forall p: nat, q: nat | UnitAround(text, Sentence, p, e, q) { CharBreaks(text[p..q], budget, e - p); }
  }

  lemma LineBreaks(text: string, budget: nat, e: nat)
    requires budget > 0
    ensures Breakable(text, [LineBreak, Sentence, Char], budget, e)
       <==> 0 < e < |text| && |text| > budget && (CutAt(text, LineBreak, e) || BreaksInLine(text, budget, e))
  {
    assert [LineBreak, Sentence, Char][1..] == [Sentence, Char];
    forall p: nat, q: nat | UnitAround(text, LineBreak, p, e, q) { SentenceBreaks(text[p..q], budget, e - p); }
  }

  /**
    A text is broken inside a paragraph only if the paragraph is too long, inside a line only if the line is too long
    as well, and inside a sentence only if that is too long, at a multiple of the budget.
   */
  lemma AutoBreaks(text: string, budget: nat, e: nat)
    requires budget > 0
    ensures Breakable(text, LevelsOf(Auto), budget, e)
       <==> 0 < e < |text| && |text| > budget && (CutAt(text, Paragraph, e) || BreaksInParagraph(text, budget, e))
  {
    assert LevelsOf(Auto)[1..] == [LineBreak, Sentence, Char];
    forall p: nat, q: nat | UnitAround(text, Paragraph, p, e, q) { LineBreaks(text[p..q], budget, e - p); }
  }
}
