/** Text with nowhere natural to cut: the chunker slices it into even steps. */
module BoundaryFree {
  import opened Numbers
  import opened Chunker
  import opened Recursion

  /** There is nowhere to cut but between any two characters. */
  ghost predicate NoBoundaries(text: string)
  {
    forall level: Level, i | 0 < i < |text| :: !CutAt(text, level, i)
  }

  lemma SlicesHaveNoBoundaries(text: string, a: nat, b: nat)
    requires NoBoundaries(text) && a <= b <= |text|
    ensures NoBoundaries(text[a..b])
  {
    forall level: Level, i | 0 < i < b - a ensures !CutAt(text[a..b], level, i) {
      assert !CutAt(text, level, a + i);
    }
  }

  lemma {:induction false} AtomsAreSlices(text: string, levels: seq<Level>, budget: nat)
    requires budget > 0 && text != "" && NoBoundaries(text)
    ensures Atoms(text, levels, budget) == HardSlices(text, budget)
    decreases |levels|
  {
    if |text| > budget && levels != [] {
      NoCutAhead(text, levels[0], 1);
      assert text[0..|text|] == text;
      assert Units(text, levels[0]) == [text] + UnitsFrom(text, levels[0], |text|);
      AtomsAreSlices(text, levels[1..], budget);
    }
  }

  lemma {:induction false} NoCutAhead(text: string, level: Level, i: nat)
    requires NoBoundaries(text) && 0 < i <= |text|
    ensures NextCut(text, level, i) == |text|
    decreases |text| - i
  {
    if i < |text| {
      assert !CutAt(text, level, i);
      NoCutAhead(text, level, i + 1);
    }
  }

  /** Packing does not glue hard slices back together. */
  lemma {:induction false} SlicesStayApart(text: string, budget: nat)
    requires budget > 0 && text != ""
    ensures var s := HardSlices(text, budget);
            s != [] && s[0] == text[..Min(budget, |text|)] && Bodies(s[0], s[1..], budget) == s
  {
    if |text| > budget {
      var s := HardSlices(text, budget);
      SlicesStayApart(text[budget..], budget);
      assert s[1..] == HardSlices(text[budget..], budget);
    }
  }

  lemma ChunksAreSlices(text: string, step: nat)
    requires step > 0 && NoBoundaries(text)
    ensures ChunkText(text, step, 0, Auto).value == ChunksFrom(text, HardSlices(text, step), 0, 0, 0)
  {
    if text != "" {
      AtomsAreSlices(text, LevelsOf(Auto), step);
      SlicesStayApart(text, step);
      FirstStarts(HardSlices(text, step), step);
    }
  }

  lemma FirstStarts(s: seq<string>, budget: nat)
    requires s != []
    ensures Bodies("", s, budget) == Bodies(s[0], s[1..], budget)
  {
    assert "" + s[0] == s[0];
  }

  lemma {:induction false} SlicesFromMiddle(text: string, from: nat, index: nat, step: nat)
    requires step > 0 && from < |text|
    ensures var chunks := ChunksFrom(text, HardSlices(text[from..], step), index, from, 0);
            var end := Min(from + step, |text|);
            && chunks != []
            && chunks[0] == Chunk(index, from, end, text[from..end])
            && chunks[1..] == ChunksFrom(text, HardSlices(text[end..], step), index + 1, end, 0)
  {
    var end := Min(from + step, |text|);
    var rest := text[from..];
    if |rest| > step {
      assert rest[..step] == text[from..end] && rest[step..] == text[end..];
    } else {
      assert rest == text[from..end] && text[end..] == "";
    }
    var slices := HardSlices(rest, step);
    assert slices[0] == text[from..end] && slices[1..] == HardSlices(text[end..], step);
  }

  /** From position `from` on, the chunks are steps of `step` characters, with what is left over last. */
  ghost predicate EvenSteps(chunks: seq<Chunk>, text: string, step: nat, from: nat)
    decreases |chunks|
  {
    if chunks == [] then from == |text|
    else
      var c := chunks[0];
      && c.start == from < c.end == from + Min(step, |text| - from)
      && |c.text| == c.end - from && NoBoundaries(c.text)
      && EvenSteps(chunks[1..], text, step, c.end)
  }

  lemma {:induction false} SlicesAreEven(text: string, from: nat, index: nat, step: nat)
    requires step > 0 && from <= |text| && NoBoundaries(text)
    ensures EvenSteps(ChunksFrom(text, HardSlices(text[from..], step), index, from, 0), text, step, from)
    decreases |text| - from
  {
    if from < |text| {
      var end := Min(from + step, |text|);
      SlicesFromMiddle(text, from, index, step);
      SlicesHaveNoBoundaries(text, from, end);
      SlicesAreEven(text, end, index + 1, step);
    } else {
      assert text[from..] == "";
    }
  }

  lemma SplitIsEven(budget: Budget, body: string)
    requires budget.Valid() && budget.overlapTokens == 0 && NoBoundaries(body)
    ensures EvenSteps(Split(budget, body), body, LevelChars(|body|, budget), 0)
  {
    ChunksAreSlices(body, LevelChars(|body|, budget));
    SlicesAreEven(body, 0, 0, LevelChars(|body|, budget));
    assert body[0..] == body;
  }
}
