/** The boundary-aware splitter of src/symphony/rlm/repl.py. */
module Chunker {
  import opened Numbers
  import opened Options

  const CHARS_PER_TOKEN := 4

  function CeilDiv(a: nat, b: nat): nat
    requires b > 0
  {
    (a + b - 1) / b
  }

  function EstimateTokens(text: string): nat { CeilDiv(|text|, CHARS_PER_TOKEN) }

  // ---- Natural boundaries ----

  datatype Level = Paragraph | LineBreak | Sentence | Char

  /** The line boundaries of `str.splitlines`. */
  predicate EndsLine(c: char)
  {
    || 10 <= c as int <= 13 || 28 <= c as int <= 30
    || c as int == 0x85 || c as int == 0x2028 || c as int == 0x2029
  }

  /** `\s` in a string pattern. */
  predicate IsSpace(c: char)
  {
    || 9 <= c as int <= 13 || 28 <= c as int <= 32
    || c as int == 0x85 || c as int == 0xa0 || c as int == 0x1680 || 0x2000 <= c as int <= 0x200a
    || c as int == 0x2028 || c as int == 0x2029 || c as int == 0x202f || c as int == 0x205f || c as int == 0x3000
  }

  /** The text is cut between characters `i - 1` and `i`. */
  predicate CutAt(text: string, level: Level, i: nat)
    requires 0 < i < |text|
  {
    match level
    case Paragraph => i >= 2 && text[i - 2] == '\n' && text[i - 1] == '\n'
    case LineBreak => EndsLine(text[i - 1]) && !(text[i - 1] == '\r' && text[i] == '\n')
    case Sentence => (text[i - 1] == '.' || text[i - 1] == '!' || text[i - 1] == '?') && IsSpace(text[i])
    case Char => false
  }

  function NextCut(text: string, level: Level, i: nat): (cut: nat)
    requires 0 < i <= |text|
    ensures i <= cut <= |text|
    ensures forall k :: i <= k < cut ==> !CutAt(text, level, k)
    decreases |text| - i
  {
    if i == |text| || CutAt(text, level, i) then i else NextCut(text, level, i + 1)
  }

  function UnitsFrom(text: string, level: Level, start: nat): seq<string>
    requires start <= |text|
    decreases |text| - start
  {
    if start == |text| then []
    else
      var cut := NextCut(text, level, start + 1);
      [text[start..cut]] + UnitsFrom(text, level, cut)
  }

  function Units(text: string, level: Level): seq<string> { UnitsFrom(text, level, 0) }

  function Concat(pieces: seq<string>): string
  {
    if pieces == [] then "" else pieces[0] + Concat(pieces[1..])
  }

  /** Non-empty pieces that concatenate to the text. */
  ghost predicate Tiles(pieces: seq<string>, text: string)
  {
    Concat(pieces) == text && NoneEmpty(pieces)
  }

  ghost predicate NoneEmpty(pieces: seq<string>) { forall i :: 0 <= i < |pieces| ==> pieces[i] != "" }

  ghost predicate Fits(pieces: seq<string>, budget: nat) { forall i :: 0 <= i < |pieces| ==> |pieces[i]| <= budget }

  function HardSlices(text: string, budget: nat): seq<string>
    requires budget > 0
  {
    if |text| <= budget then (if text == "" then [] else [text])
    else [text[..budget]] + HardSlices(text[budget..], budget)
  }

  /** Descend the ladder of levels until every piece fits. */
  function Atoms(text: string, levels: seq<Level>, budget: nat): seq<string>
    requires budget > 0
    decreases |levels|, 0
  {
    if |text| <= budget then [text]
    else if levels == [] then HardSlices(text, budget)
    else
      var pieces := Units(text, levels[0]);
      if |pieces| <= 1 then Atoms(text, levels[1..], budget) else AtomsOfAll(pieces, levels[1..], budget)
  }

  function AtomsOfAll(pieces: seq<string>, levels: seq<Level>, budget: nat): seq<string>
    requires budget > 0
    decreases |levels|, |pieces| + 1
  {
    if pieces == [] then []
    else (if |pieces[0]| <= budget then [pieces[0]] else Atoms(pieces[0], levels, budget))
         + AtomsOfAll(pieces[1..], levels, budget)
  }

  /** Pack atoms greedily; `buffer` is what has been gathered so far. */
  function Bodies(buffer: string, atoms: seq<string>, budget: nat): seq<string>
    decreases |atoms|
  {
    if atoms == [] then (if buffer == "" then [] else [buffer])
    else if buffer != "" && |buffer| + |atoms[0]| > budget then [buffer] + Bodies(atoms[0], atoms[1..], budget)
    else Bodies(buffer + atoms[0], atoms[1..], budget)
  }

  datatype Chunk = Chunk(index: nat, start: nat, end: nat, text: string)

  function ChunkAt(text: string, index: nat, bodyStart: nat, bodyEnd: nat, overlap: nat): Chunk
    requires bodyStart <= bodyEnd <= |text|
  {
    var start := if index > 0 && overlap > 0 then Max(0, bodyStart - overlap) else bodyStart;
    Chunk(index, start, bodyEnd, text[start..bodyEnd])
  }

  function ChunksFrom(text: string, bodies: seq<string>, index: nat, bodyStart: nat, overlap: nat): seq<Chunk>
    decreases |bodies|
  {
    if bodies == [] || bodyStart + |bodies[0]| > |text| then []
    else [ChunkAt(text, index, bodyStart, bodyStart + |bodies[0]|, overlap)]
         + ChunksFrom(text, bodies[1..], index + 1, bodyStart + |bodies[0]|, overlap)
  }

  datatype Boundary = Auto | Only(level: Level)

  function LevelsOf(boundary: Boundary): seq<Level>
  {
    if boundary.Auto? then [Paragraph, LineBreak, Sentence, Char] else [boundary.level, Char]
  }

  /** None is the ValueError for a bad size. */
  function ChunkText(text: string, maxChars: int, overlap: int, boundary: Boundary): Option<seq<Chunk>>
  {
    if maxChars <= 0 || overlap < 0 then None
    else
      var used := Min(overlap, maxChars - 1);
      var size := maxChars - used;
      Some(if text == "" then []
           else ChunksFrom(text, Bodies("", Atoms(text, LevelsOf(boundary), size), size), 0, 0, used))
  }

  // ---- Splitting loses nothing ----

  lemma {:induction false} ConcatAppend(a: seq<string>, b: seq<string>)
    ensures Concat(a + b) == Concat(a) + Concat(b)
  {
    if a == [] {
      assert a + b == b;
    } else {
      assert (a + b)[1..] == a[1..] + b;
      ConcatAppend(a[1..], b);
    }
  }

  lemma {:induction false} UnitsTile(text: string, level: Level, start: nat)
    requires start <= |text|
    ensures Tiles(UnitsFrom(text, level, start), text[start..])
    decreases |text| - start
  {
    if start < |text| {
      var cut := NextCut(text, level, start + 1);
      UnitsTile(text, level, cut);
      var rest := UnitsFrom(text, level, cut);
      assert ([text[start..cut]] + rest)[1..] == rest;
      assert text[start..cut] + text[cut..] == text[start..];
    }
  }

  lemma {:induction false} HardSlicesTile(text: string, budget: nat)
    requires budget > 0
    ensures Tiles(HardSlices(text, budget), text) && Fits(HardSlices(text, budget), budget)
  {
    if |text| > budget {
      HardSlicesTile(text[budget..], budget);
      var rest := HardSlices(text[budget..], budget);
      assert ([text[..budget]] + rest)[1..] == rest;
      assert text[..budget] + text[budget..] == text;
    } else if text != "" {
      assert Concat([text]) == text + Concat([]);
    }
  }

  lemma {:induction false} AtomsTile(text: string, levels: seq<Level>, budget: nat)
    requires budget > 0 && text != ""
    ensures Tiles(Atoms(text, levels, budget), text) && Fits(Atoms(text, levels, budget), budget)
    decreases |levels|, 0
  {
    if |text| <= budget {
      assert Concat([text]) == text + Concat([]);
    } else if levels == [] {
      HardSlicesTile(text, budget);
    } else {
      var pieces := Units(text, levels[0]);
      UnitsTile(text, levels[0], 0);
      assert text[0..] == text;
      if |pieces| <= 1 {
        AtomsTile(text, levels[1..], budget);
      } else {
        AtomsOfAllTile(pieces, levels[1..], budget);
      }
    }
  }

  lemma {:induction false} AtomsOfAllTile(pieces: seq<string>, levels: seq<Level>, budget: nat)
    requires budget > 0 && NoneEmpty(pieces)
    ensures Tiles(AtomsOfAll(pieces, levels, budget), Concat(pieces))
    ensures Fits(AtomsOfAll(pieces, levels, budget), budget)
    decreases |levels|, |pieces| + 1
  {
    if pieces != [] {
      var head := if |pieces[0]| <= budget then [pieces[0]] else Atoms(pieces[0], levels, budget);
      if |pieces[0]| <= budget {
        assert Concat([pieces[0]]) == pieces[0] + Concat([]);
      } else {
        AtomsTile(pieces[0], levels, budget);
      }
      AtomsOfAllTile(pieces[1..], levels, budget);
      ConcatAppend(head, AtomsOfAll(pieces[1..], levels, budget));
    }
  }

  /** Two neighbours never fit one budget together. */
  ghost predicate NeighboursOverflow(bodies: seq<string>, budget: nat)
  {
    forall k :: 0 <= k < |bodies| - 1 ==> |bodies[k]| + |bodies[k + 1]| > budget
  }

  lemma {:induction false} BodiesTile(buffer: string, atoms: seq<string>, budget: nat)
    requires |buffer| <= budget && Fits(atoms, budget) && NoneEmpty(atoms)
    ensures var bodies := Bodies(buffer, atoms, budget);
            && Tiles(bodies, buffer + Concat(atoms)) && Fits(bodies, budget) && NeighboursOverflow(bodies, budget)
            && (buffer != "" ==> bodies != [] && buffer <= bodies[0])
            && (buffer == "" && atoms != [] ==> bodies != [] && atoms[0] <= bodies[0])
    decreases |atoms|
  {
    if atoms == [] {
      assert buffer + "" == buffer;
    } else {
      assert buffer + (atoms[0] + Concat(atoms[1..])) == (buffer + atoms[0]) + Concat(atoms[1..]);
      if buffer != "" && |buffer| + |atoms[0]| > budget {
        BodiesTile(atoms[0], atoms[1..], budget);
        var rest := Bodies(atoms[0], atoms[1..], budget);
        assert ([buffer] + rest)[1..] == rest;
      } else {
        BodiesTile(buffer + atoms[0], atoms[1..], budget);
      }
    }
  }

  // ---- What the chunks are ----

  function BodyStart(chunks: seq<Chunk>, k: nat): nat
    requires k <= |chunks|
  {
    if k == 0 then 0 else chunks[k - 1].end
  }

  /**
    The chunks tile the text: bodies are non-empty, contiguous and end where the text ends; each chunk is the slice
    it says it is, within `maxChars` with its overlap; and two neighbouring bodies overflow one body budget.
   */
  ghost predicate ChunksTile(chunks: seq<Chunk>, text: string, maxChars: nat, overlap: nat)
  {
    && BodyStart(chunks, |chunks|) == |text|
    && forall k :: 0 <= k < |chunks| ==> ChunkFits(chunks, k, text, maxChars, overlap)
  }

  predicate ChunkFits(chunks: seq<Chunk>, k: nat, text: string, maxChars: nat, overlap: nat)
    requires k < |chunks|
  {
    var c, from := chunks[k], BodyStart(chunks, k);
    && c.index == k
    && c.start <= from < c.end <= |text|
    && c.start == (if k == 0 then 0 else Max(0, from - overlap))
    && c.text == text[c.start..c.end]
    && |c.text| <= maxChars
    && (k + 1 < |chunks| ==> chunks[k + 1].end - from > maxChars - overlap)
  }

  lemma {:induction false} ChunksFollowBodies(text: string, bodies: seq<string>, index: nat, bodyStart: nat,
                                              overlap: nat)
    requires bodyStart <= |text| && Tiles(bodies, text[bodyStart..])
    ensures FollowBodies(ChunksFrom(text, bodies, index, bodyStart, overlap), text, bodies, index, bodyStart, overlap)
    decreases |bodies|
  {
    if bodies != [] {
      var end := bodyStart + |bodies[0]|;
      TilesTail(text, bodies, bodyStart);
      ChunksFollowBodies(text, bodies[1..], index + 1, end, overlap);
      var later := ChunksFrom(text, bodies[1..], index + 1, end, overlap);
      var chunks := ChunksFrom(text, bodies, index, bodyStart, overlap);
      FollowOneMore(chunks, later, text, bodies, index, bodyStart, overlap);
    }
  }

  lemma FollowOneMore(chunks: seq<Chunk>, later: seq<Chunk>, text: string, bodies: seq<string>, index: nat,
                      bodyStart: nat, overlap: nat)
    requires bodies != [] && bodyStart + |bodies[0]| <= |text|
    requires chunks == [ChunkAt(text, index, bodyStart, bodyStart + |bodies[0]|, overlap)] + later
    requires FollowBodies(later, text, bodies[1..], index + 1, bodyStart + |bodies[0]|, overlap)
    ensures FollowBodies(chunks, text, bodies, index, bodyStart, overlap)
  {
    forall k | 0 < k < |chunks| ensures FollowsBody(chunks, text, bodies, index, bodyStart, overlap, k) {
      FollowsLater(chunks, later, text, bodies, index, bodyStart, overlap, k);
    }
  }

  lemma FollowsLater(chunks: seq<Chunk>, later: seq<Chunk>, text: string, bodies: seq<string>, index: nat,
                     bodyStart: nat, overlap: nat, k: nat)
    requires bodies != [] && bodyStart + |bodies[0]| <= |text| && 0 < k < |chunks|
    requires chunks == [ChunkAt(text, index, bodyStart, bodyStart + |bodies[0]|, overlap)] + later
    requires FollowBodies(later, text, bodies[1..], index + 1, bodyStart + |bodies[0]|, overlap)
    ensures |chunks| == |bodies| && FollowsBody(chunks, text, bodies, index, bodyStart, overlap, k)
  {
    assert chunks[k] == later[k - 1] && (k > 1 ==> chunks[k - 1] == later[k - 2]);
    assert FollowsBody(later, text, bodies[1..], index + 1, bodyStart + |bodies[0]|, overlap, k - 1);
  }

  /** The chunks cover the bodies one by one, and end where the text ends. */
  ghost predicate FollowBodies(
    chunks: seq<Chunk>, text: string, bodies: seq<string>, index: nat, bodyStart: nat, overlap: nat)
  {
    && |chunks| == |bodies|
    && (if chunks == [] then bodyStart else chunks[|chunks| - 1].end) == |text|
    && forall k :: 0 <= k < |chunks| ==> FollowsBody(chunks, text, bodies, index, bodyStart, overlap, k)
  }

  predicate FollowsBody(
    chunks: seq<Chunk>, text: string, bodies: seq<string>, index: nat, bodyStart: nat, overlap: nat, k: nat)
    requires k < |chunks| == |bodies|
  {
    var from := if k == 0 then bodyStart else chunks[k - 1].end;
    from + |bodies[k]| <= |text| && chunks[k] == ChunkAt(text, index + k, from, from + |bodies[k]|, overlap)
  }

  lemma TilesTail(text: string, bodies: seq<string>, bodyStart: nat)
    requires bodyStart <= |text| && Tiles(bodies, text[bodyStart..]) && bodies != []
    ensures var end := bodyStart + |bodies[0]|; end <= |text| && Tiles(bodies[1..], text[end..])
  {
    var end := bodyStart + |bodies[0]|;
    assert text[bodyStart..] == bodies[0] + Concat(bodies[1..]);
    assert |text[bodyStart..]| == |bodies[0]| + |Concat(bodies[1..])|;
    assert text[end..] == text[bodyStart..][|bodies[0]|..];
  }

  lemma BodiesGiveTiling(text: string, bodies: seq<string>, maxChars: nat, used: nat)
    requires used < maxChars && Tiles(bodies, text)
    requires Fits(bodies, maxChars - used) && NeighboursOverflow(bodies, maxChars - used)
    ensures ChunksTile(ChunksFrom(text, bodies, 0, 0, used), text, maxChars, used)
  {
    assert text[0..] == text;
    ChunksFollowBodies(text, bodies, 0, 0, used);
    var chunks := ChunksFrom(text, bodies, 0, 0, used);
    forall k | 0 <= k < |chunks| ensures ChunkFits(chunks, k, text, maxChars, used) {
      var from := BodyStart(chunks, k);
      assert FollowsBody(chunks, text, bodies, 0, 0, used, k);
      assert chunks[k] == ChunkAt(text, k, from, from + |bodies[k]|, used);
      assert 0 < |bodies[k]| <= maxChars - used;
      if k + 1 < |chunks| {
        assert FollowsBody(chunks, text, bodies, 0, 0, used, k + 1);
        assert chunks[k + 1].end == chunks[k].end + |bodies[k + 1]|;
        assert |bodies[k]| + |bodies[k + 1]| > maxChars - used;
      }
    }
  }

  lemma ChunkTextTiles(text: string, maxChars: int, overlap: int, boundary: Boundary)
    requires maxChars > 0 && overlap >= 0
    ensures ChunksTile(ChunkText(text, maxChars, overlap, boundary).value, text, maxChars, Min(overlap, maxChars - 1))
  {
    var used := Min(overlap, maxChars - 1);
    if text != "" {
      var atoms := Atoms(text, LevelsOf(boundary), maxChars - used);
      AtomsTile(text, LevelsOf(boundary), maxChars - used);
      BodiesTile("", atoms, maxChars - used);
      assert "" + Concat(atoms) == text;
      BodiesGiveTiling(text, Bodies("", atoms, maxChars - used), maxChars, used);
    }
  }

  lemma TwoBodies(chunks: seq<Chunk>, text: string, maxChars: nat, k: nat)
    requires ChunksTile(chunks, text, maxChars, 0) && k + 1 < |chunks|
    ensures BodyStart(chunks, k + 2) >= BodyStart(chunks, k) + maxChars + 1
  {
    assert ChunkFits(chunks, k, text, maxChars, 0);
  }

  lemma {:induction false} BodyStartBounded(chunks: seq<Chunk>, text: string, maxChars: nat, k: nat)
    requires ChunksTile(chunks, text, maxChars, 0) && k <= |chunks|
    ensures BodyStart(chunks, k) <= |text|
  {
    if k > 0 {
      assert ChunkFits(chunks, k - 1, text, maxChars, 0);
    }
  }

  /** Bodies two by two: the first 2n chunks reach past n body budgets. */
  lemma {:induction false} PairsAddUp(chunks: seq<Chunk>, text: string, maxChars: nat, n: nat)
    requires ChunksTile(chunks, text, maxChars, 0) && 2 * n <= |chunks|
    ensures BodyStart(chunks, 2 * n) >= n * (maxChars + 1)
  {
    if n > 0 {
      PairsAddUp(chunks, text, maxChars, n - 1);
      TwoBodies(chunks, text, maxChars, 2 * n - 2);
      OneMore(n, maxChars + 1);
    }
  }

  lemma OneMore(n: nat, step: nat)
    requires n > 0
    ensures n * step == (n - 1) * step + step
  {
  }

  lemma ProductsOrder(n: nat, fanout: nat, maxChars: nat)
    requires n * (maxChars + 1) <= maxChars * fanout && fanout > 0
    ensures n < fanout
  {
  }

  /** With no overlap, chunks of at least a `fanout`-th of the text are at most 2 * fanout - 1. */
  lemma ChunkCountBound(text: string, maxChars: int, fanout: nat, boundary: Boundary)
    requires fanout > 0 && maxChars > 0 && maxChars * fanout >= |text|
    ensures |ChunkText(text, maxChars, 0, boundary).value| <= 2 * fanout - 1
  {
    var chunks := ChunkText(text, maxChars, 0, boundary).value;
    var n := |chunks| / 2;
    ChunkTextTiles(text, maxChars, 0, boundary);
    PairsAddUp(chunks, text, maxChars, n);
    BodyStartBounded(chunks, text, maxChars, 2 * n);
    ProductsOrder(n, fanout, maxChars);
  }

  // ---- The loops ----

  method SplitToFit(text: string, levels: seq<Level>, budget: nat) returns (out: seq<string>)
    requires budget > 0
    ensures out == Atoms(text, levels, budget)
    decreases |levels|, 0
  {
    if |text| <= budget {
      return [text];
    }
    for i := 0 to |levels|
      invariant Atoms(text, levels, budget) == Atoms(text, levels[i..], budget)
    {
      assert levels[i..][1..] == levels[i + 1..];
      var pieces := Units(text, levels[i]);
      if |pieces| <= 1 {
        continue;
      }
      out := SplitEach(pieces, levels[i + 1..], budget);
      return;
    }
    out := HardSlices(text, budget);
  }

  method SplitEach(pieces: seq<string>, levels: seq<Level>, budget: nat) returns (out: seq<string>)
    requires budget > 0
    ensures out == AtomsOfAll(pieces, levels, budget)
    decreases |levels|, 1
  {
    out := [];
    for j := 0 to |pieces|
      invariant AtomsOfAll(pieces, levels, budget) == out + AtomsOfAll(pieces[j..], levels, budget)
    {
      assert pieces[j..][0] == pieces[j] && pieces[j..][1..] == pieces[j + 1..];
      var head := [pieces[j]];
      if |pieces[j]| > budget {
        head := SplitToFit(pieces[j], levels, budget);
      }
      assert AtomsOfAll(pieces[j..], levels, budget) == head + AtomsOfAll(pieces[j + 1..], levels, budget);
      out := out + head;
    }
  }

  /** With `buffer` filled from position `bodyStart` on and `rest` still to come, `whole` is what will be made. */
  ghost predicate Packing(whole: seq<Chunk>, chunks: seq<Chunk>, text: string, buffer: string, rest: seq<string>,
                          bodyStart: nat, budget: nat, overlap: nat)
  {
    whole == chunks + ChunksFrom(text, Bodies(buffer, rest, budget), |chunks|, bodyStart, overlap)
  }

  lemma FirstBodyMade(chunks: seq<Chunk>, text: string, bodies: seq<string>, bodyStart: nat, overlap: nat)
    requires bodies != [] && bodyStart + |bodies[0]| <= |text|
    ensures var end := bodyStart + |bodies[0]|;
            var made := chunks + [ChunkAt(text, |chunks|, bodyStart, end, overlap)];
            chunks + ChunksFrom(text, bodies, |chunks|, bodyStart, overlap)
            == made + ChunksFrom(text, bodies[1..], |made|, end, overlap)
  {
    var end := bodyStart + |bodies[0]|;
    var chunk := ChunkAt(text, |chunks|, bodyStart, end, overlap);
    var later := ChunksFrom(text, bodies[1..], |chunks| + 1, end, overlap);
    assert ChunksFrom(text, bodies, |chunks|, bodyStart, overlap) == [chunk] + later;
    ChunksRegroup(chunks, chunk, later);
  }

  lemma ChunksRegroup(before: seq<Chunk>, chunk: Chunk, later: seq<Chunk>)
    ensures before + ([chunk] + later) == (before + [chunk]) + later
  {
  }

  lemma Flushed(whole: seq<Chunk>, chunks: seq<Chunk>, text: string, buffer: string, rest: seq<string>,
                bodyStart: nat, budget: nat, overlap: nat)
    requires Packing(whole, chunks, text, buffer, rest, bodyStart, budget, overlap)
    requires buffer != "" && bodyStart + |buffer| <= |text| && (rest == [] || |buffer| + |rest[0]| > budget)
    ensures Packing(whole, chunks + [ChunkAt(text, |chunks|, bodyStart, bodyStart + |buffer|, overlap)], text, "", rest,
                    bodyStart + |buffer|, budget, overlap)
  {
    var bodies := Bodies(buffer, rest, budget);
    if rest != [] {
      assert "" + rest[0] == rest[0];
    }
    assert bodies == [buffer] + Bodies("", rest, budget);
    FirstBodyMade(chunks, text, bodies, bodyStart, overlap);
  }

  lemma Gathered(whole: seq<Chunk>, chunks: seq<Chunk>, text: string, buffer: string, rest: seq<string>,
                 bodyStart: nat, budget: nat, overlap: nat)
    requires Packing(whole, chunks, text, buffer, rest, bodyStart, budget, overlap)
    requires rest != [] && (buffer == "" || |buffer| + |rest[0]| <= budget)
    ensures Packing(whole, chunks, text, buffer + rest[0], rest[1..], bodyStart, budget, overlap)
  {
  }

  lemma AllPacked(whole: seq<Chunk>, chunks: seq<Chunk>, text: string, buffer: string, bodyStart: nat, budget: nat,
                  overlap: nat)
    requires Packing(whole, chunks, text, buffer, [], bodyStart, budget, overlap) && buffer == ""
    ensures chunks == whole
  {
  }

  /** The packing loop, with its flush. */
  method PackChunks(text: string, atoms: seq<string>, budget: nat, overlap: nat) returns (chunks: seq<Chunk>)
    requires Concat(atoms) == text
    ensures chunks == ChunksFrom(text, Bodies("", atoms, budget), 0, 0, overlap)
  {
    chunks := [];
    var cursor, bodyStart, bufferLen := 0, 0, 0;
    ghost var buffer := "";
    ghost var whole := ChunksFrom(text, Bodies("", atoms, budget), 0, 0, overlap);
    for i := 0 to |atoms|
      invariant bufferLen == |buffer| && cursor == bodyStart + bufferLen
      invariant |text| == cursor + |Concat(atoms[i..])|
      invariant Packing(whole, chunks, text, buffer, atoms[i..], bodyStart, budget, overlap)
    {
      var atom := atoms[i];
      assert atoms[i..][0] == atom && atoms[i..][1..] == atoms[i + 1..];
      if bufferLen > 0 && bufferLen + |atom| > budget {
        Flushed(whole, chunks, text, buffer, atoms[i..], bodyStart, budget, overlap);
        chunks := chunks + [ChunkAt(text, |chunks|, bodyStart, bodyStart + bufferLen, overlap)];
        bodyStart := bodyStart + bufferLen;
        bufferLen := 0;
        buffer := "";
      }
      Gathered(whole, chunks, text, buffer, atoms[i..], bodyStart, budget, overlap);
      buffer := buffer + atom;
      bufferLen := bufferLen + |atom|;
      cursor := cursor + |atom|;
    }
    assert atoms[|atoms|..] == [] && Concat(atoms[|atoms|..]) == "";
    if bufferLen > 0 {
      Flushed(whole, chunks, text, buffer, [], bodyStart, budget, overlap);
      chunks := chunks + [ChunkAt(text, |chunks|, bodyStart, bodyStart + bufferLen, overlap)];
      bodyStart := bodyStart + bufferLen;
      buffer := "";
    }
    AllPacked(whole, chunks, text, buffer, bodyStart, budget, overlap);
  }

  method MakeChunks(text: string, maxChars: int, overlap: int, boundary: Boundary) returns (chunks: Option<seq<Chunk>>)
    ensures chunks == ChunkText(text, maxChars, overlap, boundary)
    ensures chunks.Some? ==> ChunksTile(chunks.value, text, maxChars, Min(overlap, maxChars - 1))
  {
    if maxChars <= 0 || overlap < 0 {
      return None;
    }
    if text == "" {
      return Some([]);
    }
    ChunkTextTiles(text, maxChars, overlap, boundary);
    var used := Min(overlap, maxChars - 1);
    var budget := Max(1, maxChars - used);
    var atoms := SplitToFit(text, LevelsOf(boundary), budget);
    AtomsTile(text, LevelsOf(boundary), budget);
    var packed := PackChunks(text, atoms, budget, used);
    return Some(packed);
  }
}
