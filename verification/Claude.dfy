/**
  Claude reports usage turn by turn; the service wants absolute thread totals. `ClaudeSession`
  (src/symphony/agent/claude.py) sums, publishes the sums, and upstream takes them apart again.
 */
module Claude {
  import opened Numbers
  import opened Options
  import opened Usage
  import opened Tokens

  datatype Totals = Totals(input: nat, output: nat, cacheRead: nat, cacheCreation: nat)

  const NO_TOKENS := Totals(0, 0, 0, 0)

  /** The value under an exact key. */
  function Get(fields: Fields, key: string): Json
    decreases |fields|
  {
    if fields == [] then Null
    else if fields[|fields| - 1].key == key then fields[|fields| - 1].value
    else Get(fields[..|fields| - 1], key)
  }

  /** Negative counts read as zero, anything that is not a number as nothing. */
  function SafeInt(value: Json): nat
  {
    if value.Number? && value.n > 0 then value.n else 0
  }

  function Credited(t: Totals, usage: Fields): Totals
  {
    Totals(t.input + SafeInt(Get(usage, "input_tokens")),
           t.output + SafeInt(Get(usage, "output_tokens")),
           t.cacheRead + SafeInt(Get(usage, "cache_read_input_tokens")),
           t.cacheCreation + SafeInt(Get(usage, "cache_creation_input_tokens")))
  }

  function TotalTokens(t: Totals): nat { t.input + t.output + t.cacheRead }

  function AbsoluteUsage(t: Totals): Fields
  {
    [Field("input_tokens", Number(t.input + t.cacheRead)),
     Field("output_tokens", Number(t.output)),
     Field("total_tokens", Number(TotalTokens(t)))]
  }

  /** What a `result` event carries besides usage; every value is whatever the process sent. */
  datatype Result = Result(
    usage: Json,
    text: string,
    stopReason: Json,
    numTurns: Json,
    durationMs: Json,
    turnCost: Json,
    sessionCost: int,
    denials: nat,
    rateLimits: Option<Fields>,
    isError: bool)

  function UsageOf(r: Result): Fields { if r.usage.Object? then r.usage.fields else [] }

  function Payload(t: Totals, r: Result): Fields
  {
    [Field("result", Text(r.text)),
     Field("stop_reason", r.stopReason),
     Field("num_turns", r.numTurns),
     Field("duration_ms", r.durationMs),
     Field("total_token_usage", Object(AbsoluteUsage(t))),
     Field("cost", Object([Field("turn_usd", r.turnCost), Field("session_usd", Number(r.sessionCost))])),
     Field("cache", Object([Field("read_input_tokens", Number(t.cacheRead)),
                            Field("creation_input_tokens", Number(t.cacheCreation))])),
     Field("permission_denials", Number(r.denials))]
    + if r.rateLimits.Some? then [Field("rate_limits", Object(r.rateLimits.value))] else []
  }

  datatype Event = TurnCompleted(payload: Json, usage: Json) | TurnFailed(payload: Json, usage: Json)

  function Emitted(t: Totals, r: Result): Event
  {
    var payload, usage := Object(Payload(t, r)), Object([Field("total_token_usage", Object(AbsoluteUsage(t)))]);
    if r.isError then TurnFailed(payload, usage) else TurnCompleted(payload, usage)
  }

  /** The counters of one conversation. */
  class ClaudeSession {
    var inputTokens: nat
    var outputTokens: nat
    var cacheReadTokens: nat
    var cacheCreationTokens: nat

    ghost function Now(): Totals
      reads this
    {
      Totals(inputTokens, outputTokens, cacheReadTokens, cacheCreationTokens)
    }

    constructor ()
      ensures Now() == NO_TOKENS
    {
      inputTokens, outputTokens, cacheReadTokens, cacheCreationTokens := 0, 0, 0, 0;
    }

    method Credit(usage: Fields)
      modifies this
      ensures Now() == Credited(old(Now()), usage)
    {
      inputTokens := inputTokens + SafeInt(Get(usage, "input_tokens"));
      outputTokens := outputTokens + SafeInt(Get(usage, "output_tokens"));
      cacheReadTokens := cacheReadTokens + SafeInt(Get(usage, "cache_read_input_tokens"));
      cacheCreationTokens := cacheCreationTokens + SafeInt(Get(usage, "cache_creation_input_tokens"));
    }

    /** Usage is credited and published whether or not the turn failed. */
    method HandleResult(r: Result) returns (event: Event)
      modifies this
      ensures Now() == Credited(old(Now()), UsageOf(r))
      ensures event == Emitted(Now(), r)
    {
      Credit(UsageOf(r));
      var t := Totals(inputTokens, outputTokens, cacheReadTokens, cacheCreationTokens);
      event := Emitted(t, r);
    }
  }

  // ---- The published payload reads back as the published sums ----

  predicate Plain(word: string) { forall k :: 0 <= k < |word| ==> 'a' <= word[k] <= 'z' }

  lemma {:induction false} WordEndsAt(text: string, n: nat, word: string)
    requires |word| <= n <= |text| && text[n - |word|..n] == word && Plain(word)
    ensures NormTo(text, n) == NormTo(text, n - |word|) + word
    decreases |word|
  {
    if word == "" {
      assert NormTo(text, n) + "" == NormTo(text, n);
    } else {
      var front, last := word[..|word| - 1], word[|word| - 1];
      LastOfWord(text, n, word);
      assert Plain(front);
      WordEndsAt(text, n - 1, front);
      OneMoreLetter(text, n, NormTo(text, n - |word|), front, last);
      assert front + [last] == word;
    }
  }

  lemma OneMoreLetter(text: string, n: nat, base: string, front: string, last: char)
    requires 0 < n <= |text| && text[n - 1] == last && 'a' <= last <= 'z' && NormTo(text, n - 1) == base + front
    ensures NormTo(text, n) == base + (front + [last])
  {
    assert (base + front) + [last] == base + (front + [last]);
  }

  lemma LastOfWord(text: string, n: nat, word: string)
    requires 0 < |word| <= n <= |text| && text[n - |word|..n] == word
    ensures text[n - 1] == word[|word| - 1]
    ensures text[n - |word|..n - 1] == word[..|word| - 1]
  {
    assert text[n - |word|..n][|word| - 1] == text[n - 1];
  }

  lemma {:induction false} NormOfPrefix(text: string, front: string, n: nat)
    requires front <= text && n <= |front|
    ensures NormTo(text, n) == NormTo(front, n)
  {
    if n > 0 {
      NormOfPrefix(text, front, n - 1);
    }
  }

  lemma OneMoreWord(key: string, front: string, word: string)
    requires key == front + "_" + word && Plain(word)
    ensures Norm(key) == Norm(front) + word
  {
    WordEndsAt(key, |key|, word);
    assert key[|front|] == '_';
    NormOfPrefix(key, front, |front|);
  }

  lemma TwoWords(key: string, a: string, b: string)
    requires key == a + "_" + b && Plain(a) && Plain(b)
    ensures Norm(key) == a + b
  {
    OneMoreWord(key, a, b);
    WordEndsAt(a, |a|, a);
  }

  lemma ThreeWords(key: string, a: string, b: string, c: string)
    requires key == a + "_" + b + "_" + c && Plain(a) && Plain(b) && Plain(c)
    ensures Norm(key) == a + b + c
  {
    OneMoreWord(key, a + "_" + b, c);
    TwoWords(a + "_" + b, a, b);
  }

  lemma NormOfTotalTokenUsage(key: string)
    requires key == "total_token_usage"
    ensures Norm(key) == "totaltokenusage"
  {
    ThreeWords(key, "total", "token", "usage");
  }

  lemma NormOfStopReason(key: string)
    requires key == "stop_reason"
    ensures Norm(key) == "stopreason"
  {
    TwoWords(key, "stop", "reason");
  }

  lemma NormOfNumTurns(key: string)
    requires key == "num_turns"
    ensures Norm(key) == "numturns"
  {
    TwoWords(key, "num", "turns");
  }

  lemma NormOfDurationMs(key: string)
    requires key == "duration_ms"
    ensures Norm(key) == "durationms"
  {
    TwoWords(key, "duration", "ms");
  }

  lemma NormOfInputTokens(key: string)
    requires key == "input_tokens"
    ensures Norm(key) == "inputtokens"
  {
    TwoWords(key, "input", "tokens");
  }

  lemma NormOfOutputTokens(key: string)
    requires key == "output_tokens"
    ensures Norm(key) == "outputtokens"
  {
    TwoWords(key, "output", "tokens");
  }

  lemma NormOfTotalTokens(key: string)
    requires key == "total_tokens"
    ensures Norm(key) == "totaltokens"
  {
    TwoWords(key, "total", "tokens");
  }

  function Published(t: Totals): Counts { Counts(t.input + t.cacheRead, t.output, TotalTokens(t)) }

  /** The absolute usage is found by the names the reader tries first. */
  lemma UsageReadsBack(names: Names, t: Totals)
    requires TriedFirst(names.input, "inputtokens") && TriedFirst(names.output, "outputtokens")
    requires TriedFirst(names.total, "totaltokens")
    ensures ReadTokenCounts(names, AbsoluteUsage(t)) == Some(Published(t))
  {
    var usage := AbsoluteUsage(t);
    var i, o, n := usage[0], usage[1], usage[2];
    NormOfInputTokens(i.key);
    NormOfOutputTokens(o.key);
    NormOfTotalTokens(n.key);
    ThreeRead(names, i, o, n, t.input + t.cacheRead, t.output, TotalTokens(t));
    assert usage == [i, o, n];
  }

  lemma ThreeRead(names: Names, i: Field, o: Field, n: Field, input: nat, output: nat, total: nat)
    requires TriedFirst(names.input, Norm(i.key)) && TriedFirst(names.output, Norm(o.key))
    requires TriedFirst(names.total, Norm(n.key))
    requires Norm(i.key) == "inputtokens" && Norm(o.key) == "outputtokens" && Norm(n.key) == "totaltokens"
    requires i.value == Number(input) && o.value == Number(output) && n.value == Number(total)
    ensures ReadTokenCounts(names, [i, o, n]) == Some(Counts(input, output, total))
  {
    AllDifferent();
    LookupThree(i, o, n);
    FirstNameWins([i, o, n], names.input, input);
    FirstNameWins([i, o, n], names.output, output);
    FirstNameWins([i, o, n], names.total, total);
  }

  lemma AllDifferent()
    ensures "inputtokens" != "outputtokens" && "outputtokens" != "totaltokens" && "inputtokens" != "totaltokens"
  {
    assert "inputtokens"[0] != "totaltokens"[0] && "outputtokens"[0] != "totaltokens"[0];
  }

  predicate TriedFirst(names: seq<string>, name: string) { names != [] && names[0] == name }

  lemma FirstNameWins(fields: Fields, names: seq<string>, count: nat)
    requires names != [] && Lookup(fields, names[0]) == Some(Number(count))
    ensures FirstCount(fields, names) == Some(count)
  {
  }

  lemma LookupThree(a: Field, b: Field, c: Field)
    requires Norm(a.key) != Norm(b.key) && Norm(b.key) != Norm(c.key) && Norm(a.key) != Norm(c.key)
    ensures Lookup([a, b, c], Norm(a.key)) == Some(a.value)
    ensures Lookup([a, b, c], Norm(b.key)) == Some(b.value)
    ensures Lookup([a, b, c], Norm(c.key)) == Some(c.value)
  {
    var all := [a, b, c];
    assert all[1..] == [b, c] && all[1..][1..] == [c] && all[1..][1..][1..] == [];
    forall name ensures Lookup(all, name) == (if Norm(c.key) == name then Some(c.value)
                                              else if Norm(b.key) == name then Some(b.value)
                                              else if Norm(a.key) == name then Some(a.value) else None)
    {
      assert Lookup(all[1..][1..], name) == if Norm(c.key) == name then Some(c.value) else None;
    }
  }

  /** The totals wrapper is the first absolute key of the payload, whatever the process put into the other fields. */
  lemma WrapperComesFirst(t: Totals, r: Result)
    ensures FirstAbsoluteIn(Payload(t, r)) == Some(AbsoluteUsage(t))
  {
    var payload := Payload(t, r);
    NormOfStopReason(payload[1].key);
    NormOfNumTurns(payload[2].key);
    NormOfDurationMs(payload[3].key);
    NormOfTotalTokenUsage(payload[4].key);
    NotAbsolute();
    FifthIsFirst(payload);
  }

  lemma FifthIsFirst(fields: Fields)
    requires |fields| >= 5 && IsAbsoluteKey(Norm(fields[4].key)) && fields[4].value.Object?
    requires forall i :: 0 <= i < 4 ==> !fields[i].value.Object? || !IsAbsoluteKey(Norm(fields[i].key))
    ensures FirstAbsoluteIn(fields) == Some(fields[4].value.fields)
  {
    SkipField(fields);
    SkipField(fields[1..]);
    SkipField(fields[2..]);
    SkipField(fields[3..]);
    assert fields[1..][1..] == fields[2..] && fields[2..][1..] == fields[3..] && fields[3..][1..] == fields[4..];
  }

  lemma NotAbsolute()
    ensures !IsAbsoluteKey("stopreason") && !IsAbsoluteKey("numturns") && !IsAbsoluteKey("durationms")
    ensures IsAbsoluteKey("totaltokenusage")
  {
    assert "stopreason"[0] != "totalusage"[0] && "durationms"[0] != "totalusage"[0];
  }

  lemma SkipField(fields: Fields)
    requires fields != [] && (!fields[0].value.Object? || !IsAbsoluteKey(Norm(fields[0].key)))
    ensures FirstAbsoluteIn(fields) == FirstAbsoluteIn(fields[1..])
  {
  }

  lemma OutermostWins(names: Names, fields: Fields)
    requires FirstAbsoluteIn(fields).Some?
    ensures SelectAbsoluteUsage(names, Object(fields)) == FirstAbsoluteIn(fields)
  {
    var nodes := Walk([(fields, 0)], 0);
    assert nodes[0] == fields;
  }

  /** Every emitted event, of a failed turn too, reads back as the sums of the session, never as the rate limits. */
  lemma EventReadsBack(t: Totals, r: Result)
    ensures EventTotals(Emitted(t, r).payload, Some(Emitted(t, r).usage)) == Some(Published(t))
  {
    WrapperComesFirst(t, r);
    OutermostWins(NAMES, Payload(t, r));
    UsageReadsBack(NAMES, t);
  }

  // ---- The round trip over a conversation ----

  function CreditAll(t: Totals, turns: seq<Result>): Totals
    decreases |turns|
  {
    if turns == [] then t else CreditAll(Credited(t, UsageOf(turns[0])), turns[1..])
  }

  /** What upstream extracts from the event of each turn; None where an event carries no totals. */
  function Extracted(t: Totals, turns: seq<Result>): seq<Option<Counts>>
    decreases |turns|
  {
    if turns == [] then []
    else
      var t' := Credited(t, UsageOf(turns[0]));
      var event := Emitted(t', turns[0]);
      [EventTotals(event.payload, Some(event.usage))] + Extracted(t', turns[1..])
  }

  /** Upstream credits the increase over the last report, and does nothing when there is none. */
  function CreditUpstream(session: Session, reports: seq<Option<Counts>>): Session
    decreases |reports|
  {
    if reports == [] then session
    else CreditUpstream(if reports[0].Some? then Credit(session, reports[0].value) else session, reports[1..])
  }

  function TurnInput(r: Result): nat
  {
    SafeInt(Get(UsageOf(r), "input_tokens")) + SafeInt(Get(UsageOf(r), "cache_read_input_tokens"))
  }

  function TurnOutput(r: Result): nat { SafeInt(Get(UsageOf(r), "output_tokens")) }

  /** Per-turn usage summed directly. */
  function PerTurnSum(turns: seq<Result>): Counts
    decreases |turns|
  {
    if turns == [] then ZERO
    else
      Plus(Counts(TurnInput(turns[0]), TurnOutput(turns[0]), TurnInput(turns[0]) + TurnOutput(turns[0])),
           PerTurnSum(turns[1..]))
  }

  lemma {:induction false} RoundTripFrom(t: Totals, session: Session, turns: seq<Result>)
    requires session.lastReported == Published(t)
    ensures CreditUpstream(session, Extracted(t, turns)).credited == Plus(session.credited, PerTurnSum(turns))
    decreases |turns|
  {
    if turns != [] {
      var t' := Credited(t, UsageOf(turns[0]));
      EventReadsBack(t', turns[0]);
      var reports := Extracted(t, turns);
      assert reports[0] == Some(Published(t')) && reports[1..] == Extracted(t', turns[1..]);
      RoundTripFrom(t', Credit(session, Published(t')), turns[1..]);
    }
  }

  /**
    Per-turn usage survives the trip through absolutes and back: whatever turns a session reports, crediting,
    publishing, extracting and taking increases yields exactly the sum of input plus cache-read tokens and of output
    tokens.
   */
  lemma RoundTrip(turns: seq<Result>)
    ensures CreditUpstream(FRESH, Extracted(NO_TOKENS, turns)).credited == PerTurnSum(turns)
  {
    NothingPublished();
    RoundTripFrom(NO_TOKENS, FRESH, turns);
    PlusZero(PerTurnSum(turns));
  }

  lemma NothingPublished()
    ensures Published(NO_TOKENS) == ZERO
  {
  }

  lemma PlusZero(c: Counts)
    ensures Plus(ZERO, c) == c
  {
  }

  // ---- What a turn reports ----

  /** The count in the last field with exactly this key; anything else reads as zero. */
  ghost predicate Reports(fields: Fields, key: string, n: nat)
  {
    if exists i :: LastWithKey(fields, key, i) && fields[i].value.Number?
    then exists i :: LastWithKey(fields, key, i) && fields[i].value.Number? && n == Max(fields[i].value.n, 0)
    else n == 0
  }

  predicate LastWithKey(fields: Fields, key: string, i: int)
  {
    0 <= i < |fields| && fields[i].key == key && forall j :: i < j < |fields| ==> fields[j].key != key
  }

  predicate Lacks(fields: Fields, key: string) { forall i :: 0 <= i < |fields| ==> fields[i].key != key }

  lemma LastInFront(front: Fields, last: Field, key: string, i: int)
    requires last.key != key
    ensures LastWithKey(front + [last], key, i) <==> LastWithKey(front, key, i)
  {
    var fields := front + [last];
    assert forall j :: 0 <= j < |front| ==> fields[j] == front[j];
    assert fields[|front|] == last;
  }

  lemma {:induction false} GetIsLast(fields: Fields, key: string)
    ensures forall i :: LastWithKey(fields, key, i) ==> Get(fields, key) == fields[i].value
    ensures if Lacks(fields, key) then Get(fields, key) == Null else exists i :: LastWithKey(fields, key, i)
    decreases |fields|
  {
    if fields != [] {
      var front, last := fields[..|fields| - 1], fields[|fields| - 1];
      assert fields == front + [last];
      if last.key == key {
        assert LastWithKey(fields, key, |front|);
      } else {
        GetIsLast(front, key);
        forall i ensures LastWithKey(fields, key, i) <==> LastWithKey(front, key, i) {
          LastInFront(front, last, key, i);
        }
        if !Lacks(front, key) {
          var i :| LastWithKey(front, key, i);
          assert LastWithKey(fields, key, i);
        }
      }
    }
  }

  lemma CountIsReported(fields: Fields, key: string, n: nat)
    requires Reports(fields, key, n)
    ensures SafeInt(Get(fields, key)) == n
  {
    GetIsLast(fields, key);
  }

  /** A turn counts its own and its cache-read input tokens as input, and its output tokens as output. */
  lemma TurnIsItsReport(r: Result, input: nat, output: nat, cacheRead: nat)
    requires Reports(UsageOf(r), "input_tokens", input) && Reports(UsageOf(r), "output_tokens", output)
    requires Reports(UsageOf(r), "cache_read_input_tokens", cacheRead)
    ensures TurnInput(r) == input + cacheRead && TurnOutput(r) == output
    ensures !r.usage.Object? ==> TurnInput(r) == TurnOutput(r) == 0
  {
    CountIsReported(UsageOf(r), "input_tokens", input);
    CountIsReported(UsageOf(r), "output_tokens", output);
    CountIsReported(UsageOf(r), "cache_read_input_tokens", cacheRead);
  }
}
