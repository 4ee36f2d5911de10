/**
  Token accounting (src/symphony/agent/events.py): agents report absolute thread totals, the
  service credits only the increases. A report lower than the last one credits nothing and becomes the new
  baseline.
 */
module Tokens {

  datatype Counts = Counts(input: nat, output: nat, total: nat)

  const ZERO := Counts(0, 0, 0)

  function Plus(a: Counts, b: Counts): Counts
  {
    Counts(a.input + b.input, a.output + b.output, a.total + b.total)
  }

  predicate AtLeast(a: Counts, b: Counts)
  {
    a.input >= b.input && a.output >= b.output && a.total >= b.total
  }

  function Increase(before: nat, after: nat): nat
  {
    if after > before then after - before else 0
  }

  function Increases(before: Counts, after: Counts): Counts
  {
    Counts(Increase(before.input, after.input),
           Increase(before.output, after.output),
           Increase(before.total, after.total))
  }

  /** The token fields of a live session. */
  datatype Session = Session(credited: Counts, lastReported: Counts)

  const FRESH := Session(ZERO, ZERO)

  function TokenDelta(session: Session, totals: Counts): Counts
  {
    Increases(session.lastReported, totals)
  }

  function Credit(session: Session, totals: Counts): Session
  {
    Session(Plus(session.credited, TokenDelta(session, totals)), totals)
  }

  /** The session after a whole sequence of absolute reports. */
  function Replay(session: Session, reports: seq<Counts>): Session
    decreases |reports|
  {
    if reports == [] then session else Replay(Credit(session, reports[0]), reports[1..])
  }

  /** The sum of the positive steps of a report sequence, without any session. */
  function PositiveIncrements(baseline: Counts, reports: seq<Counts>): Counts
    decreases |reports|
  {
    if reports == [] then ZERO
    else Plus(Increases(baseline, reports[0]), PositiveIncrements(reports[0], reports[1..]))
  }

  predicate NeverDrops(baseline: Counts, reports: seq<Counts>)
    decreases |reports|
  {
    reports == [] || (AtLeast(reports[0], baseline) && NeverDrops(reports[0], reports[1..]))
  }

  lemma {:induction false} ReplayCreditsPositiveIncrements(session: Session, reports: seq<Counts>)
    ensures Replay(session, reports).credited
         == Plus(session.credited, PositiveIncrements(session.lastReported, reports))
    ensures Replay(session, reports).lastReported
         == if reports == [] then session.lastReported else reports[|reports| - 1]
    decreases |reports|
  {
    if reports != [] {
      ReplayCreditsPositiveIncrements(Credit(session, reports[0]), reports[1..]);
    }
  }

  /** Credit never falls behind the last report, and equals it exactly while no report has ever dropped. */
  lemma {:induction false} CreditCoversLastReport(session: Session, reports: seq<Counts>)
    requires AtLeast(session.credited, session.lastReported)
    ensures var end := Replay(session, reports);
            AtLeast(end.credited, end.lastReported) &&
            (end.credited == end.lastReported
             <==> session.credited == session.lastReported && NeverDrops(session.lastReported, reports))
    decreases |reports|
  {
    if reports != [] {
      CreditCoversLastReport(Credit(session, reports[0]), reports[1..]);
    }
  }

  /** The token fields of `LiveSession`, updated in place. */
  class LiveSession {
    var codexInputTokens: nat
    var codexOutputTokens: nat
    var codexTotalTokens: nat
    var lastReportedInputTokens: nat
    var lastReportedOutputTokens: nat
    var lastReportedTotalTokens: nat

    ghost function Value(): Session
      reads this
    {
      Session(Counts(codexInputTokens, codexOutputTokens, codexTotalTokens),
              Counts(lastReportedInputTokens, lastReportedOutputTokens, lastReportedTotalTokens))
    }
  }

  /** The aggregate counters. */
  class CodexTotals {
    var inputTokens: nat
    var outputTokens: nat
    var totalTokens: nat

    ghost function Value(): Counts
      reads this
    {
      Counts(inputTokens, outputTokens, totalTokens)
    }
  }

  method ApplyTokenTotals(session: LiveSession, totals: Counts, aggregate: CodexTotals?) returns (delta: Counts)
    modifies session, aggregate
    ensures session.Value() == Credit(old(session.Value()), totals)
    ensures old(session.Value()).credited.input + delta.input == session.Value().credited.input
    ensures delta == TokenDelta(old(session.Value()), totals)
    ensures aggregate != null ==> aggregate.Value() == Plus(old(aggregate.Value()), delta)
  {
    delta := Counts(Increase(session.lastReportedInputTokens, totals.input),
                    Increase(session.lastReportedOutputTokens, totals.output),
                    Increase(session.lastReportedTotalTokens, totals.total));
    session.codexInputTokens := session.codexInputTokens + delta.input;
    session.codexOutputTokens := session.codexOutputTokens + delta.output;
    session.codexTotalTokens := session.codexTotalTokens + delta.total;
    session.lastReportedInputTokens := totals.input;
    session.lastReportedOutputTokens := totals.output;
    session.lastReportedTotalTokens := totals.total;
    if aggregate != null {
      aggregate.inputTokens := aggregate.inputTokens + delta.input;
      aggregate.outputTokens := aggregate.outputTokens + delta.output;
      aggregate.totalTokens := aggregate.totalTokens + delta.total;
    }
  }
}
