/** Whole runs of the service under either reconciler. */
module RunEquivalence {
  import opened Models
  import opened Machine
  import opened Reconcile
  import opened Handlers
  import opened Invariant
  import opened Reachability
  import opened ReconcileEquivalence

  /** The same run with every tick reconciled by `r`. */
  function Under(actions: seq<Action>, r: Reconciler): seq<Action>
    decreases |actions|
  {
    if actions == [] then []
    else
      [match actions[0] case Outside(e) => Outside(e) case Round(_, o) => Round(r, o)] + Under(actions[1..], r)
  }

  /** No tracker answer repeats an id. */
  ghost predicate AnswersDistinct(actions: seq<Action>)
  {
    forall i :: 0 <= i < |actions| && actions[i].Round? && actions[i].outcome.refreshed.Some? ==>
      DistinctIds(actions[i].outcome.refreshed.value)
  }

  lemma RoundsAgree(s: State, o: Outcome)
    requires s.running.Valid() && (o.refreshed.Some? ==> DistinctIds(o.refreshed.value))
    ensures Process(s, Delegated, o) == Process(s, BuiltIn, o)
  {
    if s.mailbox != [] && s.mailbox[0].Tick? {
      ReconcilersAgree(s.(mailbox := s.mailbox[1..]), o.refreshed);
    }
  }

  lemma {:induction false} RunsAgreeFrom(s: State, actions: seq<Action>)
    requires Inv(s, {}) && AnswersDistinct(actions)
    ensures Run(s, Under(actions, Delegated)) == Run(s, Under(actions, BuiltIn))
    decreases |actions|
  {
    if actions != [] {
      var a, b := Under(actions, Delegated), Under(actions, BuiltIn);
      assert Inv(s, {}) ==> s.running.Valid();
      match actions[0] {
        case Outside(e) => OccurKeepsInv(s, e, {});
        case Round(_, o) =>
          RoundsAgree(s, o);
          ProcessKeepsInv(s, Delegated, o);
      }
      assert a[1..] == Under(actions[1..], Delegated) && b[1..] == Under(actions[1..], BuiltIn);
      RunsAgreeFrom(Act(s, a[0]), actions[1..]);
    }
  }

  /**
    From the start on, a service that delegates reconciliation and one that falls back on the built-in loop go through
    the same states, whatever happens around and inside their handlers, as long as no answer repeats an id.
   */
  lemma RunsAgree(config: Config, now: int, future: seq<seq<Event>>, actions: seq<Action>)
    requires AnswersDistinct(actions)
    ensures Run(Initial(config, now, future), Under(actions, Delegated))
         == Run(Initial(config, now, future), Under(actions, BuiltIn))
  {
    var s := Initial(config, now, future);
    RunsAgreeFrom(s, actions);
  }
}
