/** Which counts in an agent payload are absolute thread totals (src/symphony/agent/events.py). */
module Usage {
  import opened Options
  import Tokens

  datatype Json =
    | Null
    | Bool(b: bool)
    | Number(n: int)
    | Text(text: string)
    | List(items: seq<Json>)
    | Object(fields: Fields)

  datatype Field = Field(key: string, value: Json)

  type Fields = seq<Field>

  // ---- Key spelling ----

  /** Lower case, then only ASCII letters and digits; two characters outside ASCII have an ASCII lower case. */
  function Fold(c: char): string
  {
    if 'a' <= c <= 'z' || '0' <= c <= '9' then [c]
    else if 'A' <= c <= 'Z' then [c - 'A' + 'a']
    else if c as int == 0x212a then "k"
    else if c as int == 0x130 then "i"
    else ""
  }

  function Norm(text: string): string { NormTo(text, |text|) }

  /** The first `n` characters, folded. */
  function NormTo(text: string, n: nat): string
    requires n <= |text|
  {
    if n == 0 then "" else NormTo(text, n - 1) + Fold(text[n - 1])
  }

  predicate IsAbsoluteKey(k: string) { k == "totaltokenusage" || k == "totalusage" || k == "cumulativetokenusage" }

  predicate IsDeltaKey(k: string)
  {
    k == "lasttokenusage" || k == "lastusage" || k == "deltatokenusage" || k == "tokenusagedelta"
  }

  predicate IsEventName(k: string) { k == "threadtokenusageupdated" || k == "tokenusageupdated" }

  predicate IsTypeKey(k: string)
  {
    k == "method" || k == "type" || k == "event" || k == "eventtype" || k == "name"
  }

  predicate IsEnvelopeKey(k: string)
  {
    k == "params" || k == "payload" || k == "data" || k == "result" || k == "info" || k == "msg" || k == "update"
  }

  /** Folded field names, in the order in which they are tried. */
  datatype Names = Names(container: seq<string>, input: seq<string>, output: seq<string>, total: seq<string>)

  const NAMES := Names(
    ["totaltokenusage", "usage", "tokenusage", "tokens", "totals"],
    ["inputtokens", "prompttokens", "inputtokencount", "tokensin", "input", "prompt"],
    ["outputtokens", "completiontokens", "outputtokencount", "tokensout", "output", "completion"],
    ["totaltokens", "totaltokencount", "tokenstotal", "total"])

  const MAX_WALK_DEPTH := 8
  const MAX_WALK_NODES := 512

  // ---- The walk ----

  function Children(fields: Fields, depth: nat): seq<(Fields, nat)>
    decreases |fields|
  {
    if fields == [] then []
    else
      var later := Children(fields[1..], depth);
      if IsDeltaKey(Norm(fields[0].key)) || !fields[0].value.Object? then later
      else [(fields[0].value.fields, depth)] + later
  }

  function Below(node: Fields, depth: nat): seq<(Fields, nat)>
  {
    if depth >= MAX_WALK_DEPTH then [] else Children(node, depth + 1)
  }

  /** The objects met, outermost first, never through a delta key. */
  function Walk(queue: seq<(Fields, nat)>, seen: nat): seq<Fields>
    decreases MAX_WALK_NODES - seen
  {
    if queue == [] || seen >= MAX_WALK_NODES then []
    else
      var (node, depth) := queue[0];
      [node] + Walk(queue[1..] + Below(node, depth), seen + 1)
  }

  // ---- Selection ----

  function FirstAbsoluteIn(fields: Fields): Option<Fields>
    decreases |fields|
  {
    if fields == [] then None
    else if IsAbsoluteKey(Norm(fields[0].key)) && fields[0].value.Object? then Some(fields[0].value.fields)
    else FirstAbsoluteIn(fields[1..])
  }

  function FirstAbsolute(nodes: seq<Fields>): Option<Fields>
    decreases |nodes|
  {
    if nodes == [] then None
    else if FirstAbsoluteIn(nodes[0]).Some? then FirstAbsoluteIn(nodes[0])
    else FirstAbsolute(nodes[1..])
  }

  predicate IsUsageEvent(node: Fields)
    decreases |node|
  {
    && node != []
    && (|| (IsTypeKey(Norm(node[0].key)) && node[0].value.Text? && IsEventName(Norm(node[0].value.text)))
        || IsUsageEvent(node[1..]))
  }

  /** The value under a folded key; of several keys folding alike the last one wins. */
  function Lookup(fields: Fields, name: string): Option<Json>
    decreases |fields|
  {
    if fields == [] then None
    else if Lookup(fields[1..], name).Some? then Lookup(fields[1..], name)
    else if Norm(fields[0].key) == name then Some(fields[0].value)
    else None
  }

  predicate HasAny(fields: Fields, names: seq<string>)
    decreases |names|
  {
    names != [] && (Lookup(fields, names[0]).Some? || HasAny(fields, names[1..]))
  }

  predicate HasCountFields(names: Names, fields: Fields)
  {
    HasAny(fields, names.input) || HasAny(fields, names.output) || HasAny(fields, names.total)
  }

  function Envelopes(fields: Fields): seq<Fields>
    decreases |fields|
  {
    if fields == [] then []
    else
      var later := Envelopes(fields[1..]);
      if IsEnvelopeKey(Norm(fields[0].key)) && fields[0].value.Object? then [fields[0].value.fields] + later else later
  }

  function FirstObject(fields: Fields, names: seq<string>): Option<Fields>
    decreases |names|
  {
    if names == [] then None
    else
      var found := Lookup(fields, names[0]);
      if found.Some? && found.value.Object? then Some(found.value.fields) else FirstObject(fields, names[1..])
  }

  function FirstContainer(names: Names, candidates: seq<Fields>): Option<Fields>
    decreases |candidates|
  {
    if candidates == [] then None
    else
      var inside := FirstObject(candidates[0], names.container);
      if inside.Some? then inside
      else if HasCountFields(names, candidates[0]) then Some(candidates[0])
      else FirstContainer(names, candidates[1..])
  }

  /** The counts object of a node that names itself a token-usage event. */
  function CountsOfEvent(names: Names, node: Fields): Option<Fields>
  {
    if IsUsageEvent(node) then FirstContainer(names, [node] + Envelopes(node)) else None
  }

  function FirstEvent(names: Names, nodes: seq<Fields>): Option<Fields>
    decreases |nodes|
  {
    if nodes == [] then None
    else
      var container := CountsOfEvent(names, nodes[0]);
      if container.Some? then container else FirstEvent(names, nodes[1..])
  }

  function SelectAbsoluteUsage(names: Names, payload: Json): Option<Fields>
  {
    if !payload.Object? then None
    else
      var nodes := Walk([(payload.fields, 0)], 0);
      if FirstAbsolute(nodes).Some? then FirstAbsolute(nodes) else FirstEvent(names, nodes)
  }

  // ---- Reading ----

  function CoerceCount(value: Json): Option<nat>
  {
    if value.Number? && value.n >= 0 then Some(value.n) else None
  }

  function FirstCount(fields: Fields, names: seq<string>): Option<nat>
    decreases |names|
  {
    if names == [] then None
    else
      var found := Lookup(fields, names[0]);
      if found.Some? && CoerceCount(found.value).Some? then CoerceCount(found.value) else FirstCount(fields, names[1..])
  }

  function OrElse(count: Option<nat>, default: nat): nat { if count.Some? then count.value else default }

  function ReadTokenCounts(names: Names, fields: Fields): Option<Tokens.Counts>
  {
    var input, output, total :=
      FirstCount(fields, names.input), FirstCount(fields, names.output), FirstCount(fields, names.total);
    if input.None? && output.None? && total.None? then None
    else
      Some(Tokens.Counts(OrElse(input, 0), OrElse(output, 0), OrElse(total, OrElse(input, 0) + OrElse(output, 0))))
  }

  function ExtractTokenTotals(payload: Json): Option<Tokens.Counts> { Extract(NAMES, payload) }

  function Extract(names: Names, payload: Json): Option<Tokens.Counts>
  {
    var selected := SelectAbsoluteUsage(names, payload);
    if selected.None? then None else ReadTokenCounts(names, selected.value)
  }

  /** The payload first; the event's own usage map only afterwards, under the same rules. */
  function EventTotals(payload: Json, usage: Option<Json>): Option<Tokens.Counts>
  {
    var totals := ExtractTokenTotals(payload);
    if totals.None? && usage.Some? then ExtractTokenTotals(usage.value) else totals
  }

  method IterNodes(root: Fields) returns (nodes: seq<Fields>)
    ensures nodes == Walk([(root, 0)], 0)
  {
    nodes := [];
    var queue: seq<(Fields, nat)> := [(root, 0)];
    var seen := 0;
    while queue != [] && seen < MAX_WALK_NODES
      invariant Walk([(root, 0)], 0) == nodes + Walk(queue, seen)
      decreases MAX_WALK_NODES - seen
    {
      ghost var later := Walk(queue[1..] + Below(queue[0].0, queue[0].1), seen + 1);
      assert nodes + ([queue[0].0] + later) == (nodes + [queue[0].0]) + later;
      var (node, depth) := queue[0];
      seen := seen + 1;
      nodes := nodes + [node];
      queue := Enqueue(queue[1..], node, depth);
    }
  }

  lemma ChildrenUnfold(before: seq<(Fields, nat)>, fields: Fields, depth: nat)
    requires fields != []
    ensures before + Children(fields, depth)
         == (if IsDeltaKey(Norm(fields[0].key)) || !fields[0].value.Object? then before
             else before + [(fields[0].value.fields, depth)]) + Children(fields[1..], depth)
  {
  }

  method Enqueue(queue: seq<(Fields, nat)>, node: Fields, depth: nat) returns (longer: seq<(Fields, nat)>)
    ensures longer == queue + Below(node, depth)
  {
    longer := queue;
    if depth < MAX_WALK_DEPTH {
      for i := 0 to |node|
        invariant queue + Children(node, depth + 1) == longer + Children(node[i..], depth + 1)
      {
        assert node[i..][0] == node[i] && node[i..][1..] == node[i + 1..];
        ChildrenUnfold(longer, node[i..], depth + 1);
        if !IsDeltaKey(Norm(node[i].key)) && node[i].value.Object? {
          longer := longer + [(node[i].value.fields, depth + 1)];
        }
      }
    }
  }

  // ---- Deltas never count ----

  /** The same payload with everything under a delta key taken out, at every level. */
  function Prune(value: Json): Json
    decreases value
  {
    if value.Object? then Object(PruneFields(value.fields)) else value
  }

  function PruneFields(fields: Fields): Fields
    decreases fields
  {
    if fields == [] then []
    else if IsDeltaKey(Norm(fields[0].key)) then PruneFields(fields[1..])
    else [Field(fields[0].key, Prune(fields[0].value))] + PruneFields(fields[1..])
  }

  function PruneEach(nodes: seq<Fields>): seq<Fields>
  {
    seq(|nodes|, i requires 0 <= i < |nodes| => PruneFields(nodes[i]))
  }

  function PruneQueue(queue: seq<(Fields, nat)>): seq<(Fields, nat)>
  {
    seq(|queue|, i requires 0 <= i < |queue| => (PruneFields(queue[i].0), queue[i].1))
  }

  function PruneFound(found: Option<Fields>): Option<Fields>
  {
    if found.None? then None else Some(PruneFields(found.value))
  }

  lemma {:induction false} ChildrenPruned(fields: Fields, depth: nat)
    ensures Children(PruneFields(fields), depth) == PruneQueue(Children(fields, depth))
    decreases |fields|
  {
    if fields != [] {
      ChildrenPruned(fields[1..], depth);
      var head := Field(fields[0].key, Prune(fields[0].value));
      if !IsDeltaKey(Norm(fields[0].key)) {
        assert PruneFields(fields)[0] == head && PruneFields(fields)[1..] == PruneFields(fields[1..]);
      }
    }
  }

  lemma {:induction false} WalkPruned(queue: seq<(Fields, nat)>, seen: nat)
    ensures Walk(PruneQueue(queue), seen) == PruneEach(Walk(queue, seen))
    decreases MAX_WALK_NODES - seen
  {
    if queue != [] && seen < MAX_WALK_NODES {
      var (node, depth) := queue[0];
      var next := queue[1..] + Below(node, depth);
      NextPruned(queue);
      WalkPruned(next, seen + 1);
      PruneEachCons(node, Walk(next, seen + 1));
    }
  }

  lemma NextPruned(queue: seq<(Fields, nat)>)
    requires queue != []
    ensures var pruned := PruneQueue(queue);
            && pruned[0] == (PruneFields(queue[0].0), queue[0].1)
            && pruned[1..] + Below(pruned[0].0, pruned[0].1) == PruneQueue(queue[1..] + Below(queue[0].0, queue[0].1))
  {
    ChildrenPruned(queue[0].0, queue[0].1 + 1);
    var below := Below(queue[0].0, queue[0].1);
    assert PruneQueue(queue)[1..] == PruneQueue(queue[1..]);
    PruneQueueAppend(queue[1..], below);
  }

  lemma PruneQueueAppend(a: seq<(Fields, nat)>, b: seq<(Fields, nat)>)
    ensures PruneQueue(a) + PruneQueue(b) == PruneQueue(a + b)
  {
  }

  lemma PruneEachCons(node: Fields, nodes: seq<Fields>)
    ensures PruneEach([node] + nodes) == [PruneFields(node)] + PruneEach(nodes)
  {
  }

  lemma {:induction false} FirstAbsoluteInPruned(fields: Fields)
    ensures FirstAbsoluteIn(PruneFields(fields)) == PruneFound(FirstAbsoluteIn(fields))
    decreases |fields|
  {
    if fields != [] {
      FirstAbsoluteInPruned(fields[1..]);
      if !IsDeltaKey(Norm(fields[0].key)) {
        assert PruneFields(fields)[1..] == PruneFields(fields[1..]);
      } else {
        AbsoluteIsNotDelta(Norm(fields[0].key));
      }
    }
  }

  lemma AbsoluteIsNotDelta(k: string)
    requires IsDeltaKey(k)
    ensures !IsAbsoluteKey(k) && !IsTypeKey(k) && !IsEnvelopeKey(k)
  {
  }

  lemma {:induction false} FirstAbsolutePruned(nodes: seq<Fields>)
    ensures FirstAbsolute(PruneEach(nodes)) == PruneFound(FirstAbsolute(nodes))
    decreases |nodes|
  {
    if nodes != [] {
      FirstAbsoluteInPruned(nodes[0]);
      FirstAbsolutePruned(nodes[1..]);
      assert PruneEach(nodes)[1..] == PruneEach(nodes[1..]);
    }
  }

  lemma {:induction false} LookupPruned(fields: Fields, name: string)
    requires !IsDeltaKey(name)
    ensures Lookup(PruneFields(fields), name)
         == if Lookup(fields, name).Some? then Some(Prune(Lookup(fields, name).value)) else None
    decreases |fields|
  {
    if fields != [] {
      LookupPruned(fields[1..], name);
      if !IsDeltaKey(Norm(fields[0].key)) {
        assert PruneFields(fields)[1..] == PruneFields(fields[1..]);
      }
    }
  }

  ghost predicate NoDeltas(names: seq<string>) { forall i :: 0 <= i < |names| ==> !IsDeltaKey(names[i]) }

  ghost predicate NoDeltaNames(names: Names)
  {
    NoDeltas(names.container) && NoDeltas(names.input) && NoDeltas(names.output) && NoDeltas(names.total)
  }

  lemma FieldNamesAreNoDeltas()
    ensures NoDeltaNames(NAMES)
  {
  }

  lemma {:induction false} HasAnyPruned(fields: Fields, names: seq<string>)
    requires NoDeltas(names)
    ensures HasAny(PruneFields(fields), names) == HasAny(fields, names)
    decreases |names|
  {
    if names != [] {
      LookupPruned(fields, names[0]);
      HasAnyPruned(fields, names[1..]);
    }
  }

  lemma {:induction false} FirstObjectPruned(fields: Fields, names: seq<string>)
    requires NoDeltas(names)
    ensures FirstObject(PruneFields(fields), names) == PruneFound(FirstObject(fields, names))
    decreases |names|
  {
    if names != [] {
      LookupPruned(fields, names[0]);
      FirstObjectPruned(fields, names[1..]);
    }
  }

  lemma {:induction false} FirstCountPruned(fields: Fields, names: seq<string>)
    requires NoDeltas(names)
    ensures FirstCount(PruneFields(fields), names) == FirstCount(fields, names)
    decreases |names|
  {
    if names != [] {
      LookupPruned(fields, names[0]);
      FirstCountPruned(fields, names[1..]);
    }
  }

  lemma {:induction false} EnvelopesPruned(fields: Fields)
    ensures Envelopes(PruneFields(fields)) == PruneEach(Envelopes(fields))
    decreases |fields|
  {
    if fields != [] {
      EnvelopesPruned(fields[1..]);
      if !IsDeltaKey(Norm(fields[0].key)) {
        assert PruneFields(fields)[1..] == PruneFields(fields[1..]);
      } else {
        AbsoluteIsNotDelta(Norm(fields[0].key));
      }
    }
  }

  lemma {:induction false} IsUsageEventPruned(fields: Fields)
    ensures IsUsageEvent(PruneFields(fields)) == IsUsageEvent(fields)
    decreases |fields|
  {
    if fields != [] {
      IsUsageEventPruned(fields[1..]);
      if !IsDeltaKey(Norm(fields[0].key)) {
        assert PruneFields(fields)[1..] == PruneFields(fields[1..]);
      } else {
        AbsoluteIsNotDelta(Norm(fields[0].key));
      }
    }
  }

  lemma CandidatePruned(names: Names, fields: Fields)
    requires NoDeltaNames(names)
    ensures FirstObject(PruneFields(fields), names.container) == PruneFound(FirstObject(fields, names.container))
    ensures HasCountFields(names, PruneFields(fields)) == HasCountFields(names, fields)
  {
    FirstObjectPruned(fields, names.container);
    HasAnyPruned(fields, names.input);
    HasAnyPruned(fields, names.output);
    HasAnyPruned(fields, names.total);
  }

  lemma {:induction false} FirstContainerPruned(names: Names, candidates: seq<Fields>)
    requires NoDeltaNames(names)
    ensures FirstContainer(names, PruneEach(candidates)) == PruneFound(FirstContainer(names, candidates))
    decreases |candidates|
  {
    if candidates != [] {
      CandidatePruned(names, candidates[0]);
      FirstContainerPruned(names, candidates[1..]);
      assert PruneEach(candidates)[1..] == PruneEach(candidates[1..]);
    }
  }

  lemma CountsOfEventPruned(names: Names, node: Fields)
    requires NoDeltaNames(names)
    ensures CountsOfEvent(names, PruneFields(node)) == PruneFound(CountsOfEvent(names, node))
  {
    IsUsageEventPruned(node);
    EnvelopesPruned(node);
    FirstContainerPruned(names, [node] + Envelopes(node));
    PruneEachCons(node, Envelopes(node));
  }

  lemma {:induction false} FirstEventPruned(names: Names, nodes: seq<Fields>)
    requires NoDeltaNames(names)
    ensures FirstEvent(names, PruneEach(nodes)) == PruneFound(FirstEvent(names, nodes))
    decreases |nodes|
  {
    if nodes != [] {
      CountsOfEventPruned(names, nodes[0]);
      FirstEventPruned(names, nodes[1..]);
      assert PruneEach(nodes)[1..] == PruneEach(nodes[1..]);
    }
  }

  lemma SelectionPruned(names: Names, payload: Json)
    requires NoDeltaNames(names)
    ensures SelectAbsoluteUsage(names, Prune(payload)) == PruneFound(SelectAbsoluteUsage(names, payload))
  {
    if payload.Object? {
      var queue := [(payload.fields, 0)];
      WalkPruned(queue, 0);
      assert PruneQueue(queue) == [(PruneFields(payload.fields), 0)];
      FirstAbsolutePruned(Walk(queue, 0));
      FirstEventPruned(names, Walk(queue, 0));
    }
  }

  lemma ReadingPruned(names: Names, fields: Fields)
    requires NoDeltaNames(names)
    ensures ReadTokenCounts(names, PruneFields(fields)) == ReadTokenCounts(names, fields)
  {
    FirstCountPruned(fields, names.input);
    FirstCountPruned(fields, names.output);
    FirstCountPruned(fields, names.total);
  }

  lemma ExtractionPruned(names: Names, payload: Json)
    requires NoDeltaNames(names)
    ensures Extract(names, Prune(payload)) == Extract(names, payload)
  {
    SelectionPruned(names, payload);
    var selected := SelectAbsoluteUsage(names, payload);
    if selected.Some? {
      ReadingPruned(names, selected.value);
    }
  }

  /**
    Per-turn counts never reach the totals: what is read from a payload is what would be read with everything under a
    delta key removed, however deep and however the rest of the payload is spelled.
   */
  lemma DeltasNeverCount(payload: Json, usage: Option<Json>)
    ensures ExtractTokenTotals(Prune(payload)) == ExtractTokenTotals(payload)
    ensures EventTotals(Prune(payload), if usage.Some? then Some(Prune(usage.value)) else None)
         == EventTotals(payload, usage)
  {
    FieldNamesAreNoDeltas();
    ExtractionPruned(NAMES, payload);
    if usage.Some? {
      ExtractionPruned(NAMES, usage.value);
    }
  }

  /** Two payloads that differ only under delta keys credit the same. */
  lemma OnlyTheRestMatters(a: Json, b: Json)
    requires Prune(a) == Prune(b)
    ensures ExtractTokenTotals(a) == ExtractTokenTotals(b)
  {
    DeltasNeverCount(a, None);
    DeltasNeverCount(b, None);
  }
}
