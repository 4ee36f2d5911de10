/** Which counts are read from a payload, rule by rule (src/symphony/agent/events.py). */
module UsageRules {
  import opened Numbers
  import opened Options
  import opened Usage

  // ---- The walk reaches everything but deltas ----

  predicate LeadsTo(node: Fields, i: nat, child: Fields)
  {
    i < |node| && !IsDeltaKey(Norm(node[i].key)) && node[i].value == Object(child)
  }

  ghost predicate IsChild(node: Fields, child: Fields) { exists i: nat :: LeadsTo(node, i, child) }

  /** `d` steps lead from the root to the node, none through a delta key. */
  ghost predicate Reached(root: Fields, node: Fields, d: nat)
    decreases d
  {
    if d == 0 then node == root else exists parent :: Reached(root, parent, d - 1) && IsChild(parent, node)
  }

  /** The walk, with the depth of each node. */
  function Visits(queue: seq<(Fields, nat)>, seen: nat): seq<(Fields, nat)>
    decreases MAX_WALK_NODES - seen
  {
    if queue == [] || seen >= MAX_WALK_NODES then []
    else [queue[0]] + Visits(queue[1..] + Below(queue[0].0, queue[0].1), seen + 1)
  }

  lemma {:induction false} WalkVisits(queue: seq<(Fields, nat)>, seen: nat)
    ensures |Walk(queue, seen)| == |Visits(queue, seen)|
    ensures forall i :: 0 <= i < |Walk(queue, seen)| ==> Walk(queue, seen)[i] == Visits(queue, seen)[i].0
    decreases MAX_WALK_NODES - seen
  {
    if queue != [] && seen < MAX_WALK_NODES {
      WalkVisits(queue[1..] + Below(queue[0].0, queue[0].1), seen + 1);
    }
  }

  lemma {:induction false} ChildrenAreChildren(fields: Fields, depth: nat)
    ensures forall c :: c in Children(fields, depth) <==> c.1 == depth && IsChild(fields, c.0)
    decreases |fields|
  {
    if fields != [] {
      ChildrenAreChildren(fields[1..], depth);
      forall c ensures c in Children(fields, depth) <==> c.1 == depth && IsChild(fields, c.0) {
        ChildOfRest(fields, c.0);
      }
    }
  }

  lemma ChildOfRest(fields: Fields, child: Fields)
    requires fields != []
    ensures IsChild(fields, child) <==> LeadsTo(fields, 0, child) || IsChild(fields[1..], child)
  {
    if IsChild(fields, child) {
      var i: nat :| LeadsTo(fields, i, child);
      if i > 0 {
        assert LeadsTo(fields[1..], i - 1, child);
      }
    }
    if IsChild(fields[1..], child) {
      var i: nat :| LeadsTo(fields[1..], i, child);
      assert LeadsTo(fields, i + 1, child);
    }
  }

  /** Breadth first: reached as deep as it says, and never two depths at once beyond neighbours. */
  ghost predicate QueueOk(root: Fields, queue: seq<(Fields, nat)>)
  {
    && (forall i :: 0 <= i < |queue| ==> Reached(root, queue[i].0, queue[i].1) && queue[i].1 <= MAX_WALK_DEPTH)
    && (forall i, j :: 0 <= i < j < |queue| ==> queue[i].1 <= queue[j].1 <= queue[0].1 + 1)
  }

  lemma BelowIsReached(root: Fields, node: Fields, depth: nat)
    requires Reached(root, node, depth)
    ensures forall c :: c in Below(node, depth) ==> Reached(root, c.0, c.1) && c.1 == depth + 1 <= MAX_WALK_DEPTH
  {
    ChildrenAreChildren(node, depth + 1);
    forall c | c in Below(node, depth) ensures Reached(root, c.0, c.1) {
      assert Reached(root, node, c.1 - 1) && IsChild(node, c.0);
    }
  }

  lemma QueueStaysOk(root: Fields, queue: seq<(Fields, nat)>)
    requires queue != [] && QueueOk(root, queue)
    ensures QueueOk(root, queue[1..] + Below(queue[0].0, queue[0].1))
    ensures forall c :: c in queue[1..] + Below(queue[0].0, queue[0].1) ==> c.1 >= queue[0].1
  {
    BelowIsReached(root, queue[0].0, queue[0].1);
    Joined(root, queue[1..], Below(queue[0].0, queue[0].1), queue[0].1);
  }

  lemma Joined(root: Fields, rest: seq<(Fields, nat)>, below: seq<(Fields, nat)>, depth: nat)
    requires forall c :: c in rest ==> Reached(root, c.0, c.1) && depth <= c.1 <= Min(depth + 1, MAX_WALK_DEPTH)
    requires forall i, j :: 0 <= i < j < |rest| ==> rest[i].1 <= rest[j].1
    requires forall c :: c in below ==> Reached(root, c.0, c.1) && c.1 == depth + 1 <= MAX_WALK_DEPTH
    ensures QueueOk(root, rest + below) && forall c :: c in rest + below ==> c.1 >= depth
  {
    var all := rest + below;
    assert forall i :: 0 <= i < |all| ==> if i < |rest| then all[i] in rest else all[i] in below;
  }

  /** Nodes reached as deep as it says, from `least` on, outer ones first. */
  ghost predicate OuterFirst(root: Fields, visits: seq<(Fields, nat)>, least: nat)
  {
    && (forall i :: 0 <= i < |visits| ==>
          Reached(root, visits[i].0, visits[i].1) && least <= visits[i].1 <= MAX_WALK_DEPTH)
    && (forall i, j :: 0 <= i < j < |visits| ==> visits[i].1 <= visits[j].1)
  }

  lemma OneMoreVisit(root: Fields, head: (Fields, nat), later: seq<(Fields, nat)>, least: nat)
    requires OuterFirst(root, later, least) && head.1 <= least
    requires Reached(root, head.0, head.1) && head.1 <= MAX_WALK_DEPTH
    ensures OuterFirst(root, [head] + later, head.1)
  {
  }

  lemma VisitsUnfold(queue: seq<(Fields, nat)>, seen: nat, next: seq<(Fields, nat)>)
    requires queue != [] && seen < MAX_WALK_NODES && next == queue[1..] + Below(queue[0].0, queue[0].1)
    ensures Visits(queue, seen) == [queue[0]] + Visits(next, seen + 1)
  {
  }

  lemma {:induction false} VisitsAreReached(root: Fields, queue: seq<(Fields, nat)>, seen: nat)
    requires QueueOk(root, queue)
    ensures OuterFirst(root, Visits(queue, seen), if queue == [] then 0 else queue[0].1)
    decreases MAX_WALK_NODES - seen
  {
    if queue != [] && seen < MAX_WALK_NODES {
      QueueStaysOk(root, queue);
      var next := queue[1..] + Below(queue[0].0, queue[0].1);
      VisitsAreReached(root, next, seen + 1);
      VisitsUnfold(queue, seen, next);
      if next == [] {
        OneMoreVisit(root, queue[0], [], queue[0].1);
      } else {
        assert next[0] in next;
        OneMoreVisit(root, queue[0], Visits(next, seen + 1), next[0].1);
      }
    }
  }

  ghost predicate Closed(visits: seq<(Fields, nat)>)
  {
    forall v, child :: v in visits && v.1 < MAX_WALK_DEPTH && IsChild(v.0, child) ==> (child, v.1 + 1) in visits
  }

  /** Unless the node limit ends it, a walk visits its whole queue, and the children of all it visits. */
  lemma {:induction false} VisitsAreClosed(queue: seq<(Fields, nat)>, seen: nat)
    requires seen + |Visits(queue, seen)| < MAX_WALK_NODES
    ensures (forall q :: q in queue ==> q in Visits(queue, seen)) && Closed(Visits(queue, seen))
    decreases MAX_WALK_NODES - seen
  {
    if queue != [] {
      var (node, depth) := queue[0];
      var next := queue[1..] + Below(node, depth);
      VisitsAreClosed(next, seen + 1);
      ChildrenAreChildren(node, depth + 1);
      assert queue == [queue[0]] + queue[1..];
    }
  }

  lemma {:induction false} ReachedIsVisited(root: Fields, node: Fields, d: nat, visits: seq<(Fields, nat)>)
    requires (root, 0) in visits && Closed(visits)
    requires d <= MAX_WALK_DEPTH && Reached(root, node, d)
    ensures (node, d) in visits
    decreases d
  {
    if d > 0 {
      var parent :| Reached(root, parent, d - 1) && IsChild(parent, node);
      ReachedIsVisited(root, parent, d - 1, visits);
      assert (parent, d - 1).1 + 1 == d;
    }
  }

  /** The walk meets only objects that at most 8 steps lead to without passing a delta key, outer ones first. */
  lemma WalkIsBreadthFirst(root: Fields)
    ensures var nodes := Walk([(root, 0)], 0);
            exists visits: seq<(Fields, nat)> :: OuterFirst(root, visits, 0) && |visits| == |nodes|
                             && forall i :: 0 <= i < |nodes| ==> nodes[i] == visits[i].0
  {
    WalkVisits([(root, 0)], 0);
    VisitsAreReached(root, [(root, 0)], 0);
    assert OuterFirst(root, Visits([(root, 0)], 0), 0);
  }

  /** It meets all of them, unless it ends at its limit of 512 nodes. */
  lemma WalkReachesAllButDeltas(root: Fields, node: Fields, d: nat)
    requires |Walk([(root, 0)], 0)| < MAX_WALK_NODES
    requires d <= MAX_WALK_DEPTH && Reached(root, node, d)
    ensures node in Walk([(root, 0)], 0)
  {
    var nodes, all := Walk([(root, 0)], 0), Visits([(root, 0)], 0);
    WalkVisits([(root, 0)], 0);
    VisitsAreClosed([(root, 0)], 0);
    assert all[0] == (root, 0);
    ReachedIsVisited(root, node, d, all);
    var i :| 0 <= i < |all| && all[i] == (node, d);
    assert nodes[i] == node;
  }

  // ---- Fields by folded name ----

  /** The last field whose key folds to the name. */
  ghost predicate IsLast(fields: Fields, name: string, i: nat)
  {
    i < |fields| && Norm(fields[i].key) == name && forall j :: i < j < |fields| ==> Norm(fields[j].key) != name
  }

  ghost predicate Has(fields: Fields, name: string) { exists i :: 0 <= i < |fields| && Norm(fields[i].key) == name }

  lemma {:induction false} LookupIsLast(fields: Fields, name: string)
    ensures Lookup(fields, name).Some? <==> Has(fields, name)
    ensures Lookup(fields, name).Some? ==>
              exists i: nat :: IsLast(fields, name, i) && Lookup(fields, name) == Some(fields[i].value)
    decreases |fields|
  {
    if fields != [] {
      LookupIsLast(fields[1..], name);
      if Lookup(fields[1..], name).Some? {
        var i: nat :| IsLast(fields[1..], name, i) && Lookup(fields[1..], name) == Some(fields[1..][i].value);
        assert fields[1..][i] == fields[i + 1];
        assert IsLast(fields, name, i + 1);
      } else if Norm(fields[0].key) == name {
        assert forall j :: 0 < j < |fields| ==> fields[j] == fields[1..][j - 1];
        assert IsLast(fields, name, 0);
      } else {
        assert forall j :: 0 < j < |fields| ==> fields[j] == fields[1..][j - 1];
      }
    }
  }

  // ---- Counts ----

  /** The name holds this count: a number that is not negative, in its last field. */
  ghost predicate Counts(fields: Fields, name: string, n: int)
  {
    n >= 0 && exists i: nat :: IsLast(fields, name, i) && fields[i].value == Number(n)
  }

  /** The count under the first name that holds one. */
  ghost predicate FirstOf(fields: Fields, names: seq<string>, count: Option<nat>)
  {
    if count.None? then forall k, n :: 0 <= k < |names| ==> !Counts(fields, names[k], n)
    else exists k :: 0 <= k < |names| && Counts(fields, names[k], count.value)
                     && forall j, n :: 0 <= j < k ==> !Counts(fields, names[j], n)
  }

  lemma CountsMeans(fields: Fields, name: string, n: int)
    ensures Counts(fields, name, n)
       <==> Lookup(fields, name).Some? && CoerceCount(Lookup(fields, name).value) == Some(n)
  {
    LookupIsLast(fields, name);
  }

  lemma {:induction false} FirstCountIsFirst(fields: Fields, names: seq<string>)
    ensures FirstOf(fields, names, FirstCount(fields, names))
    decreases |names|
  {
    if names != [] {
      forall n ensures Counts(fields, names[0], n)
                       <==> Lookup(fields, names[0]).Some? && CoerceCount(Lookup(fields, names[0]).value) == Some(n) {
        CountsMeans(fields, names[0], n);
      }
      FirstCountIsFirst(fields, names[1..]);
      var found := Lookup(fields, names[0]);
      if found.Some? && CoerceCount(found.value).Some? {
        assert Counts(fields, names[0], CoerceCount(found.value).value);
      } else {
        FirstOfRest(fields, names, FirstCount(fields, names[1..]));
      }
    }
  }

  lemma FirstOfRest(fields: Fields, names: seq<string>, count: Option<nat>)
    requires names != [] && FirstOf(fields, names[1..], count)
    requires forall n :: !Counts(fields, names[0], n)
    ensures FirstOf(fields, names, count)
  {
  }

  /** Each count is the first one given; a total not given is the sum; nothing is read only if nothing is given. */
  lemma ReadingIsLenient(names: Names, fields: Fields, input: Option<nat>, output: Option<nat>, total: Option<nat>)
    requires FirstOf(fields, names.input, input) && FirstOf(fields, names.output, output)
    requires FirstOf(fields, names.total, total)
    ensures var read := ReadTokenCounts(names, fields);
            && (read.None? <==> input.None? && output.None? && total.None?)
            && (read.Some? ==>
                  && read.value.input == (if input.Some? then input.value else 0)
                  && read.value.output == (if output.Some? then output.value else 0)
                  && read.value.total == if total.Some? then total.value else read.value.input + read.value.output)
  {
    FirstCountIsFirst(fields, names.input);
    FirstCountIsFirst(fields, names.output);
    FirstCountIsFirst(fields, names.total);
    FirstIsUnique(fields, names.input, input, FirstCount(fields, names.input));
    FirstIsUnique(fields, names.output, output, FirstCount(fields, names.output));
    FirstIsUnique(fields, names.total, total, FirstCount(fields, names.total));
  }

  lemma FirstIsUnique(fields: Fields, names: seq<string>, a: Option<nat>, b: Option<nat>)
    requires FirstOf(fields, names, a) && FirstOf(fields, names, b)
    ensures a == b
  {
    if a.Some? && b.Some? {
      var i :| 0 <= i < |names| && Counts(fields, names[i], a.value)
               && forall j, n :: 0 <= j < i ==> !Counts(fields, names[j], n);
      var k :| 0 <= k < |names| && Counts(fields, names[k], b.value)
               && forall j, n :: 0 <= j < k ==> !Counts(fields, names[j], n);
      assert i == k;
      CountsMeans(fields, names[i], a.value);
      CountsMeans(fields, names[i], b.value);
    }
  }

  // ---- The first rule: an absolute wrapper ----

  ghost predicate WrapperAt(nodes: seq<Fields>, i: nat, j: nat)
  {
    i < |nodes| && j < |nodes[i]| && IsAbsoluteKey(Norm(nodes[i][j].key)) && nodes[i][j].value.Object?
  }

  /** The first wrapper, node by node and field by field. */
  ghost predicate FirstWrapper(nodes: seq<Fields>, i: nat, j: nat)
  {
    && WrapperAt(nodes, i, j)
    && (forall j': nat :: j' < j ==> !WrapperAt(nodes, i, j'))
    && forall i': nat, j': nat :: i' < i ==> !WrapperAt(nodes, i', j')
  }

  lemma {:induction false} FirstFieldIsFirst(node: Fields, j: nat)
    requires FirstWrapper([node], 0, j)
    ensures FirstAbsoluteIn(node) == Some(node[j].value.fields)
    decreases |node|
  {
    assert WrapperAt([node], 0, j);
    if j > 0 {
      assert !WrapperAt([node], 0, 0);
      assert node[1..][j - 1] == node[j];
      forall j': nat | j' < j - 1 ensures !WrapperAt([node[1..]], 0, j') {
        assert !WrapperAt([node], 0, j' + 1);
      }
      FirstFieldIsFirst(node[1..], j - 1);
    }
  }

  lemma {:induction false} NoFieldIsNone(node: Fields)
    requires forall j: nat :: !WrapperAt([node], 0, j)
    ensures FirstAbsoluteIn(node).None?
    decreases |node|
  {
    if node != [] {
      assert !WrapperAt([node], 0, 0);
      forall j: nat ensures !WrapperAt([node[1..]], 0, j) {
        assert !WrapperAt([node], 0, j + 1);
      }
      NoFieldIsNone(node[1..]);
    }
  }

  lemma {:induction false} FirstWrapperIsFound(nodes: seq<Fields>, i: nat, j: nat)
    requires FirstWrapper(nodes, i, j)
    ensures FirstAbsolute(nodes) == Some(nodes[i][j].value.fields)
    decreases |nodes|
  {
    if i == 0 {
      forall j': nat ensures WrapperAt([nodes[0]], 0, j') == WrapperAt(nodes, 0, j') {
      }
      FirstFieldIsFirst(nodes[0], j);
    } else {
      forall j': nat ensures !WrapperAt([nodes[0]], 0, j') {
        assert !WrapperAt(nodes, 0, j');
      }
      NoFieldIsNone(nodes[0]);
      forall i': nat, j': nat ensures WrapperAt(nodes[1..], i', j') == WrapperAt(nodes, i' + 1, j') {
      }
      FirstWrapperIsFound(nodes[1..], i - 1, j);
    }
  }

  lemma {:induction false} NoWrapperIsNone(nodes: seq<Fields>)
    requires forall i: nat, j: nat :: !WrapperAt(nodes, i, j)
    ensures FirstAbsolute(nodes).None?
    decreases |nodes|
  {
    if nodes != [] {
      forall j: nat ensures !WrapperAt([nodes[0]], 0, j) {
        assert !WrapperAt(nodes, 0, j);
      }
      NoFieldIsNone(nodes[0]);
      forall i: nat, j: nat ensures !WrapperAt(nodes[1..], i, j) {
        assert !WrapperAt(nodes, i + 1, j);
      }
      NoWrapperIsNone(nodes[1..]);
    }
  }

  // ---- The second rule: a token-usage event ----

  ghost predicate NamesItself(node: Fields)
  {
    exists i :: 0 <= i < |node| && IsTypeKey(Norm(node[i].key)) && node[i].value.Text?
                && IsEventName(Norm(node[i].value.text))
  }

  lemma {:induction false} EventNamesItself(node: Fields)
    ensures IsUsageEvent(node) <==> NamesItself(node)
    decreases |node|
  {
    if node != [] {
      EventNamesItself(node[1..]);
      assert forall i :: 0 < i < |node| ==> node[i] == node[1..][i - 1];
    }
  }

  /** The object under a name, in its last field. */
  ghost predicate Holds(fields: Fields, name: string, inside: Fields)
  {
    exists i: nat :: IsLast(fields, name, i) && fields[i].value == Object(inside)
  }

  lemma HoldsMeans(fields: Fields, name: string, inside: Fields)
    ensures Holds(fields, name, inside) <==> Lookup(fields, name) == Some(Object(inside))
  {
    LookupIsLast(fields, name);
  }

  ghost predicate HasOneOf(fields: Fields, names: seq<string>)
  {
    exists k :: 0 <= k < |names| && Has(fields, names[k])
  }

  lemma {:induction false} HasAnyMeans(fields: Fields, names: seq<string>)
    ensures HasAny(fields, names) <==> HasOneOf(fields, names)
    decreases |names|
  {
    if names != [] {
      LookupIsLast(fields, names[0]);
      HasAnyMeans(fields, names[1..]);
      assert forall k :: 0 < k < |names| ==> names[k] == names[1..][k - 1];
    }
  }

  /** The object under the first name that holds one. */
  ghost predicate FirstHeld(fields: Fields, names: seq<string>, found: Option<Fields>)
  {
    if found.None? then forall k, inside :: 0 <= k < |names| ==> !Holds(fields, names[k], inside)
    else exists k :: 0 <= k < |names| && Holds(fields, names[k], found.value)
                     && forall j, other :: 0 <= j < k ==> !Holds(fields, names[j], other)
  }

  /** The counts a candidate offers: under the first container name that holds an object, else its own. */
  ghost predicate Offers(names: Names, candidate: Fields, counts: Option<Fields>)
  {
    exists found ::
      && FirstHeld(candidate, names.container, found)
      && counts == if found.Some? then found
                   else if HasOneOf(candidate, names.input) || HasOneOf(candidate, names.output)
                           || HasOneOf(candidate, names.total) then Some(candidate)
                   else None
  }

  lemma {:induction false} FirstObjectIsFirst(fields: Fields, names: seq<string>)
    ensures FirstHeld(fields, names, FirstObject(fields, names))
    decreases |names|
  {
    if names != [] {
      forall inside ensures Holds(fields, names[0], inside) <==> Lookup(fields, names[0]) == Some(Object(inside)) {
        HoldsMeans(fields, names[0], inside);
      }
      FirstObjectIsFirst(fields, names[1..]);
      var found := Lookup(fields, names[0]);
      if found.Some? && found.value.Object? {
        assert Holds(fields, names[0], found.value.fields);
      } else {
        FirstHeldInRest(fields, names, FirstObject(fields, names[1..]));
      }
    }
  }

  lemma FirstHeldInRest(fields: Fields, names: seq<string>, found: Option<Fields>)
    requires names != [] && FirstHeld(fields, names[1..], found)
    requires forall inside :: !Holds(fields, names[0], inside)
    ensures FirstHeld(fields, names, found)
  {
  }

  lemma FirstHeldIsUnique(fields: Fields, names: seq<string>, a: Option<Fields>, b: Option<Fields>)
    requires FirstHeld(fields, names, a) && FirstHeld(fields, names, b)
    ensures a == b
  {
    if a.Some? && b.Some? {
      var i :| 0 <= i < |names| && Holds(fields, names[i], a.value)
               && forall j, other :: 0 <= j < i ==> !Holds(fields, names[j], other);
      var k :| 0 <= k < |names| && Holds(fields, names[k], b.value)
               && forall j, other :: 0 <= j < k ==> !Holds(fields, names[j], other);
      assert i == k;
      HoldsMeans(fields, names[i], a.value);
      HoldsMeans(fields, names[i], b.value);
    }
  }

  function OfferOf(names: Names, candidate: Fields): Option<Fields>
  {
    var inside := FirstObject(candidate, names.container);
    if inside.Some? then inside else if HasCountFields(names, candidate) then Some(candidate) else None
  }

  lemma OffersMeans(names: Names, candidate: Fields, counts: Option<Fields>)
    ensures Offers(names, candidate, counts) <==> counts == OfferOf(names, candidate)
  {
    var inside := FirstObject(candidate, names.container);
    FirstObjectIsFirst(candidate, names.container);
    HasAnyMeans(candidate, names.input);
    HasAnyMeans(candidate, names.output);
    HasAnyMeans(candidate, names.total);
    forall found | FirstHeld(candidate, names.container, found) ensures found == inside {
      FirstHeldIsUnique(candidate, names.container, found, inside);
    }
  }

  ghost predicate EnvelopeAt(node: Fields, i: nat, inside: Fields)
  {
    i < |node| && IsEnvelopeKey(Norm(node[i].key)) && node[i].value == Object(inside)
  }

  /** What the first envelope that offers counts offers. */
  ghost predicate EnvelopesOffer(names: Names, node: Fields, counts: Option<Fields>)
  {
    if counts.None? then forall i: nat, inside :: EnvelopeAt(node, i, inside) ==> Offers(names, inside, None)
    else exists i: nat, inside ::
      && EnvelopeAt(node, i, inside) && Offers(names, inside, counts)
      && forall j: nat, other :: j < i && EnvelopeAt(node, j, other) ==> Offers(names, other, None)
  }

  lemma EnvelopesOfferLater(names: Names, node: Fields, counts: Option<Fields>)
    requires node != [] && EnvelopesOffer(names, node[1..], counts)
    requires forall inside :: EnvelopeAt(node, 0, inside) ==> Offers(names, inside, None)
    ensures EnvelopesOffer(names, node, counts)
  {
    if counts.None? {
      forall i: nat, inside | EnvelopeAt(node, i, inside) ensures Offers(names, inside, None) {
        if i > 0 { assert EnvelopeAt(node[1..], i - 1, inside); }
      }
    } else {
      var i: nat, inside :| EnvelopeAt(node[1..], i, inside) && Offers(names, inside, counts)
        && forall j: nat, other :: j < i && EnvelopeAt(node[1..], j, other) ==> Offers(names, other, None);
      assert EnvelopeAt(node, i + 1, inside);
      forall j: nat, other | j < i + 1 && EnvelopeAt(node, j, other) ensures Offers(names, other, None) {
        if j > 0 { assert EnvelopeAt(node[1..], j - 1, other); }
      }
    }
  }

  lemma {:induction false} EnvelopesOfferFirst(names: Names, node: Fields)
    ensures EnvelopesOffer(names, node, FirstContainer(names, Envelopes(node)))
    decreases |node|
  {
    if node != [] {
      EnvelopesOfferFirst(names, node[1..]);
      var counts := FirstContainer(names, Envelopes(node));
      if IsEnvelopeKey(Norm(node[0].key)) && node[0].value.Object? {
        var inside := node[0].value.fields;
        assert EnvelopeAt(node, 0, inside);
        assert counts == if OfferOf(names, inside).Some? then OfferOf(names, inside)
                         else FirstContainer(names, Envelopes(node[1..]));
        OffersMeans(names, inside, counts);
        OffersMeans(names, inside, None);
        if OfferOf(names, inside).None? {
          EnvelopesOfferLater(names, node, counts);
        }
      } else {
        EnvelopesOfferLater(names, node, counts);
      }
    }
  }

  /** The counts of a node by the second rule: it must name itself an event; itself first, then its envelopes. */
  ghost predicate EventCounts(names: Names, node: Fields, counts: Option<Fields>)
  {
    if !NamesItself(node) then counts.None?
    else if !Offers(names, node, None) then Offers(names, node, counts)
    else EnvelopesOffer(names, node, counts)
  }

  lemma CountsOfEventAreItsOwn(names: Names, node: Fields)
    ensures EventCounts(names, node, CountsOfEvent(names, node))
  {
    EventNamesItself(node);
    if NamesItself(node) {
      var rest := Envelopes(node);
      assert ([node] + rest)[1..] == rest;
      OffersMeans(names, node, None);
      OffersMeans(names, node, OfferOf(names, node));
      EnvelopesOfferFirst(names, node);
    }
  }

  /** The first node with counts by the second rule. */
  ghost predicate FirstEventCounts(names: Names, nodes: seq<Fields>, counts: Option<Fields>)
  {
    if counts.None? then forall i :: 0 <= i < |nodes| ==> EventCounts(names, nodes[i], None)
    else exists i :: 0 <= i < |nodes| && EventCounts(names, nodes[i], counts)
                     && forall j :: 0 <= j < i ==> EventCounts(names, nodes[j], None)
  }

  lemma {:induction false} FirstEventIsFirst(names: Names, nodes: seq<Fields>)
    ensures FirstEventCounts(names, nodes, FirstEvent(names, nodes))
    decreases |nodes|
  {
    if nodes != [] {
      CountsOfEventAreItsOwn(names, nodes[0]);
      if CountsOfEvent(names, nodes[0]).None? {
        FirstEventIsFirst(names, nodes[1..]);
        FirstEventLater(names, nodes, FirstEvent(names, nodes[1..]));
      }
    }
  }

  lemma FirstEventLater(names: Names, nodes: seq<Fields>, counts: Option<Fields>)
    requires nodes != [] && FirstEventCounts(names, nodes[1..], counts) && EventCounts(names, nodes[0], None)
    ensures FirstEventCounts(names, nodes, counts)
  {
    if counts.Some? {
      var i :| 0 <= i < |nodes[1..]| && EventCounts(names, nodes[1..][i], counts)
               && forall j :: 0 <= j < i ==> EventCounts(names, nodes[1..][j], None);
      assert nodes[i + 1] == nodes[1..][i];
      forall j | 0 <= j < i + 1 ensures EventCounts(names, nodes[j], None) {
        if j > 0 { assert nodes[j] == nodes[1..][j - 1]; }
      }
    } else {
      assert forall i :: 0 < i < |nodes| ==> nodes[i] == nodes[1..][i - 1];
    }
  }

  /**
    What is selected: the first absolute wrapper met, and only if there is none, the counts of the first node that
    names itself a token-usage event and offers some.
   */
  lemma SelectionFollowsTheRules(names: Names, root: Fields)
    ensures var nodes, selected := Walk([(root, 0)], 0), SelectAbsoluteUsage(names, Object(root));
            && (forall i: nat, j: nat :: FirstWrapper(nodes, i, j) ==> selected == Some(nodes[i][j].value.fields))
            && ((forall i: nat, j: nat :: !WrapperAt(nodes, i, j)) ==> FirstEventCounts(names, nodes, selected))
  {
    var nodes := Walk([(root, 0)], 0);
    forall i: nat, j: nat | FirstWrapper(nodes, i, j)
      ensures SelectAbsoluteUsage(names, Object(root)) == Some(nodes[i][j].value.fields) {
      FirstWrapperIsFound(nodes, i, j);
    }
    if forall i: nat, j: nat :: !WrapperAt(nodes, i, j) {
      NoWrapperIsNone(nodes);
      FirstEventIsFirst(names, nodes);
    }
  }
}
