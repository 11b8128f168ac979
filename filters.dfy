/**
 * The node selection filters: NearbyFilter keeps the nearby nodes,
 * SingleNodeFilter applies an optional delegate and then keeps one node
 * picked by the set's iterator, which is arbitrary.
 */
module Filters {
  import opened Wrappers
  import opened Platform

  /**
   * A node selection filter: one of the library's two, or one a client
   * implements, whose filterNodes may answer any set of nodes, or null (None).
   */
  datatype NodeSelectionFilter =
    | NearbyFilter
    | SingleNodeFilter(delegate: Option<NodeSelectionFilter>)
    | ClientFilter(filterNodes: set<Node> -> Option<set<Node>>)

  /** What filterNodes answers: a set, null, or the exception it throws. */
  type Selection = Result<Option<set<Node>>>

  /** A filter built from the library's filters only. */
  predicate IsLibraryFilter(f: NodeSelectionFilter)
    decreases f
  {
    match f
    case NearbyFilter => true
    case SingleNodeFilter(delegate) => delegate.None? || IsLibraryFilter(delegate.value)
    case ClientFilter(_) => false
  }

  /** The no-argument SingleNodeFilter constructor: a null delegate. */
  function NewSingleNodeFilter(): (f: NodeSelectionFilter)
    ensures f.SingleNodeFilter? && f.delegate.None?
  {
    SingleNodeFilter(None)
  }

  /** What NearbyFilter returns: the nearby members of the input. */
  function Nearby(nodes: set<Node>): set<Node>
  {
    set n | n in nodes && n.isNearby
  }

  /** `r` is a possible result of picking one member of `candidates`, or the empty set itself. */
  ghost predicate PicksOne(candidates: set<Node>, r: set<Node>)
  {
    (candidates == {} && r == {}) || (exists n :: n in candidates && r == {n})
  }

  /**
   * SingleNodeFilter's step after its delegate answered `c`: an exception
   * passes through, a null set is dereferenced (NullPointerException), and
   * otherwise one member is picked.
   */
  ghost predicate PickedFrom(c: Selection, r: Selection)
  {
    if c.Err? then r == c
    else if c.value.None? then r == Err(NullPointer)
    else r.Ok? && r.value.Some? && PicksOne(c.value.value, r.value.value)
  }

  /**
   * `r` is a possible answer of `f.filterNodes(nodes)`: NearbyFilter is
   * determined, a client filter answers what its function does, and a
   * SingleNodeFilter picks from what its delegate answered, or from the input
   * when it has no delegate.
   */
  ghost predicate Selects(f: NodeSelectionFilter, nodes: set<Node>, r: Selection)
    decreases f
  {
    match f
    case NearbyFilter => r == Ok(Some(Nearby(nodes)))
    case ClientFilter(answer) => r == Ok(answer(nodes))
    case SingleNodeFilter(delegate) =>
      if delegate.None? then PickedFrom(Ok(Some(nodes)), r)
      else exists c :: Selects(delegate.value, nodes, c) && PickedFrom(c, r)
  }

  /** filterNodes on a non-null set. */
  method FilterNodes(f: NodeSelectionFilter, nodes: set<Node>) returns (r: Selection)
    ensures Selects(f, nodes, r)
    decreases f
  {
    match f
    case NearbyFilter =>
      r := Ok(Some(Nearby(nodes)));
    case ClientFilter(answer) =>
      r := Ok(answer(nodes));
    case SingleNodeFilter(delegate) =>
      var candidates: Selection := Ok(Some(nodes));
      if delegate.Some? {
        candidates := FilterNodes(delegate.value, nodes);
      }
      if candidates.Err? {
        r := candidates;
      } else if candidates.value.None? {
        r := Err(NullPointer);
      } else if candidates.value.value == {} {
        r := candidates;
      } else {
        var n :| n in candidates.value.value;
        r := Ok(Some({n}));
      }
  }

  /** filterNodes on a possibly-null set: null throws NullPointerException. */
  method Filter(f: NodeSelectionFilter, nodes: Option<set<Node>>) returns (r: Selection)
    ensures nodes.None? ==> r == Err(NullPointer)
    ensures nodes.Some? ==> Selects(f, nodes.value, r)
  {
    if nodes.None? {
      return Err(NullPointer);
    }
    r := FilterNodes(f, nodes.value);
  }

  /**
   * A library filter always answers a subset of its input, never null and
   * never an exception; any SingleNodeFilter answer holds at most one node.
   */
  lemma {:induction false} SelectsNarrows(f: NodeSelectionFilter, nodes: set<Node>, r: Selection)
    requires Selects(f, nodes, r)
    ensures IsLibraryFilter(f) ==> r.Ok? && r.value.Some? && r.value.value <= nodes
    ensures f.SingleNodeFilter? && r.Ok? && r.value.Some? ==> |r.value.value| <= 1
    decreases f
  {
    match f
    case NearbyFilter =>
    case ClientFilter(_) =>
    case SingleNodeFilter(delegate) =>
      if delegate.None? {
        assert PickedFrom(Ok(Some(nodes)), r);
        if nodes != {} {
          var n :| n in nodes && r.value.value == {n};
        }
      } else {
        var c :| Selects(delegate.value, nodes, c) && PickedFrom(c, r);
        SelectsNarrows(delegate.value, nodes, c);
        if c.Ok? && c.value.Some? && c.value.value != {} {
          var n :| n in c.value.value && r.value.value == {n};
        }
      }
  }

  /** NearbyFilter keeps exactly the nearby input nodes; empty gives empty. */
  lemma NearbyExactly(nodes: set<Node>, r: Selection)
    requires Selects(NearbyFilter, nodes, r)
    ensures r.Ok? && r.value.Some?
    ensures forall n :: n in r.value.value <==> n in nodes && n.isNearby
    ensures nodes == {} ==> r.value.value == {}
  {
  }

  /** Applying NearbyFilter to its own result changes nothing. */
  lemma NearbyIdempotent(nodes: set<Node>)
    ensures Nearby(Nearby(nodes)) == Nearby(nodes)
  {
  }

  /** `c` is what a SingleNodeFilter with this delegate picks from. */
  ghost predicate Candidates(delegate: Option<NodeSelectionFilter>, nodes: set<Node>, c: Selection)
  {
    if delegate.Some? then Selects(delegate.value, nodes, c) else c == Ok(Some(nodes))
  }

  /**
   * A SingleNodeFilter answers from what its delegate answered (the input when
   * there is none): the delegate's exception, NullPointerException for a null
   * answer, and otherwise a subset that is empty exactly when the delegate's
   * set is, and one of its members when it is not.
   */
  lemma SingleOfDelegate(delegate: Option<NodeSelectionFilter>, nodes: set<Node>, r: Selection)
    requires Selects(SingleNodeFilter(delegate), nodes, r)
    ensures exists c :: (
      Candidates(delegate, nodes, c)
      && (c.Err? ==> r == c)
      && (c.Ok? && c.value.None? ==> r == Err(NullPointer))
      && (c.Ok? && c.value.Some? ==> (
        r.Ok? && r.value.Some? && r.value.value <= c.value.value
        && (c.value.value == {} <==> r.value.value == {}) && (c.value.value != {} ==> |r.value.value| == 1))))
  {
    var c: Selection;
    if delegate.None? {
      c := Ok(Some(nodes));
    } else {
      c :| Selects(delegate.value, nodes, c) && PickedFrom(c, r);
    }
    assert Candidates(delegate, nodes, c) && PickedFrom(c, r);
    if c.Ok? && c.value.Some? && c.value.value != {} {
      var n :| n in c.value.value && r.value.value == {n};
      assert r.value.value <= c.value.value && |r.value.value| == 1;
    }
  }

  /** A SingleNodeFilter over a client filter that answers null throws NullPointerException. */
  lemma NullDelegateThrows(answer: set<Node> -> Option<set<Node>>, nodes: set<Node>, r: Selection)
    requires answer(nodes).None?
    requires Selects(SingleNodeFilter(Some(ClientFilter(answer))), nodes, r)
    ensures r == Err(NullPointer)
  {
    var c :| Selects(ClientFilter(answer), nodes, c) && PickedFrom(c, r);
    assert c == Ok(None);
  }

  /** SingleNodeFilter(NearbyFilter) yields at most one node, a nearby input node, and none only when no node is nearby. */
  lemma SingleNearby(nodes: set<Node>, r: Selection)
    requires Selects(SingleNodeFilter(Some(NearbyFilter)), nodes, r)
    ensures r.Ok? && r.value.Some? && |r.value.value| <= 1
    ensures forall n :: n in r.value.value ==> n in nodes && n.isNearby
    ensures r.value.value == {} <==> forall n :: n in nodes ==> !n.isNearby
  {
    var c :| Selects(NearbyFilter, nodes, c) && PickedFrom(c, r);
    assert c == Ok(Some(Nearby(nodes)));
    SelectsNarrows(SingleNodeFilter(Some(NearbyFilter)), nodes, r);
    if r.value.value == {} {
      assert c.value.value == {};
    } else {
      var n :| n in c.value.value && r.value.value == {n};
    }
    if exists m :: m in nodes && m.isNearby {
      var m :| m in nodes && m.isNearby;
      assert m in c.value.value;
    }
  }
}
