/**
 * The dependent-node-property cache of one workflow level
 * (DependentNodeProperties.java): per node a record with "has executable
 * predecessors" and "has executing successors", the node state the record was
 * computed for and a validity flag; one extra record under the workflow's own
 * ID carries the values the enclosing workflow reports for this level.
 *
 * The private static helpers of the Java class (initAndResetNodeProperties,
 * removeSurplusNodes, collectUnknownPropertiesToStartPropagation,
 * handleDirectDependees, propagate) take the record map and give back the
 * updated one; the class DependentNodeProperties owns the map and reassigns it.
 */
module DependentProperties {
  import opened Wrappers
  import opened WorkflowGraph

  /** One cache record (class Properties); the parent record has no node state. */
  datatype Properties = Properties(
    hasExecutablePredecessors: bool,
    hasExecutingSuccessors: bool,
    nodeState: Option<NodeState>,
    valid: bool)
  {
    /** invalidate(s) */
    function Invalidate(s: Option<NodeState>): Properties {
      this.(nodeState := s, valid := false)
    }

    /** setValid() */
    function SetValid(): Properties {
      this.(valid := true)
    }
  }

  /** new Properties(s) */
  function NewProperties(s: Option<NodeState>): Properties {
    Properties(false, false, s, false)
  }

  /** A fresh record is invalid with both values false; invalidating stores the
      state and clears the flag and keeps both values; setValid only sets the flag. */
  lemma RecordLifecycle(r: Properties, s: Option<NodeState>)
    ensures var n := NewProperties(s);
      !n.valid && !n.hasExecutablePredecessors && !n.hasExecutingSuccessors && n.nodeState == s
    ensures var i := r.Invalidate(s);
      && !i.valid && i.nodeState == s
      && i.hasExecutablePredecessors == r.hasExecutablePredecessors
      && i.hasExecutingSuccessors == r.hasExecutingSuccessors
    ensures r.SetValid().valid && r.SetValid().(valid := r.valid) == r
  {
  }

  // ---------------------------------------------------------------------------
  // The PropertyProxy strategy: one propagation algorithm, two properties.
  // ---------------------------------------------------------------------------

  datatype Property = ExecutablePredecessors | ExecutingSuccessors

  /** getPropertyValue */
  function Value(p: Property, r: Properties): bool {
    match p
    case ExecutablePredecessors => r.hasExecutablePredecessors
    case ExecutingSuccessors => r.hasExecutingSuccessors
  }

  /** The record with the property's value replaced. */
  function WithValue(p: Property, r: Properties, b: bool): Properties {
    match p
    case ExecutablePredecessors => r.(hasExecutablePredecessors := b)
    case ExecutingSuccessors => r.(hasExecutingSuccessors := b)
  }

  /** getDirectDependees: the nodes whose value this node's value reads. */
  function Dependees(p: Property, wf: Workflow, t: NodeId): (r: seq<NodeId>)
    requires WellFormed(wf)
    ensures NoDuplicates(r) && forall x :: x in r ==> IsEndpoint(wf, x)
    ensures t !in wf.nodes ==> r == []
  {
    match p
    case ExecutablePredecessors => DirectPredecessors(wf, t)
    case ExecutingSuccessors => DirectSuccessors(wf, t)
  }

  /** getDirectDependers: the nodes whose value reads this node's value. */
  function Dependers(p: Property, wf: Workflow, t: NodeId): (r: seq<NodeId>)
    requires WellFormed(wf)
    ensures NoDuplicates(r) && forall x :: x in r ==> IsEndpoint(wf, x)
    ensures t !in wf.nodes ==> r == []
  {
    match p
    case ExecutablePredecessors => DirectSuccessors(wf, t)
    case ExecutingSuccessors => DirectPredecessors(wf, t)
  }

  /**
   * The two properties run on mirrored edges: the dependees of one are the
   * dependers of the other, and between contained nodes "x depends on y" for
   * one property is "y depends on x" for the other. Edges that end at the
   * workflow's own ID are not mirrored: that ID has neither dependees nor dependers.
   * The first two clauses hold by the definitions of Dependees and Dependers;
   * the mirroring between contained nodes is what the proof establishes.
   */
  lemma MirroredEdges(wf: Workflow, x: NodeId, y: NodeId)
    requires WellFormed(wf)
    ensures Dependees(ExecutablePredecessors, wf, x) == Dependers(ExecutingSuccessors, wf, x)
    ensures Dependers(ExecutablePredecessors, wf, x) == Dependees(ExecutingSuccessors, wf, x)
    ensures x in wf.nodes && y in wf.nodes ==>
      (y in Dependees(ExecutablePredecessors, wf, x) <==> x in Dependers(ExecutablePredecessors, wf, y))
    ensures x in wf.nodes && y in wf.nodes ==>
      (y in Dependees(ExecutingSuccessors, wf, x) <==> x in Dependers(ExecutingSuccessors, wf, y))
    ensures Dependees(ExecutablePredecessors, wf, wf.id) == [] && Dependers(ExecutablePredecessors, wf, wf.id) == []
    ensures Dependees(ExecutingSuccessors, wf, wf.id) == [] && Dependers(ExecutingSuccessors, wf, wf.id) == []
  {
    if x in wf.nodes && y in wf.nodes {
      var pred := DirectPredecessors(wf, x);
      var succ := DirectSuccessors(wf, y);
      if IsComponentOutput(wf, y) && (forall z :: Connection(y, z) !in wf.connections) {
        assert x != wf.id;
        assert x !in succ;
        assert y !in pred;
      }
      var pred' := DirectPredecessors(wf, y);
      var succ' := DirectSuccessors(wf, x);
      if IsComponentOutput(wf, x) && (forall z :: Connection(x, z) !in wf.connections) {
        assert y != wf.id;
        assert y !in succ';
        assert x !in pred';
      }
    }
  }

  /** isExecutable: the node is configured. */
  predicate IsExecutable(s: NodeState) {
    s.isConfigured
  }

  /** isExecuting: in progress and not merely waiting, or executing remotely. */
  predicate IsExecuting(s: NodeState) {
    (s.isExecutionInProgress && !s.isWaitingToBeExecuted) || s.isExecutingRemotely
  }

  /** The map has an entry for every contained node and for the workflow itself. */
  predicate Covers<V>(wf: Workflow, m: map<NodeId, V>) {
    wf.id in m && forall n :: n in wf.nodes ==> n in m
  }

  /** The two records agree on everything but property p's value. */
  predicate SameExceptValue(p: Property, a: Properties, b: Properties) {
    && a.nodeState == b.nodeState
    && a.valid == b.valid
    && (p.ExecutablePredecessors? || a.hasExecutablePredecessors == b.hasExecutablePredecessors)
    && (p.ExecutingSuccessors? || a.hasExecutingSuccessors == b.hasExecutingSuccessors)
  }

  /** The two maps have the same keys and differ at most in property p's values. */
  predicate OnlyValueChanged(p: Property, before: map<NodeId, Properties>, after: map<NodeId, Properties>) {
    before.Keys == after.Keys
    && forall n :: n in before ==> SameExceptValue(p, before[n], after[n])
  }

  // The seeding and propagation algorithms read and write nothing of a record
  // but property p's value and its validity flag. They work on a map from
  // node ID to that value and on the set of IDs whose record is valid; the
  // cache object takes both from its records and writes the values back.

  /** getPropertyValue, for every record. */
  function ValuesOf(p: Property, props: map<NodeId, Properties>): map<NodeId, bool> {
    map n | n in props :: Value(p, props[n])
  }

  /** isValid, for every record: the IDs whose record is valid. */
  function ValidIds(props: map<NodeId, Properties>): set<NodeId> {
    set n | n in props && props[n].valid
  }

  /** Every record takes property p's value from vals; nothing else changes. */
  function WriteBack(p: Property, props: map<NodeId, Properties>, vals: map<NodeId, bool>): (r: map<NodeId, Properties>)
    requires props.Keys <= vals.Keys
    ensures OnlyValueChanged(p, props, r)
    ensures forall n :: n in r ==> Value(p, r[n]) == vals[n]
  {
    map n | n in props :: WithValue(p, props[n], vals[n])
  }

  /**
   * getIndependentPropertyValue: the node's own state decides; for the
   * workflow's own ID it is the value stored in the parent record.
   */
  function IndependentValue(p: Property, wf: Workflow, vals: map<NodeId, bool>, t: NodeId): bool
    requires WellFormed(wf) && wf.id in vals && IsEndpoint(wf, t)
  {
    if t == wf.id then vals[t]
    else
      match p
      case ExecutablePredecessors => IsExecutable(wf.state[t])
      case ExecutingSuccessors => IsExecuting(wf.state[t])
  }

  /** setPropertyValue: a no-op on the workflow's own ID. */
  function SetPropertyValue(wf: Workflow, vals: map<NodeId, bool>, t: NodeId, b: bool): map<NodeId, bool> {
    if t == wf.id then vals else vals[t := b]
  }

  /** n's value went from false to true. */
  predicate Flipped(before: map<NodeId, bool>, after: map<NodeId, bool>, n: NodeId) {
    n in before && n in after && !before[n] && after[n]
  }

  // ---------------------------------------------------------------------------
  // Reconciling the records with the current nodes.
  // ---------------------------------------------------------------------------

  /** Some contained node has no record yet or a record for another state. */
  predicate StateChanged(wf: Workflow, props: map<NodeId, Properties>)
    requires forall n :: n in wf.nodes ==> n in wf.state
  {
    exists n :: n in wf.nodes && (n !in props || props[n].nodeState != Some(wf.state[n]))
  }

  /** The record initAndResetNodeProperties leaves for node n in state s. */
  function Reconciled(props: map<NodeId, Properties>, n: NodeId, s: NodeState): Properties {
    if n !in props then NewProperties(Some(s))
    else if props[n].nodeState != Some(s) then props[n].Invalidate(Some(s))
    else props[n].SetValid()
  }

  /**
   * What initAndResetNodeProperties has done once the nodes in `visited` were
   * handled: those have their reconciled record, every other record is as it was.
   */
  ghost predicate ReconciledSoFar(wf: Workflow, props: map<NodeId, Properties>, props': map<NodeId, Properties>,
                                  visited: set<NodeId>)
    requires forall n :: n in visited ==> n in wf.state
  {
    && props'.Keys == props.Keys + visited
    && forall n :: n in props' ==>
         props'[n] == if n in visited then Reconciled(props, n, wf.state[n]) else props[n]
  }

  lemma ReconcileStep(wf: Workflow, props: map<NodeId, Properties>, before: map<NodeId, Properties>,
                      visited: set<NodeId>, id: NodeId)
    requires forall n :: n in visited ==> n in wf.state
    requires id in wf.state && id !in visited
    requires ReconciledSoFar(wf, props, before, visited)
    ensures ReconciledSoFar(wf, props, before[id := Reconciled(props, id, wf.state[id])], visited + {id})
  {
  }

  /** Once every contained node is handled, the records and the reset flag are as initAndResetNodeProperties promises. */
  lemma ReconcileDone(wf: Workflow, props: map<NodeId, Properties>, props': map<NodeId, Properties>, reset: bool)
    requires WellFormed(wf)
    requires ReconciledSoFar(wf, props, props', NodeSet(wf))
    requires reset <==> exists n :: n in NodeSet(wf) && (n !in props || props[n].nodeState != Some(wf.state[n]))
    ensures props'.Keys == props.Keys + NodeSet(wf)
    ensures forall n :: n in props && n !in wf.nodes ==> props'[n] == props[n]
    ensures forall n :: n in wf.nodes ==> props'[n] == Reconciled(props, n, wf.state[n])
    ensures forall n :: n in wf.nodes ==>
      && props'[n].nodeState == Some(wf.state[n])
      && (props'[n].valid <==> n in props && props[n].nodeState == Some(wf.state[n]))
    ensures reset <==> StateChanged(wf, props)
  {
  }

  /**
   * initAndResetNodeProperties: a node without a record gets a fresh one, a
   * record for another state is invalidated with the new state, and a record
   * for the same state is marked valid; the result tells whether any record
   * was created or invalidated.
   */
  method InitAndResetNodeProperties(wf: Workflow, props: map<NodeId, Properties>)
    returns (props': map<NodeId, Properties>, reset: bool)
    requires WellFormed(wf)
    ensures props'.Keys == props.Keys + NodeSet(wf)
    ensures forall n :: n in props && n !in wf.nodes ==> props'[n] == props[n]
    ensures forall n :: n in wf.nodes ==> props'[n] == Reconciled(props, n, wf.state[n])
    ensures forall n :: n in wf.nodes ==>
      && props'[n].nodeState == Some(wf.state[n])
      && (props'[n].valid <==> n in props && props[n].nodeState == Some(wf.state[n]))
    ensures reset <==> StateChanged(wf, props)
  {
    props' := props;
    reset := false;
    ghost var visited: set<NodeId> := {};
    for i := 0 to |wf.nodes|
      invariant visited == Members(wf.nodes[..i])
      invariant ReconciledSoFar(wf, props, props', visited)
      invariant reset <==> exists n :: n in visited && (n !in props || props[n].nodeState != Some(wf.state[n]))
    {
      var id := wf.nodes[i];
      assert id !in wf.nodes[..i];
      assert wf.nodes[..i + 1] == wf.nodes[..i] + [id];
      var s := wf.state[id];
      assert id in props' ==> props'[id] == props[id];
      var r: Properties;
      if id !in props' {
        r := NewProperties(Some(s));
        reset := true;
      } else if props'[id].nodeState != Some(s) {
        r := props'[id].Invalidate(Some(s));
        reset := true;
      } else {
        r := props'[id].SetValid();
      }
      assert r == Reconciled(props, id, s);
      ReconcileStep(wf, props, props', visited, id);
      MembersAppend(wf.nodes[..i], id);
      props' := props'[id := r];
      visited := visited + {id};
    }
    assert wf.nodes[..|wf.nodes|] == wf.nodes;
    ReconcileDone(wf, props, props', reset);
  }

  /**
   * removeSurplusNodes: keeps exactly the records of contained nodes and the
   * workflow's own record.
   */
  function RemoveSurplusNodes(wf: Workflow, props: map<NodeId, Properties>): (r: map<NodeId, Properties>)
    ensures forall k :: k in r <==> k in props && IsEndpoint(wf, k)
    ensures forall k :: k in r ==> r[k] == props[k]
  {
    map k | k in props && (k in wf.nodes || k == wf.id) :: props[k]
  }

  lemma {:induction false} NodeSetSize(s: seq<NodeId>)
    requires NoDuplicates(s)
    ensures |Members(s)| == |s|
  {
    if s != [] {
      var t, x := s[..|s| - 1], s[|s| - 1];
      assert NoDuplicates(t) by {
        forall i, j | 0 <= i < j < |t| ensures t[i] != t[j] {
          assert t[i] == s[i] && t[j] == s[j];
        }
      }
      NodeSetSize(t);
      var st := Members(t);
      assert x !in st by {
        forall i | 0 <= i < |t| ensures t[i] != x {
          assert t[i] == s[i];
        }
      }
      assert Members(s) == st + {x} by {
        assert s == t + [x];
      }
      assert |st + {x}| == |st| + 1;
    }
  }

  lemma SubsetSize(a: set<NodeId>, b: set<NodeId>)
    requires a <= b
    ensures |a| <= |b|
    ensures |a| == |b| ==> a == b
  {
    if a != {} {
      var x :| x in a;
      SubsetSize(a - {x}, b - {x});
    } else if b != {} {
      var y :| y in b;
      assert |b - {y}| + 1 == |b|;
    }
  }

  /**
   * update() prunes only when the map holds more than nodes+1 records. When
   * every contained node and the workflow itself have a record, that guard is
   * exact: pruning would change the map if and only if the guard holds.
   */
  lemma {:induction false} SurplusGuardExact(wf: Workflow, props: map<NodeId, Properties>)
    requires WellFormed(wf) && Covers(wf, props)
    ensures |props| > |wf.nodes| + 1 <==> RemoveSurplusNodes(wf, props) != props
    ensures |props| <= |wf.nodes| + 1 ==> props.Keys == NodeSet(wf) + {wf.id}
  {
    NodeSetSize(wf.nodes);
    var kept := NodeSet(wf) + {wf.id};
    assert wf.id !in NodeSet(wf);
    assert |kept| == |wf.nodes| + 1;
    assert kept <= props.Keys;
    SubsetSize(kept, props.Keys);
    var r := RemoveSurplusNodes(wf, props);
    assert r.Keys == kept;
    if |props| > |wf.nodes| + 1 {
      assert r.Keys != props.Keys;
    }
  }

  // ---------------------------------------------------------------------------
  // Seeding: collectUnknownPropertiesToStartPropagation / handleDirectDependees.
  // ---------------------------------------------------------------------------

  /** directDependees.stream().anyMatch(getPropertyValue) */
  predicate AnyDependeeTrue(p: Property, wf: Workflow, vals: map<NodeId, bool>, t: NodeId)
    requires WellFormed(wf) && Covers(wf, vals)
  {
    exists d :: d in Dependees(p, wf, t) && vals[d]
  }

  /**
   * Some dependee of t whose value seeding never changes (its record is valid,
   * or it is the workflow's own ID) is true.
   */
  predicate KnownDependeeTrue(p: Property, wf: Workflow, valid: set<NodeId>, vals: map<NodeId, bool>, t: NodeId)
    requires WellFormed(wf) && Covers(wf, vals)
  {
    exists d :: d in Dependees(p, wf, t) && (d in valid || d == wf.id) && vals[d]
  }

  /**
   * The outcome of handleDirectDependees on node t, as the new values and
   * queue: with no dependees the value stays and t is enqueued iff its
   * independent value is true; with some dependee true the value is set to
   * true and t is enqueued; otherwise the value is set to false and the queue
   * stays.
   */
  function Handle(p: Property, wf: Workflow, vals: map<NodeId, bool>, queue: seq<NodeId>, t: NodeId)
    : (r: (map<NodeId, bool>, seq<NodeId>))
    requires WellFormed(wf) && Covers(wf, vals) && IsEndpoint(wf, t)
    ensures r.0.Keys == vals.Keys
    ensures forall n :: n in r.1 ==> n in queue || n == t
  {
    if Dependees(p, wf, t) == [] then
      (vals, if IndependentValue(p, wf, vals, t) then queue + [t] else queue)
    else if AnyDependeeTrue(p, wf, vals, t) then
      (SetPropertyValue(wf, vals, t, true), queue + [t])
    else
      (SetPropertyValue(wf, vals, t, false), queue)
  }

  /** handleDirectDependees */
  method HandleDirectDependees(p: Property, wf: Workflow, vals: map<NodeId, bool>, queue: seq<NodeId>, t: NodeId)
    returns (vals': map<NodeId, bool>, queue': seq<NodeId>)
    requires WellFormed(wf) && Covers(wf, vals) && IsEndpoint(wf, t)
    ensures (vals', queue') == Handle(p, wf, vals, queue, t)
  {
    var dependees := Dependees(p, wf, t);
    if dependees == [] {
      vals' := vals;
      queue' := if IndependentValue(p, wf, vals, t) then queue + [t] else queue;
    } else if exists d :: d in dependees && vals[d] {
      vals' := SetPropertyValue(wf, vals, t, true);
      queue' := queue + [t];
    } else {
      vals' := SetPropertyValue(wf, vals, t, false);
      queue' := queue;
    }
  }

  // What seeding has established once the IDs in `done` were visited, given
  // the initial values vals and the valid IDs, in four parts.

  /** Only visited invalid entries changed, never the workflow's own. */
  ghost predicate SeedFrame(wf: Workflow, valid: set<NodeId>, vals: map<NodeId, bool>,
                            vals': map<NodeId, bool>, done: set<NodeId>) {
    && vals'.Keys == vals.Keys
    && wf.id in vals && vals'[wf.id] == vals[wf.id]
    && (forall n :: n in vals && (n !in done || n in valid) ==> vals'[n] == vals[n])
  }

  /** The queue holds visited invalid IDs without repetition. */
  ghost predicate SeedQueue(valid: set<NodeId>, queue: seq<NodeId>, done: set<NodeId>) {
    && NoDuplicates(queue)
    && (forall n :: n in queue ==> n in done && n !in valid)
  }

  /**
   * A visited node without dependees kept its value and is queued iff its
   * independent value is true; a visited node with dependees is queued iff
   * its value is true, and it is true when a dependee that seeding leaves
   * alone was true.
   */
  ghost predicate SeedClass(p: Property, wf: Workflow, valid: set<NodeId>, vals: map<NodeId, bool>,
                            vals': map<NodeId, bool>, queue: seq<NodeId>, done: set<NodeId>)
    requires WellFormed(wf) && Covers(wf, vals) && vals'.Keys == vals.Keys
  {
    && (forall n :: n in done && IsEndpoint(wf, n) && n !in valid && Dependees(p, wf, n) == [] ==>
          vals'[n] == vals[n] && (n in queue <==> IndependentValue(p, wf, vals, n)))
    && (forall n :: n in done && n in vals && n !in valid && Dependees(p, wf, n) != [] ==>
          (n in queue <==> vals'[n]))
    && (forall n :: n in done && n in vals && n !in valid && KnownDependeeTrue(p, wf, valid, vals, n) ==>
          vals'[n])
  }

  /**
   * Every true value was true initially or belongs to a queued node, and a
   * queued node with dependees has a dependee that was true initially or is
   * queued.
   */
  ghost predicate SeedSound(p: Property, wf: Workflow, vals: map<NodeId, bool>,
                            vals': map<NodeId, bool>, queue: seq<NodeId>)
    requires WellFormed(wf) && Covers(wf, vals) && vals'.Keys == vals.Keys
  {
    && (forall n :: n in vals && vals'[n] ==> vals[n] || n in queue)
    && (forall n :: n in queue && Dependees(p, wf, n) != [] ==>
          exists d :: d in Dependees(p, wf, n) && d in vals && (vals[d] || d in queue))
  }

  ghost predicate Seeded(p: Property, wf: Workflow, valid: set<NodeId>, vals: map<NodeId, bool>,
                         vals': map<NodeId, bool>, queue: seq<NodeId>, done: set<NodeId>)
    requires WellFormed(wf) && Covers(wf, vals)
  {
    && SeedFrame(wf, valid, vals, vals', done)
    && SeedQueue(valid, queue, done)
    && SeedClass(p, wf, valid, vals, vals', queue, done)
    && SeedSound(p, wf, vals, vals', queue)
  }

  /** One visit of t changes at most t's entry (never the workflow's own) and queues at most t. */
  ghost predicate VisitOf(wf: Workflow, current: map<NodeId, bool>, queue: seq<NodeId>, t: NodeId,
                          after: map<NodeId, bool>, queue': seq<NodeId>) {
    && after.Keys == current.Keys
    && (forall n :: n in current && n != t ==> after[n] == current[n])
    && (t == wf.id ==> after == current)
    && (queue' == queue || queue' == queue + [t])
  }

  lemma SeedFrameStep(wf: Workflow, valid: set<NodeId>, vals: map<NodeId, bool>, current: map<NodeId, bool>,
                      queue: seq<NodeId>, done: set<NodeId>, t: NodeId, after: map<NodeId, bool>, queue': seq<NodeId>)
    requires SeedFrame(wf, valid, vals, current, done) && t !in done && t !in valid
    requires VisitOf(wf, current, queue, t, after, queue')
    ensures SeedFrame(wf, valid, vals, after, done + {t})
  {
  }

  lemma SeedQueueStep(wf: Workflow, valid: set<NodeId>, current: map<NodeId, bool>,
                      queue: seq<NodeId>, done: set<NodeId>, t: NodeId, after: map<NodeId, bool>, queue': seq<NodeId>)
    requires SeedQueue(valid, queue, done) && t !in done && t !in valid
    requires VisitOf(wf, current, queue, t, after, queue')
    ensures SeedQueue(valid, queue', done + {t})
  {
    if queue' != queue {
      assert t !in queue;
    }
  }

  lemma SeedClassStep(p: Property, wf: Workflow, valid: set<NodeId>, vals: map<NodeId, bool>,
                      current: map<NodeId, bool>, queue: seq<NodeId>, done: set<NodeId>, t: NodeId,
                      after: map<NodeId, bool>, queue': seq<NodeId>)
    requires WellFormed(wf) && Covers(wf, vals) && IsEndpoint(wf, t) && current.Keys == vals.Keys
    requires SeedQueue(valid, queue, done) && t !in done && t !in valid
    requires SeedClass(p, wf, valid, vals, current, queue, done)
    requires VisitOf(wf, current, queue, t, after, queue')
    requires Dependees(p, wf, t) == [] ==> after[t] == vals[t] && (t in queue' <==> IndependentValue(p, wf, vals, t))
    requires Dependees(p, wf, t) != [] ==> (t in queue' <==> after[t])
    requires KnownDependeeTrue(p, wf, valid, vals, t) ==> after[t]
    ensures SeedClass(p, wf, valid, vals, after, queue', done + {t})
  {
    assert forall n :: n in queue' <==> n in queue || (n == t && t in queue');
  }

  lemma SeedSoundStep(p: Property, wf: Workflow, vals: map<NodeId, bool>,
                      current: map<NodeId, bool>, queue: seq<NodeId>, t: NodeId,
                      after: map<NodeId, bool>, queue': seq<NodeId>)
    requires WellFormed(wf) && Covers(wf, vals) && IsEndpoint(wf, t) && current.Keys == vals.Keys
    requires SeedSound(p, wf, vals, current, queue)
    requires VisitOf(wf, current, queue, t, after, queue')
    requires after[t] ==> vals[t] || t in queue'
    requires t in queue' && Dependees(p, wf, t) != [] ==>
      exists d :: d in Dependees(p, wf, t) && d in vals && (vals[d] || d in queue')
    ensures SeedSound(p, wf, vals, after, queue')
  {
    assert forall n :: n in queue ==> n in queue';
  }

  /** Visiting an invalid node without dependees keeps Seeded. */
  lemma SeedKeep(p: Property, wf: Workflow, valid: set<NodeId>, vals: map<NodeId, bool>,
                 current: map<NodeId, bool>, queue: seq<NodeId>, done: set<NodeId>, t: NodeId)
    requires WellFormed(wf) && Covers(wf, vals) && IsEndpoint(wf, t)
    requires Seeded(p, wf, valid, vals, current, queue, done)
    requires t !in done && t !in valid && Dependees(p, wf, t) == []
    ensures var queue' := if IndependentValue(p, wf, current, t) then queue + [t] else queue;
      Seeded(p, wf, valid, vals, current, queue', done + {t})
  {
    var queue' := if IndependentValue(p, wf, current, t) then queue + [t] else queue;
    assert current[t] == vals[t];
    assert IndependentValue(p, wf, current, t) == IndependentValue(p, wf, vals, t);
    assert t in queue' <==> IndependentValue(p, wf, vals, t) by {
      assert t !in queue;
    }
    SeedFrameStep(wf, valid, vals, current, queue, done, t, current, queue');
    SeedQueueStep(wf, valid, current, queue, done, t, current, queue');
    SeedClassStep(p, wf, valid, vals, current, queue, done, t, current, queue');
    SeedSoundStep(p, wf, vals, current, queue, t, current, queue');
  }

  /**
   * Visiting an invalid node with dependees keeps Seeded: its value is set to
   * b, whether some dependee is true now, and it is queued iff b.
   */
  lemma SeedSet(p: Property, wf: Workflow, valid: set<NodeId>, vals: map<NodeId, bool>,
                current: map<NodeId, bool>, queue: seq<NodeId>, done: set<NodeId>, t: NodeId, b: bool)
    requires WellFormed(wf) && Covers(wf, vals) && IsEndpoint(wf, t)
    requires Seeded(p, wf, valid, vals, current, queue, done)
    requires t !in done && t !in valid && Dependees(p, wf, t) != []
    requires b == AnyDependeeTrue(p, wf, current, t)
    ensures var queue' := if b then queue + [t] else queue;
      Seeded(p, wf, valid, vals, SetPropertyValue(wf, current, t, b), queue', done + {t})
  {
    var queue' := if b then queue + [t] else queue;
    var after := SetPropertyValue(wf, current, t, b);
    assert t != wf.id && after == current[t := b];
    assert t in queue' <==> b by {
      assert t !in queue;
    }
    if b {
      var d :| d in Dependees(p, wf, t) && current[d];
      assert d in vals && (vals[d] || d in queue');
    }
    if KnownDependeeTrue(p, wf, valid, vals, t) {
      var d :| d in Dependees(p, wf, t) && (d in valid || d == wf.id) && vals[d];
      assert current[d];
    }
    SeedFrameStep(wf, valid, vals, current, queue, done, t, after, queue');
    SeedQueueStep(wf, valid, current, queue, done, t, after, queue');
    SeedClassStep(p, wf, valid, vals, current, queue, done, t, after, queue');
    SeedSoundStep(p, wf, vals, current, queue, t, after, queue');
  }

  /** Visiting one more invalid ID keeps Seeded. */
  lemma SeedStep(p: Property, wf: Workflow, valid: set<NodeId>, vals: map<NodeId, bool>,
                 current: map<NodeId, bool>, queue: seq<NodeId>, done: set<NodeId>, t: NodeId,
                 vals': map<NodeId, bool>, queue': seq<NodeId>)
    requires WellFormed(wf) && Covers(wf, vals) && IsEndpoint(wf, t)
    requires Seeded(p, wf, valid, vals, current, queue, done)
    requires t !in done && t !in valid
    requires (vals', queue') == Handle(p, wf, current, queue, t)
    ensures Seeded(p, wf, valid, vals, vals', queue', done + {t})
  {
    if Dependees(p, wf, t) == [] {
      SeedKeep(p, wf, valid, vals, current, queue, done, t);
    } else {
      SeedSet(p, wf, valid, vals, current, queue, done, t, AnyDependeeTrue(p, wf, current, t));
    }
  }

  /**
   * collectUnknownPropertiesToStartPropagation as a fold over the IDs ts in
   * order, from the values vals and an empty queue: each invalid ID is handled
   * with the values as they are at its turn, each valid one is skipped.
   */
  function SeedList(p: Property, wf: Workflow, valid: set<NodeId>, vals: map<NodeId, bool>, ts: seq<NodeId>)
    : (r: (map<NodeId, bool>, seq<NodeId>))
    requires WellFormed(wf) && Covers(wf, vals) && forall t :: t in ts ==> IsEndpoint(wf, t)
    ensures r.0.Keys == vals.Keys
    ensures forall n :: n in r.1 ==> n in ts
  {
    if ts == [] then (vals, [])
    else
      var before := SeedList(p, wf, valid, vals, ts[..|ts| - 1]);
      var t := ts[|ts| - 1];
      if t in valid then before else Handle(p, wf, before.0, before.1, t)
  }

  /** A visited valid ID changes nothing, so it keeps Seeded. */
  lemma SeedSkip(p: Property, wf: Workflow, valid: set<NodeId>, vals: map<NodeId, bool>,
                 current: map<NodeId, bool>, queue: seq<NodeId>, done: set<NodeId>, t: NodeId)
    requires WellFormed(wf) && Covers(wf, vals)
    requires Seeded(p, wf, valid, vals, current, queue, done) && t in valid
    ensures Seeded(p, wf, valid, vals, current, queue, done + {t})
  {
  }

  /** Folding over IDs without repetition keeps Seeded, with the folded IDs as the visited ones. */
  lemma {:induction false} SeedListSeeded(p: Property, wf: Workflow, valid: set<NodeId>, vals: map<NodeId, bool>,
                                         ts: seq<NodeId>)
    requires WellFormed(wf) && Covers(wf, vals) && NoDuplicates(ts) && forall t :: t in ts ==> IsEndpoint(wf, t)
    ensures var r := SeedList(p, wf, valid, vals, ts);
      Seeded(p, wf, valid, vals, r.0, r.1, Members(ts))
  {
    if ts == [] {
      assert Members(ts) == {};
    } else {
      var init, t := ts[..|ts| - 1], ts[|ts| - 1];
      assert ts == init + [t];
      assert NoDuplicates(init) by {
        forall i, j | 0 <= i < j < |init| ensures init[i] != init[j] {
          assert init[i] == ts[i] && init[j] == ts[j];
        }
      }
      assert t !in Members(init) by {
        forall i | 0 <= i < |init| ensures init[i] != t {
          assert init[i] == ts[i];
        }
      }
      SeedListSeeded(p, wf, valid, vals, init);
      MembersAppend(init, t);
      var before := SeedList(p, wf, valid, vals, init);
      if t in valid {
        SeedSkip(p, wf, valid, vals, before.0, before.1, Members(init), t);
      } else {
        var after := Handle(p, wf, before.0, before.1, t);
        SeedStep(p, wf, valid, vals, before.0, before.1, Members(init), t, after.0, after.1);
      }
    }
  }

  /**
   * What collectUnknownPropertiesToStartPropagation promises, from the values
   * vals and the valid IDs to the seeded values vals' and the queue. Only IDs
   * of listAllIncludingParent whose record is invalid are visited; every other
   * value stays, and so does the workflow's own. A visited node without
   * dependees keeps its value and is queued iff its independent value is true;
   * a visited node with dependees is queued iff its value ends up true, and
   * then some dependee was true beforehand or is queued itself. Conversely, a
   * visited node with a true dependee that is valid, or is the workflow's own
   * ID, ends up true and queued. The queue holds each visited ID at most once.
   */
  ghost predicate Seeding(p: Property, wf: Workflow, valid: set<NodeId>, vals: map<NodeId, bool>,
                          vals': map<NodeId, bool>, queue: seq<NodeId>)
    requires WellFormed(wf) && Covers(wf, vals)
  {
    && vals'.Keys == vals.Keys && vals'[wf.id] == vals[wf.id]
    && (forall n :: n in vals && (n in valid || n !in ListAllIncludingParent(wf)) ==> vals'[n] == vals[n])
    && NoDuplicates(queue)
    && (forall n :: n in queue ==> n in ListAllIncludingParent(wf) && n !in valid)
    && (forall n :: n in ListAllIncludingParent(wf) && n !in valid && Dependees(p, wf, n) == [] ==>
          vals'[n] == vals[n] && (n in queue <==> IndependentValue(p, wf, vals, n)))
    && (forall n :: n in ListAllIncludingParent(wf) && n !in valid && Dependees(p, wf, n) != [] ==>
          (n in queue <==> vals'[n]))
    && (forall n :: n in vals && vals'[n] ==> vals[n] || n in queue)
    && (forall n :: n in queue && Dependees(p, wf, n) != [] ==>
          exists d :: d in Dependees(p, wf, n) && (vals[d] || d in queue))
    && (forall n :: n in ListAllIncludingParent(wf) && n !in valid && KnownDependeeTrue(p, wf, valid, vals, n) ==>
          vals'[n] && n in queue)
  }

  /** Once every ID of listAllIncludingParent was visited, Seeded gives Seeding. */
  lemma SeedDone(p: Property, wf: Workflow, valid: set<NodeId>, vals: map<NodeId, bool>,
                 vals': map<NodeId, bool>, queue: seq<NodeId>, done: set<NodeId>)
    requires WellFormed(wf) && Covers(wf, vals)
    requires Seeded(p, wf, valid, vals, vals', queue, done)
    requires forall n :: n in done <==> n in ListAllIncludingParent(wf)
    ensures Seeding(p, wf, valid, vals, vals', queue)
  {
  }

  /** The fold over listAllIncludingParent has every property of Seeding. */
  lemma SeedListSeeding(p: Property, wf: Workflow, valid: set<NodeId>, vals: map<NodeId, bool>)
    requires WellFormed(wf) && Covers(wf, vals)
    ensures var r := SeedList(p, wf, valid, vals, ListAllIncludingParent(wf));
      Seeding(p, wf, valid, vals, r.0, r.1)
  {
    var all := ListAllIncludingParent(wf);
    SeedListSeeded(p, wf, valid, vals, all);
    var r := SeedList(p, wf, valid, vals, all);
    SeedDone(p, wf, valid, vals, r.0, r.1, Members(all));
  }

  /** collectUnknownPropertiesToStartPropagation */
  method CollectUnknownPropertiesToStartPropagation(p: Property, wf: Workflow, valid: set<NodeId>,
                                                    vals: map<NodeId, bool>)
    returns (vals': map<NodeId, bool>, queue: seq<NodeId>)
    requires WellFormed(wf) && Covers(wf, vals)
    ensures (vals', queue) == SeedList(p, wf, valid, vals, ListAllIncludingParent(wf))
    ensures Seeding(p, wf, valid, vals, vals', queue)
  {
    var all := ListAllIncludingParent(wf);
    vals' := vals;
    queue := [];
    for i := 0 to |all|
      invariant (vals', queue) == SeedList(p, wf, valid, vals, all[..i])
    {
      var t := all[i];
      assert all[..i + 1][..i] == all[..i];
      if t !in valid {
        vals', queue := HandleDirectDependees(p, wf, vals', queue, t);
      }
    }
    assert all[..|all|] == all;
    SeedListSeeding(p, wf, valid, vals);
  }

  // ---------------------------------------------------------------------------
  // The worklist phase: propagate.
  // ---------------------------------------------------------------------------

  /** The IDs other than the workflow's own whose value is false. */
  ghost function FalseSet(vals: map<NodeId, bool>, id: NodeId): set<NodeId> {
    set n | n in vals && n != id && !vals[n]
  }

  /** Number of queue entries other than the workflow's own ID. */
  function CountOthers(s: seq<NodeId>, id: NodeId): nat {
    if s == [] then 0 else (if s[0] != id then 1 else 0) + CountOthers(s[1..], id)
  }

  lemma {:induction false} CountOthersConcat(a: seq<NodeId>, b: seq<NodeId>, id: NodeId)
    ensures CountOthers(a + b, id) == CountOthers(a, id) + CountOthers(b, id)
  {
    if a != [] {
      assert (a + b)[1..] == a[1..] + b;
      CountOthersConcat(a[1..], b, id);
    } else {
      assert a + b == b;
    }
  }

  lemma {:induction false} CountOthersNone(s: seq<NodeId>, id: NodeId)
    requires forall k :: 0 <= k < |s| ==> s[k] == id
    ensures CountOthers(s, id) == 0
  {
    if s != [] {
      CountOthersNone(s[1..], id);
    }
  }

  /** The first depender of d (in scan order) is true or is the workflow's own ID. */
  predicate FirstDependerSet(p: Property, wf: Workflow, vals: map<NodeId, bool>, d: NodeId)
    requires WellFormed(wf)
  {
    var ds := Dependers(p, wf, d);
    ds == [] || ds[0] == wf.id || (ds[0] in vals && vals[ds[0]])
  }

  // The invariants of propagate, as named predicates over the initial values
  // vals, the initial queue, the current values vals' and the ghost state.

  /** Values only went from false to true, and never for the workflow's own ID. */
  ghost predicate Grown(wf: Workflow, vals: map<NodeId, bool>, vals': map<NodeId, bool>) {
    && vals'.Keys == vals.Keys
    && (forall n :: n in vals && vals[n] ==> vals'[n])
    && wf.id in vals && vals'[wf.id] == vals[wf.id]
  }

  /** Every queued ID is an endpoint that was queued initially, is the workflow's own ID, or flipped. */
  ghost predicate Pending(wf: Workflow, vals: map<NodeId, bool>, queue: seq<NodeId>,
                          vals': map<NodeId, bool>, q: seq<NodeId>) {
    forall n :: n in q ==> IsEndpoint(wf, n) && (n in queue || n == wf.id || Flipped(vals, vals', n))
  }

  /** Every flipped node is a depender of its recorded support, which was queued initially or flipped. */
  ghost predicate Justified(p: Property, wf: Workflow, vals: map<NodeId, bool>, queue: seq<NodeId>,
                            vals': map<NodeId, bool>, support: map<NodeId, NodeId>)
    requires WellFormed(wf)
  {
    forall n :: Flipped(vals, vals', n) ==>
      n in support && n in Dependers(p, wf, support[n])
      && (support[n] in queue || Flipped(vals, vals', support[n]))
  }

  /** Every processed node has its first depender set. */
  ghost predicate Scanned(p: Property, wf: Workflow, vals': map<NodeId, bool>, processed: set<NodeId>)
    requires WellFormed(wf)
  {
    forall d :: d in processed ==> IsEndpoint(wf, d) && FirstDependerSet(p, wf, vals', d)
  }

  /** Every node queued initially or flipped is processed, still queued, or in `current`. */
  ghost predicate Tracked(vals: map<NodeId, bool>, queue: seq<NodeId>, vals': map<NodeId, bool>,
                          processed: set<NodeId>, q: seq<NodeId>, current: set<NodeId>) {
    forall d :: d in queue || Flipped(vals, vals', d) ==> d in processed || d in q || d in current
  }

  /**
   * One step of propagate's inner loop: the depender `dependee` of `next`
   * becomes true and is queued. The invariants are kept, and unless
   * `dependee` is the workflow's own ID (a no-op) the set of false IDs shrinks.
   */
  lemma FlipStep(p: Property, wf: Workflow, vals: map<NodeId, bool>, queue: seq<NodeId>,
                 mid: map<NodeId, bool>, q: seq<NodeId>, support: map<NodeId, NodeId>,
                 processed: set<NodeId>, next: NodeId, dependee: NodeId)
    requires WellFormed(wf) && Covers(wf, vals)
    requires Grown(wf, vals, mid) && Pending(wf, vals, queue, mid, q)
    requires Justified(p, wf, vals, queue, mid, support) && Scanned(p, wf, mid, processed)
    requires Tracked(vals, queue, mid, processed, q, {next})
    requires next in queue || Flipped(vals, mid, next)
    requires dependee in Dependers(p, wf, next) && !mid[dependee]
    ensures var vals' := SetPropertyValue(wf, mid, dependee, true);
      var support' := if dependee != wf.id then support[dependee := next] else support;
      && Grown(wf, vals, vals') && Pending(wf, vals, queue, vals', q + [dependee])
      && Justified(p, wf, vals, queue, vals', support') && Scanned(p, wf, vals', processed)
      && Tracked(vals, queue, vals', processed, q + [dependee], {next})
      && (forall n :: n in vals && mid[n] ==> vals'[n])
      && FalseSet(vals', wf.id) <= FalseSet(mid, wf.id)
      && (dependee != wf.id ==> FalseSet(vals', wf.id) != FalseSet(mid, wf.id))
      && (dependee == wf.id ==> vals' == mid)
  {
    var vals' := SetPropertyValue(wf, mid, dependee, true);
    if dependee != wf.id {
      assert dependee in FalseSet(mid, wf.id) && dependee !in FalseSet(vals', wf.id);
      forall d | d in processed ensures FirstDependerSet(p, wf, vals', d) {
        assert FirstDependerSet(p, wf, mid, d);
      }
    }
  }

  /** The position of the first ID in ds whose value is true; |ds| when there is none. */
  function FirstTrue(ds: seq<NodeId>, vals: map<NodeId, bool>): (j: nat)
    requires forall x :: x in ds ==> x in vals
    ensures j <= |ds|
    ensures forall k :: 0 <= k < j ==> !vals[ds[k]]
    ensures j < |ds| ==> vals[ds[j]]
  {
    if ds == [] then 0 else if vals[ds[0]] then 0 else 1 + FirstTrue(ds[1..], vals)
  }

  /** vals after setPropertyValue(x, true) for every x of ds, in order. */
  function SetAll(wf: Workflow, vals: map<NodeId, bool>, ds: seq<NodeId>): (r: map<NodeId, bool>)
    requires forall x :: x in ds ==> x in vals
    ensures r.Keys == vals.Keys
    ensures forall n :: n in vals ==> r[n] == if n in ds && n != wf.id then true else vals[n]
  {
    if ds == [] then vals
    else SetPropertyValue(wf, SetAll(wf, vals, ds[..|ds| - 1]), ds[|ds| - 1], true)
  }

  /**
   * After scanning i dependers of ds: none of them was true, each one was
   * queued, and each one other than the workflow's own ID was set to true.
   */
  ghost predicate ScanPrefix(wf: Workflow, ds: seq<NodeId>, vals0: map<NodeId, bool>, q0: seq<NodeId>,
                             vals': map<NodeId, bool>, q: seq<NodeId>, i: nat)
    requires forall x :: x in ds ==> x in vals0
  {
    && i <= |ds|
    && (forall k :: 0 <= k < i ==> !vals0[ds[k]])
    && q == q0 + ds[..i] && vals' == SetAll(wf, vals0, ds[..i])
  }

  lemma ScanNext(wf: Workflow, ds: seq<NodeId>, vals0: map<NodeId, bool>, q0: seq<NodeId>,
                 vals': map<NodeId, bool>, q: seq<NodeId>, i: nat)
    requires NoDuplicates(ds) && forall x :: x in ds ==> x in vals0
    requires ScanPrefix(wf, ds, vals0, q0, vals', q, i) && i < |ds|
    ensures vals'[ds[i]] == vals0[ds[i]]
    ensures !vals'[ds[i]] ==>
      ScanPrefix(wf, ds, vals0, q0, SetPropertyValue(wf, vals', ds[i], true), q + [ds[i]], i + 1)
    ensures vals'[ds[i]] ==> i == FirstTrue(ds, vals0)
  {
    assert ds[i] !in ds[..i];
    assert ds[..i + 1][..i] == ds[..i];
  }

  /**
   * The invariants of propagate's for-loop over the dependers of `next`,
   * after i of them were scanned from the values vals0 and the queue q0.
   */
  ghost predicate VisitInv(p: Property, wf: Workflow, vals: map<NodeId, bool>, queue: seq<NodeId>,
                           vals0: map<NodeId, bool>, q0: seq<NodeId>, next: NodeId, processed: set<NodeId>,
                           vals': map<NodeId, bool>, q: seq<NodeId>, support: map<NodeId, NodeId>, i: nat)
    requires WellFormed(wf) && Covers(wf, vals0)
  {
    && ScanPrefix(wf, Dependers(p, wf, next), vals0, q0, vals', q, i)
    && Grown(wf, vals, vals') && Pending(wf, vals, queue, vals', q)
    && Justified(p, wf, vals, queue, vals', support) && Scanned(p, wf, vals', processed)
    && Tracked(vals, queue, vals', processed, q, {next})
    && (forall n :: n in vals && n in vals0 && vals0[n] ==> vals'[n])
    && (next in queue || next == wf.id || Flipped(vals, vals', next))
    && (i > 0 ==> FirstDependerSet(p, wf, vals', next))
    && FalseSet(vals', wf.id) <= FalseSet(vals0, wf.id)
    && (FalseSet(vals', wf.id) == FalseSet(vals0, wf.id) ==> CountOthers(q, wf.id) == CountOthers(q0, wf.id))
  }

  /** When the scan of `next`'s dependers stops, VisitInv gives everything VisitDependers promises. */
  lemma VisitExit(p: Property, wf: Workflow, vals: map<NodeId, bool>, queue: seq<NodeId>,
                  vals0: map<NodeId, bool>, q0: seq<NodeId>, next: NodeId, processed: set<NodeId>,
                  vals': map<NodeId, bool>, q: seq<NodeId>, support: map<NodeId, NodeId>, i: nat)
    requires WellFormed(wf) && Covers(wf, vals0) && IsEndpoint(wf, next)
    requires VisitInv(p, wf, vals, queue, vals0, q0, next, processed, vals', q, support, i)
    requires i == |Dependers(p, wf, next)| || (Dependers(p, wf, next)[i] in vals' && vals'[Dependers(p, wf, next)[i]])
    ensures Grown(wf, vals, vals') && Pending(wf, vals, queue, vals', q)
    ensures Justified(p, wf, vals, queue, vals', support) && Scanned(p, wf, vals', processed)
    ensures Tracked(vals, queue, vals', processed, q, {next})
    ensures FirstDependerSet(p, wf, vals', next)
    ensures FalseSet(vals', wf.id) <= FalseSet(vals0, wf.id)
    ensures FalseSet(vals', wf.id) == FalseSet(vals0, wf.id) ==> CountOthers(q, wf.id) == CountOthers(q0, wf.id)
    ensures var ds := Dependers(p, wf, next);
      var j := FirstTrue(ds, vals0);
      q == q0 + ds[..j] && vals' == SetAll(wf, vals0, ds[..j])
  {
    var ds := Dependers(p, wf, next);
    if i < |ds| {
      ScanNext(wf, ds, vals0, q0, vals', q, i);
    }
  }

  /** Before any depender of `next` is visited, the propagation invariants give VisitInv. */
  lemma VisitStart(p: Property, wf: Workflow, vals: map<NodeId, bool>, queue: seq<NodeId>,
                   vals0: map<NodeId, bool>, q0: seq<NodeId>, next: NodeId, processed: set<NodeId>,
                   support0: map<NodeId, NodeId>)
    requires WellFormed(wf) && Covers(wf, vals) && IsEndpoint(wf, next)
    requires Grown(wf, vals, vals0) && Pending(wf, vals, queue, vals0, q0)
    requires Justified(p, wf, vals, queue, vals0, support0) && Scanned(p, wf, vals0, processed)
    requires Tracked(vals, queue, vals0, processed, q0, {next})
    requires next in queue || next == wf.id || Flipped(vals, vals0, next)
    ensures Covers(wf, vals0)
    ensures VisitInv(p, wf, vals, queue, vals0, q0, next, processed, vals0, q0, support0, 0)
  {
    assert Dependers(p, wf, next)[..0] == [];
  }

  /**
   * Visiting the dependers of `next` from the i-th on, up to the first one that was true
   * before the visit, reaches the state VisitDependers promises.
   */
  lemma VisitFrom(p: Property, wf: Workflow, vals: map<NodeId, bool>, queue: seq<NodeId>,
                  vals0: map<NodeId, bool>, q0: seq<NodeId>, next: NodeId, processed: set<NodeId>,
                  vals': map<NodeId, bool>, q: seq<NodeId>, support: map<NodeId, NodeId>, i: nat)
    returns (vals'': map<NodeId, bool>, q'': seq<NodeId>, support'': map<NodeId, NodeId>)
    requires WellFormed(wf) && Covers(wf, vals) && Covers(wf, vals0) && IsEndpoint(wf, next)
    requires VisitInv(p, wf, vals, queue, vals0, q0, next, processed, vals', q, support, i)
    requires i <= FirstTrue(Dependers(p, wf, next), vals0)
    ensures Grown(wf, vals, vals'') && Pending(wf, vals, queue, vals'', q'')
    ensures Justified(p, wf, vals, queue, vals'', support'') && Scanned(p, wf, vals'', processed)
    ensures Tracked(vals, queue, vals'', processed, q'', {next})
    ensures FirstDependerSet(p, wf, vals'', next)
    ensures FalseSet(vals'', wf.id) <= FalseSet(vals0, wf.id)
    ensures FalseSet(vals'', wf.id) == FalseSet(vals0, wf.id) ==> CountOthers(q'', wf.id) == CountOthers(q0, wf.id)
    ensures var ds := Dependers(p, wf, next);
      var j := FirstTrue(ds, vals0);
      q'' == q0 + ds[..j] && vals'' == SetAll(wf, vals0, ds[..j])
    decreases |Dependers(p, wf, next)| - i
  {
    var ds := Dependers(p, wf, next);
    if i == FirstTrue(ds, vals0) {
      VisitExit(p, wf, vals, queue, vals0, q0, next, processed, vals', q, support, i);
      vals'', q'', support'' := vals', q, support;
    } else {
      ScanNext(wf, ds, vals0, q0, vals', q, i);
      var vals2, q2, support2 := VisitStep(p, wf, vals, queue, vals0, q0, next, processed, vals', q, support, i);
      vals'', q'', support'' := VisitFrom(p, wf, vals, queue, vals0, q0, next, processed, vals2, q2, support2, i + 1);
    }
  }

  /** Setting the i-th depender of `next`, which is false, to true and queueing it keeps VisitInv. */
  lemma VisitStep(p: Property, wf: Workflow, vals: map<NodeId, bool>, queue: seq<NodeId>,
                  vals0: map<NodeId, bool>, q0: seq<NodeId>, next: NodeId, processed: set<NodeId>,
                  vals': map<NodeId, bool>, q: seq<NodeId>, support: map<NodeId, NodeId>, i: nat)
    returns (vals'': map<NodeId, bool>, q'': seq<NodeId>, support'': map<NodeId, NodeId>)
    requires WellFormed(wf) && Covers(wf, vals) && Covers(wf, vals0) && IsEndpoint(wf, next)
    requires VisitInv(p, wf, vals, queue, vals0, q0, next, processed, vals', q, support, i)
    requires i < |Dependers(p, wf, next)| && Dependers(p, wf, next)[i] in vals' && !vals'[Dependers(p, wf, next)[i]]
    ensures var dependee := Dependers(p, wf, next)[i];
      && vals'' == SetPropertyValue(wf, vals', dependee, true) && q'' == q + [dependee]
      && support'' == if dependee != wf.id then support[dependee := next] else support
    ensures VisitInv(p, wf, vals, queue, vals0, q0, next, processed, vals'', q'', support'', i + 1)
  {
    var dependee := Dependers(p, wf, next)[i];
    vals'', q'' := SetPropertyValue(wf, vals', dependee, true), q + [dependee];
    support'' := if dependee != wf.id then support[dependee := next] else support;
    ScanNext(wf, Dependers(p, wf, next), vals0, q0, vals', q, i);
    assert next != wf.id;
    FlipStep(p, wf, vals, queue, vals', q, support, processed, next, dependee);
    CountOthersConcat(q, [dependee], wf.id);
    assert CountOthers([dependee], wf.id) == if dependee != wf.id then 1 else 0;
  }

  /**
   * The for-loop of propagate for one polled node `next`: scans next's
   * dependers in order, stops at the first one already true, and sets each
   * one before it to true and appends it to the queue.
   */
  method VisitDependers(p: Property, wf: Workflow, vals0: map<NodeId, bool>, q0: seq<NodeId>, next: NodeId)
    returns (vals': map<NodeId, bool>, q: seq<NodeId>)
    requires WellFormed(wf) && Covers(wf, vals0) && IsEndpoint(wf, next)
    ensures var ds := Dependers(p, wf, next);
      var j := FirstTrue(ds, vals0);
      q == q0 + ds[..j] && vals' == SetAll(wf, vals0, ds[..j])
  {
    var dependers := Dependers(p, wf, next);
    vals', q := vals0, q0;
    var i := 0;
    assert dependers[..0] == [];
    while i < |dependers|
      invariant ScanPrefix(wf, dependers, vals0, q0, vals', q, i)
    {
      var dependee := dependers[i];
      ScanNext(wf, dependers, vals0, q0, vals', q, i);
      if vals'[dependee] {
        break;
      }
      vals' := SetPropertyValue(wf, vals', dependee, true);
      q := q + [dependee];
      i := i + 1;
    }
    assert i == FirstTrue(dependers, vals0);
  }

  /**
   * The values propagate ends with, from the values vals and the queue: poll
   * the head, set its dependers before the first true one to true and queue
   * them, and go on until the queue is empty.
   */
  function Drained(p: Property, wf: Workflow, vals: map<NodeId, bool>, queue: seq<NodeId>): (r: map<NodeId, bool>)
    requires WellFormed(wf) && Covers(wf, vals) && forall n :: n in queue ==> IsEndpoint(wf, n)
    ensures r.Keys == vals.Keys
    decreases FalseSet(vals, wf.id), CountOthers(queue, wf.id), |queue|
  {
    if queue == [] then vals
    else
      var ds := Dependers(p, wf, queue[0]);
      var j := FirstTrue(ds, vals);
      PollDecreases(p, wf, vals, queue);
      Drained(p, wf, SetAll(wf, vals, ds[..j]), queue[1..] + ds[..j])
  }

  /**
   * One poll of propagate lowers, lexicographically, the set of false IDs,
   * the number of queued IDs other than the workflow's own, and the queue
   * length: so propagate terminates.
   */
  lemma PollDecreases(p: Property, wf: Workflow, vals: map<NodeId, bool>, queue: seq<NodeId>)
    requires WellFormed(wf) && Covers(wf, vals) && queue != [] && forall n :: n in queue ==> IsEndpoint(wf, n)
    ensures var ds := Dependers(p, wf, queue[0]);
      var j := FirstTrue(ds, vals);
      var vals' := SetAll(wf, vals, ds[..j]);
      var q := queue[1..] + ds[..j];
      && FalseSet(vals', wf.id) <= FalseSet(vals, wf.id)
      && (FalseSet(vals', wf.id) == FalseSet(vals, wf.id) ==>
            || CountOthers(q, wf.id) < CountOthers(queue, wf.id)
            || (CountOthers(q, wf.id) == CountOthers(queue, wf.id) && |q| < |queue|))
  {
    var next := queue[0];
    var ds := Dependers(p, wf, next);
    var j := FirstTrue(ds, vals);
    var vals' := SetAll(wf, vals, ds[..j]);
    CountOthersConcat(queue[1..], ds[..j], wf.id);
    if k :| 0 <= k < j && ds[k] != wf.id {
      assert ds[k] in FalseSet(vals, wf.id) && ds[k] !in FalseSet(vals', wf.id);
    } else if next == wf.id {
      assert ds == [];
    } else {
      CountOthersNone(ds[..j], wf.id);
    }
  }

  /**
   * From any state that satisfies propagate's invariants, draining the rest of
   * the queue ends in values that meet Propagation.
   */
  lemma {:induction false} DrainedFrom(p: Property, wf: Workflow, vals: map<NodeId, bool>, queue: seq<NodeId>,
                                       vals': map<NodeId, bool>, q: seq<NodeId>,
                                       support: map<NodeId, NodeId>, processed: set<NodeId>)
    requires WellFormed(wf) && Covers(wf, vals) && Covers(wf, vals')
    requires forall n :: n in queue ==> IsEndpoint(wf, n)
    requires forall n :: n in q ==> IsEndpoint(wf, n)
    requires Grown(wf, vals, vals') && Pending(wf, vals, queue, vals', q)
    requires Justified(p, wf, vals, queue, vals', support) && Scanned(p, wf, vals', processed)
    requires Tracked(vals, queue, vals', processed, q, {})
    requires queue == [] ==> q == [] && vals' == vals
    ensures Propagation(p, wf, vals, queue, Drained(p, wf, vals', q))
    decreases FalseSet(vals', wf.id), CountOthers(q, wf.id), |q|
  {
    if q != [] {
      var next := q[0];
      assert q == [next] + q[1..];
      VisitStart(p, wf, vals, queue, vals', q[1..], next, processed, support);
      var vals2, q2, support2 := VisitFrom(p, wf, vals, queue, vals', q[1..], next, processed, vals', q[1..], support, 0);
      PollDecreases(p, wf, vals', q);
      DrainedFrom(p, wf, vals, queue, vals2, q2, support2, processed + {next});
    }
  }

  /** Drained meets Propagation. */
  lemma DrainedPropagation(p: Property, wf: Workflow, vals: map<NodeId, bool>, queue: seq<NodeId>)
    requires WellFormed(wf) && Covers(wf, vals) && forall n :: n in queue ==> IsEndpoint(wf, n)
    ensures Propagation(p, wf, vals, queue, Drained(p, wf, vals, queue))
  {
    DrainedFrom(p, wf, vals, queue, vals, queue, map[], {});
  }

  /**
   * What propagate promises, from the seeded values vals and the queue to the
   * final values vals'. Values only go from false to true, the workflow's own
   * value never changes, every node that became true is a depender of a node
   * that was queued or became true itself, every node that was queued or
   * became true has its first depender true (or that depender is the
   * workflow's own ID), and an empty queue changes nothing.
   */
  ghost predicate Propagation(p: Property, wf: Workflow, vals: map<NodeId, bool>, queue: seq<NodeId>,
                              vals': map<NodeId, bool>)
    requires WellFormed(wf) && Covers(wf, vals)
  {
    && vals'.Keys == vals.Keys
    && (forall n :: n in vals && vals[n] ==> vals'[n])
    && vals'[wf.id] == vals[wf.id]
    && (forall n :: Flipped(vals, vals', n) ==>
          exists d :: n in Dependers(p, wf, d) && (d in queue || Flipped(vals, vals', d)))
    && (forall d :: d in queue || Flipped(vals, vals', d) ==> FirstDependerSet(p, wf, vals', d))
    && (queue == [] ==> vals' == vals)
  }

  /**
   * propagate: drains the queue; for each polled node it scans the dependers,
   * stops at the first one that is already true, and sets each one before it
   * to true and queues it.
   */
  method Propagate(p: Property, wf: Workflow, vals: map<NodeId, bool>, queue: seq<NodeId>)
    returns (vals': map<NodeId, bool>)
    requires WellFormed(wf) && Covers(wf, vals)
    requires forall n :: n in queue ==> IsEndpoint(wf, n)
    ensures vals' == Drained(p, wf, vals, queue)
    ensures Propagation(p, wf, vals, queue, vals')
  {
    vals' := vals;
    var q := queue;
    while q != []
      invariant Covers(wf, vals') && forall n :: n in q ==> IsEndpoint(wf, n)
      invariant Drained(p, wf, vals', q) == Drained(p, wf, vals, queue)
      decreases FalseSet(vals', wf.id), CountOthers(q, wf.id), |q|
    {
      PollDecreases(p, wf, vals', q);
      var next := q[0];
      vals', q := VisitDependers(p, wf, vals', q[1..], next);
    }
    DrainedPropagation(p, wf, vals, queue);
  }

  // ---------------------------------------------------------------------------
  // The cache object.
  // ---------------------------------------------------------------------------

  /** Every record of b has one in a with the same two property values. */
  predicate SameValues(a: map<NodeId, Properties>, b: map<NodeId, Properties>) {
    forall n :: n in b ==>
      && n in a
      && b[n].hasExecutablePredecessors == a[n].hasExecutablePredecessors
      && b[n].hasExecutingSuccessors == a[n].hasExecutingSuccessors
  }

  lemma SameValuesTrans(a: map<NodeId, Properties>, b: map<NodeId, Properties>, c: map<NodeId, Properties>)
    requires SameValues(a, b) && SameValues(b, c)
    ensures SameValues(a, c)
  {
  }

  /**
   * initParentProperties reports a reset for a metanode's or component's
   * workflow when the parent record is invalid or either parent-derived value
   * differs from the stored one; never for a project or component project.
   */
  predicate ParentReset(wf: Workflow, props: map<NodeId, Properties>)
    requires wf.id in props
  {
    && !wf.kind.IsProjectOrComponentProject()
    && (|| !props[wf.id].valid
        || props[wf.id].hasExecutablePredecessors != wf.parentHasExecutablePredecessor
        || props[wf.id].hasExecutingSuccessors != wf.parentHasSuccessorInProgress)
  }

  /** StateChanged looks only at the records of contained nodes. */
  lemma StateChangedFrame(wf: Workflow, a: map<NodeId, Properties>, b: map<NodeId, Properties>)
    requires forall n :: n in wf.nodes ==> n in wf.state
    requires forall n :: n in wf.nodes ==> (n in a <==> n in b) && (n in a ==> a[n].nodeState == b[n].nodeState)
    ensures StateChanged(wf, a) <==> StateChanged(wf, b)
  {
  }

  /**
   * The pruning guard of update(): whether or not it fires, a map with a
   * record for every contained node and the workflow's own ends up with
   * exactly those records, unchanged.
   */
  lemma PruneIfSurplus(wf: Workflow, p2: map<NodeId, Properties>, p3: map<NodeId, Properties>)
    requires WellFormed(wf) && Covers(wf, p2)
    requires p3 == if |p2| > |wf.nodes| + 1 then RemoveSurplusNodes(wf, p2) else p2
    ensures p3.Keys == NodeSet(wf) + {wf.id}
    ensures forall n :: n in p3 ==> n in p2 && p2[n] == p3[n]
  {
    SurplusGuardExact(wf, p2);
  }

  /**
   * The records after the reconciliation steps of update(): p1 is p0 with the
   * parent record updated, p2 is p1 after initAndResetNodeProperties, p3 is p2
   * after the pruning guard. Then every contained node's record is for its
   * current state and valid iff that state is unchanged since p0, and the
   * node reset flag reports whether any node's state changed since p0.
   */
  lemma Reconciliation(wf: Workflow, p0: map<NodeId, Properties>, p1: map<NodeId, Properties>,
                       p2: map<NodeId, Properties>, p3: map<NodeId, Properties>, nodesReset: bool)
    requires WellFormed(wf)
    requires p1.Keys == p0.Keys && forall n :: n in p1 && n != wf.id ==> p1[n] == p0[n]
    requires NodeSet(wf) <= p2.Keys && forall n :: n in wf.nodes ==> p2[n] == Reconciled(p1, n, wf.state[n])
    requires nodesReset <==> StateChanged(wf, p1)
    requires NodeSet(wf) <= p3.Keys && forall n :: n in p3 ==> n in p2 && p2[n] == p3[n]
    ensures forall n :: n in wf.nodes ==>
      && p3[n] == Reconciled(p0, n, wf.state[n])
      && p3[n].nodeState == Some(wf.state[n])
      && (p3[n].valid <==> n in p0 && p0[n].nodeState == Some(wf.state[n]))
    ensures nodesReset <==> StateChanged(wf, p0)
  {
    StateChangedFrame(wf, p0, p1);
    forall n | n in wf.nodes
      ensures p3[n] == Reconciled(p0, n, wf.state[n])
      ensures p3[n].nodeState == Some(wf.state[n])
      ensures p3[n].valid <==> n in p0 && p0[n].nodeState == Some(wf.state[n])
    {
      assert n != wf.id && p3[n] == Reconciled(p1, n, wf.state[n]);
    }
  }

  /**
   * When neither the parent nor any node was reset, the reconciliation steps
   * change no value and leave every record valid.
   */
  lemma QuietReconciliation(wf: Workflow, p0: map<NodeId, Properties>, p1: map<NodeId, Properties>,
                            p2: map<NodeId, Properties>, p3: map<NodeId, Properties>)
    requires WellFormed(wf) && wf.id in p0
    requires p1.Keys == p0.Keys && forall n :: n in p1 && n != wf.id ==> p1[n] == p0[n]
    requires !ParentReset(wf, p0)
    requires wf.kind.IsProjectOrComponentProject() ==> p1[wf.id] == p0[wf.id].SetValid()
    requires !wf.kind.IsProjectOrComponentProject() ==> p1[wf.id] == p0[wf.id]
    requires p2.Keys == p1.Keys + NodeSet(wf)
    requires forall n :: n in p1 && n !in wf.nodes ==> p2[n] == p1[n]
    requires forall n :: n in wf.nodes ==> p2[n] == Reconciled(p1, n, wf.state[n])
    requires !StateChanged(wf, p1)
    requires forall n :: n in p3 ==> n in p2 && p2[n] == p3[n]
    requires p3.Keys <= NodeSet(wf) + {wf.id}
    ensures SameValues(p0, p3)
    ensures forall n :: n in p3 ==> p3[n].valid
  {
    assert SameValues(p0, p1);
    assert SameValues(p1, p2);
    SameValuesTrans(p0, p1, p2);
  }

  /** Changing the values of the two properties leaves keys, node states and validity alone. */
  lemma ValueUpdatesKeepRecords(a: map<NodeId, Properties>, b: map<NodeId, Properties>, c: map<NodeId, Properties>)
    requires OnlyValueChanged(ExecutablePredecessors, a, b) && OnlyValueChanged(ExecutingSuccessors, b, c)
    ensures c.Keys == a.Keys
    ensures forall n :: n in a ==> c[n].nodeState == a[n].nodeState && c[n].valid == a[n].valid
  {
  }

  /**
   * One recomputation of property p from the records `before`, as
   * updateHasExecutablePredecessorsProperties and
   * updateHasExecutingSuccessorsProperties do it: seed over
   * listAllIncludingParent, then drain the queue.
   */
  function Recompute(p: Property, wf: Workflow, before: map<NodeId, Properties>): (r: map<NodeId, bool>)
    requires WellFormed(wf) && Covers(wf, before)
    ensures r.Keys == before.Keys
  {
    var seeded := SeedList(p, wf, ValidIds(before), ValuesOf(p, before), ListAllIncludingParent(wf));
    Drained(p, wf, seeded.0, seeded.1)
  }

  /**
   * The recomputation seeds as Seeding says and propagates as Propagation
   * says; in particular a valid record that was true stays true.
   */
  lemma RecomputeMeetsSpec(p: Property, wf: Workflow, before: map<NodeId, Properties>)
    requires WellFormed(wf) && Covers(wf, before)
    ensures var seeded := SeedList(p, wf, ValidIds(before), ValuesOf(p, before), ListAllIncludingParent(wf));
      && Seeding(p, wf, ValidIds(before), ValuesOf(p, before), seeded.0, seeded.1)
      && Propagation(p, wf, seeded.0, seeded.1, Recompute(p, wf, before))
    ensures forall n :: n in before && before[n].valid && Value(p, before[n]) ==> Recompute(p, wf, before)[n]
  {
    var valid, vals := ValidIds(before), ValuesOf(p, before);
    SeedListSeeding(p, wf, valid, vals);
    var seeded := SeedList(p, wf, valid, vals, ListAllIncludingParent(wf));
    DrainedPropagation(p, wf, seeded.0, seeded.1);
  }

  /** Reading property p's values back after writing them gives the values written. */
  lemma ValuesOfWriteBack(p: Property, props: map<NodeId, Properties>, vals: map<NodeId, bool>)
    requires props.Keys == vals.Keys
    ensures ValuesOf(p, WriteBack(p, props, vals)) == vals
  {
    var r := ValuesOf(p, WriteBack(p, props, vals));
    assert r.Keys == vals.Keys;
  }

  /** Changing only property p's values leaves the validity flags and the other property's values alone. */
  lemma OtherValuesKept(p: Property, q: Property, a: map<NodeId, Properties>, b: map<NodeId, Properties>)
    requires OnlyValueChanged(p, a, b) && p != q
    ensures ValidIds(b) == ValidIds(a)
    ensures ValuesOf(q, b) == ValuesOf(q, a)
  {
  }

  /**
   * Recomputing the first property and then the second from its result is
   * recomputing each from the records both started from: neither pass reads
   * or writes what the other one computes.
   */
  lemma RecomputedBoth(wf: Workflow, before: map<NodeId, Properties>, mid: map<NodeId, Properties>,
                       after: map<NodeId, Properties>)
    requires WellFormed(wf) && Covers(wf, before)
    requires OnlyValueChanged(ExecutablePredecessors, before, mid) && OnlyValueChanged(ExecutingSuccessors, mid, after)
    requires ValuesOf(ExecutablePredecessors, mid) == Recompute(ExecutablePredecessors, wf, before)
    requires ValuesOf(ExecutingSuccessors, after) == Recompute(ExecutingSuccessors, wf, mid)
    ensures ValuesOf(ExecutablePredecessors, after) == Recompute(ExecutablePredecessors, wf, before)
    ensures ValuesOf(ExecutingSuccessors, after) == Recompute(ExecutingSuccessors, wf, before)
  {
    OtherValuesKept(ExecutingSuccessors, ExecutablePredecessors, mid, after);
    OtherValuesKept(ExecutablePredecessors, ExecutingSuccessors, before, mid);
  }

  /**
   * When every listed record is valid, a recomputation queues nothing and
   * changes no value: skipping it, as update() does without a reset, loses
   * nothing.
   */
  lemma QuietRecomputation(p: Property, wf: Workflow, before: map<NodeId, Properties>)
    requires WellFormed(wf) && Covers(wf, before)
    requires forall n :: n in ListAllIncludingParent(wf) ==> before[n].valid
    ensures SeedList(p, wf, ValidIds(before), ValuesOf(p, before), ListAllIncludingParent(wf)).1 == []
    ensures Recompute(p, wf, before) == ValuesOf(p, before)
  {
    var valid, vals := ValidIds(before), ValuesOf(p, before);
    SeedListSeeding(p, wf, valid, vals);
    var seeded := SeedList(p, wf, valid, vals, ListAllIncludingParent(wf));
    forall n | n in ListAllIncludingParent(wf)
      ensures n in valid
    {
      assert n in before && before[n].valid;
    }
    assert Members(seeded.1) == {};
    NodeSetSize(seeded.1);
    assert forall n :: n in vals ==> seeded.0[n] == vals[n];
    assert seeded.0 == vals;
  }

  class DependentNodeProperties {
    /** The ID of the workflow manager whose nodes this cache is for. */
    const workflowId: NodeId

    /** m_props: all nodes of the level and the workflow's own (parent) record. */
    var props: map<NodeId, Properties>

    ghost predicate Valid()
      reads this
    {
      workflowId in props
    }

    /** Holds the parent record, fresh and invalid, under the workflow's own ID. */
    constructor (workflowId: NodeId)
      ensures Valid() && this.workflowId == workflowId
      ensures props == map[workflowId := NewProperties(None)]
    {
      this.workflowId := workflowId;
      props := map[workflowId := NewProperties(None)];
    }

    /**
     * initParentProperties: for a project or component project the parent
     * record is marked valid and there is no reset; otherwise both
     * parent-derived values are stored, and on a reset the record is
     * invalidated (so for these levels it never becomes valid again).
     */
    method InitParentProperties(wf: Workflow) returns (reset: bool)
      requires Valid() && wf.id == workflowId
      modifies this
      ensures Valid() && props.Keys == old(props).Keys
      ensures forall n :: n in props && n != workflowId ==> props[n] == old(props)[n]
      ensures reset == ParentReset(wf, old(props))
      ensures wf.kind.IsProjectOrComponentProject() ==> props[workflowId] == old(props)[workflowId].SetValid()
      ensures !wf.kind.IsProjectOrComponentProject() ==>
        && props[workflowId].hasExecutablePredecessors == wf.parentHasExecutablePredecessor
        && props[workflowId].hasExecutingSuccessors == wf.parentHasSuccessorInProgress
        && (reset ==> props[workflowId].nodeState == None && !props[workflowId].valid)
        && (!reset ==> props[workflowId] == old(props)[workflowId])
    {
      if wf.kind.IsProjectOrComponentProject() {
        props := props[workflowId := props[workflowId].SetValid()];
        return false;
      }
      var parent := props[workflowId];
      reset := !parent.valid
        || wf.parentHasExecutablePredecessor != parent.hasExecutablePredecessors
        || wf.parentHasSuccessorInProgress != parent.hasExecutingSuccessors;
      parent := parent.(hasExecutablePredecessors := wf.parentHasExecutablePredecessor);
      parent := parent.(hasExecutingSuccessors := wf.parentHasSuccessorInProgress);
      if reset {
        parent := parent.Invalidate(None);
      }
      props := props[workflowId := parent];
    }

    /**
     * updateHasExecutablePredecessorsProperties /
     * updateHasExecutingSuccessorsProperties: seed, then propagate. Only the
     * property's own values change, the parent record stays as it is, and a
     * valid record that was true stays true. The new values are those
     * Recompute gives.
     */
    method UpdateProperty(p: Property, wf: Workflow)
      requires Valid() && WellFormed(wf) && wf.id == workflowId && Covers(wf, props)
      modifies this
      ensures Valid() && OnlyValueChanged(p, old(props), props)
      ensures props[workflowId] == old(props)[workflowId]
      ensures forall n :: n in props && old(props)[n].valid && Value(p, old(props)[n]) ==> Value(p, props[n])
      ensures ValuesOf(p, props) == Recompute(p, wf, old(props))
    {
      var vals0, q0 := CollectUnknownPropertiesToStartPropagation(p, wf, ValidIds(props), ValuesOf(p, props));
      var vals := Propagate(p, wf, vals0, q0);
      RecomputeMeetsSpec(p, wf, props);
      ValuesOfWriteBack(p, props, vals);
      props := WriteBack(p, props, vals);
    }

    /**
     * The reconciliation steps of update(): initParentProperties,
     * initAndResetNodeProperties and the pruning guard. Afterwards there is
     * exactly one record per contained node plus the workflow's own, each for
     * the node's current state; the result reports whether the parent or any
     * node was reset, and without a reset every record is valid and no value
     * changed.
     */
    method Reconcile(wf: Workflow) returns (reset: bool)
      requires Valid() && WellFormed(wf) && wf.id == workflowId
      modifies this
      ensures Valid()
      ensures props.Keys == NodeSet(wf) + {workflowId}
      ensures forall n :: n in wf.nodes ==>
        && props[n] == Reconciled(old(props), n, wf.state[n])
        && props[n].nodeState == Some(wf.state[n])
        && (props[n].valid <==> n in old(props) && old(props)[n].nodeState == Some(wf.state[n]))
      ensures wf.kind.IsProjectOrComponentProject() ==> props[workflowId] == old(props)[workflowId].SetValid()
      ensures !wf.kind.IsProjectOrComponentProject() ==>
        && props[workflowId].hasExecutablePredecessors == wf.parentHasExecutablePredecessor
        && props[workflowId].hasExecutingSuccessors == wf.parentHasSuccessorInProgress
        && (ParentReset(wf, old(props)) ==> props[workflowId].nodeState == None && !props[workflowId].valid)
        && (!ParentReset(wf, old(props)) ==> props[workflowId] == old(props)[workflowId])
      ensures reset <==> ParentReset(wf, old(props)) || StateChanged(wf, old(props))
      ensures !reset ==> SameValues(old(props), props) && forall n :: n in props ==> props[n].valid
    {
      ghost var p0 := props;
      reset := InitParentProperties(wf);
      ghost var parentReset, p1 := reset, props;
      var nodesReset;
      props, nodesReset := InitAndResetNodeProperties(wf, props);
      ghost var p2 := props;
      reset := reset || nodesReset;
      if |props| > |wf.nodes| + 1 {
        props := RemoveSurplusNodes(wf, props);
      }
      PruneIfSurplus(wf, p2, props);
      Reconciliation(wf, p0, p1, p2, props, nodesReset);
      if !parentReset && !nodesReset {
        QuietReconciliation(wf, p0, p1, p2, props);
      }
    }

    /**
     * update(): reconcile the records with the current nodes, and recompute
     * both properties only when some record was reset. The ghost results say
     * whether it recomputed and name the reconciled records, which both
     * recomputations start from.
     */
    method Update(wf: Workflow) returns (ghost recomputed: bool, ghost reconciled: map<NodeId, Properties>)
      requires Valid() && WellFormed(wf) && wf.id == workflowId
      modifies this
      ensures Valid()
      ensures reconciled.Keys == NodeSet(wf) + {workflowId}
      ensures forall n :: n in wf.nodes ==>
        && reconciled[n] == Reconciled(old(props), n, wf.state[n])
        && reconciled[n].nodeState == Some(wf.state[n])
        && (reconciled[n].valid <==> n in old(props) && old(props)[n].nodeState == Some(wf.state[n]))
      ensures wf.kind.IsProjectOrComponentProject() ==> reconciled[workflowId] == old(props)[workflowId].SetValid()
      ensures !wf.kind.IsProjectOrComponentProject() ==>
        && reconciled[workflowId].hasExecutablePredecessors == wf.parentHasExecutablePredecessor
        && reconciled[workflowId].hasExecutingSuccessors == wf.parentHasSuccessorInProgress
        && (ParentReset(wf, old(props)) ==> reconciled[workflowId].nodeState == None && !reconciled[workflowId].valid)
        && (!ParentReset(wf, old(props)) ==> reconciled[workflowId] == old(props)[workflowId])
      ensures recomputed <==> ParentReset(wf, old(props)) || StateChanged(wf, old(props))
      ensures !recomputed ==>
        && props == reconciled && SameValues(old(props), props)
        && forall n :: n in props ==> props[n].valid
      ensures recomputed ==>
        && props.Keys == reconciled.Keys && props[workflowId] == reconciled[workflowId]
        && (forall n :: n in props ==> props[n].nodeState == reconciled[n].nodeState && props[n].valid == reconciled[n].valid)
        && ValuesOf(ExecutablePredecessors, props) == Recompute(ExecutablePredecessors, wf, reconciled)
        && ValuesOf(ExecutingSuccessors, props) == Recompute(ExecutingSuccessors, wf, reconciled)
    {
      var reset := Reconcile(wf);
      recomputed, reconciled := reset, props;
      if reset {
        UpdateProperty(ExecutablePredecessors, wf);
        ghost var mid := props;
        UpdateProperty(ExecutingSuccessors, wf);
        ValueUpdatesKeepRecords(reconciled, mid, props);
        RecomputedBoth(wf, reconciled, mid, props);
      }
    }
  }
}
