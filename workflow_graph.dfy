/**
 * The part of a KNIME WorkflowManager that the dependent-node-property cache reads:
 * a snapshot of one workflow level (its own ID, what kind of workflow it is, the
 * contained nodes with their states, the connections) and the graph queries
 * DependentNodeProperties.java builds on it (getDirectPredecessors,
 * getDirectSuccessors, isComponentOutput, listAllIncludingParent).
 */
module WorkflowGraph {

  /** A node ID inside one workflow level (NodeID is opaque to the cache). */
  type NodeId = nat

  /**
   * A node container state, as far as the cache looks at it: the predicates it
   * calls, plus a code that tells apart states with the same predicates
   * (the cache compares states with `!=`).
   */
  datatype NodeState = NodeState(
    code: nat,
    isConfigured: bool,
    isExecutionInProgress: bool,
    isWaitingToBeExecuted: bool,
    isExecutingRemotely: bool)

  /** A connection between two node IDs; an end may be the workflow's own ID
      (connections to and from the workflow's in and out ports). */
  datatype Connection = Connection(source: NodeId, dest: NodeId)

  /**
   * What the workflow manager is: a project, a component project, the inner
   * workflow of a metanode, or the inner workflow of a component whose virtual
   * output node has the given ID.
   */
  datatype WorkflowKind = Project | ComponentProject | Metanode | Component(virtualOutNode: NodeId)
  {
    /** isProject() || isComponentProjectWFM(): the level has no enclosing node. */
    predicate IsProjectOrComponentProject() {
      Project? || ComponentProject?
    }
  }

  /**
   * One snapshot of a workflow level. For each contained node, sourceSets and
   * destSets hold what the cache collects from the manager's
   * getIncomingConnectionsFor / getOutgoingConnectionsFor into a HashSet: the
   * sources (destinations) of the node's connections, each once, in the set's
   * iteration order, which nothing fixes. The two parent-derived flags are
   * what the enclosing workflow reports for the node that represents this
   * level (hasExecutablePredecessor / hasSuccessorInProgress on the parent).
   */
  datatype Workflow = Workflow(
    id: NodeId,
    kind: WorkflowKind,
    nodes: seq<NodeId>,
    state: map<NodeId, NodeState>,
    connections: seq<Connection>,
    sourceSets: map<NodeId, seq<NodeId>>,
    destSets: map<NodeId, seq<NodeId>>,
    parentHasExecutablePredecessor: bool,
    parentHasSuccessorInProgress: bool)

  predicate NoDuplicates(s: seq<NodeId>) {
    forall i, j :: 0 <= i < j < |s| ==> s[i] != s[j]
  }

  /** An end a connection may have: a contained node or the workflow itself. */
  predicate IsEndpoint(wf: Workflow, x: NodeId) {
    x in wf.nodes || x == wf.id
  }

  /** The collected sources of t's incoming connections: each source once. */
  ghost predicate SourcesCollected(wf: Workflow, t: NodeId) {
    && t in wf.sourceSets
    && NoDuplicates(wf.sourceSets[t])
    && forall x :: x in wf.sourceSets[t] <==> Connection(x, t) in wf.connections
  }

  /** The collected destinations of t's outgoing connections: each destination once. */
  ghost predicate DestsCollected(wf: Workflow, t: NodeId) {
    && t in wf.destSets
    && NoDuplicates(wf.destSets[t])
    && forall x :: x in wf.destSets[t] <==> Connection(t, x) in wf.connections
  }

  /**
   * What the workflow manager guarantees of a snapshot: node IDs are unique and
   * differ from the workflow's own ID, every node has a state and its
   * collected connection ends, and every connection joins nodes of this level
   * or the level's own ports.
   */
  ghost predicate WellFormed(wf: Workflow) {
    && NoDuplicates(wf.nodes)
    && wf.id !in wf.nodes
    && (forall n :: n in wf.nodes ==> n in wf.state && SourcesCollected(wf, n) && DestsCollected(wf, n))
    && (forall c :: c in wf.connections ==> IsEndpoint(wf, c.source) && IsEndpoint(wf, c.dest))
  }

  /** The IDs occurring in s. */
  function Members(s: seq<NodeId>): set<NodeId> {
    set n | n in s
  }

  lemma MembersAppend(s: seq<NodeId>, x: NodeId)
    ensures Members(s + [x]) == Members(s) + {x}
  {
    assert forall n :: n in s + [x] <==> n in s || n == x;
  }

  function NodeSet(wf: Workflow): set<NodeId> {
    Members(wf.nodes)
  }

  /**
   * isComponentOutput: t is the virtual output node of the component that
   * directly encloses this level (never for a component project).
   */
  predicate IsComponentOutput(wf: Workflow, t: NodeId) {
    wf.kind.Component? && wf.kind.virtualOutNode == t
  }

  /**
   * getDirectPredecessors: the sources of t's incoming connections, without
   * repetitions; nothing for an ID not contained in the level.
   */
  function DirectPredecessors(wf: Workflow, t: NodeId): (r: seq<NodeId>)
    requires WellFormed(wf)
    ensures NoDuplicates(r)
    ensures t !in wf.nodes ==> r == []
    ensures t in wf.nodes ==> forall x :: x in r <==> Connection(x, t) in wf.connections
    ensures forall x :: x in r ==> IsEndpoint(wf, x)
  {
    if t !in wf.nodes then [] else wf.sourceSets[t]
  }

  /**
   * getDirectSuccessors: the destinations of t's outgoing connections, without
   * repetitions; nothing for an ID not contained in the level; and the
   * workflow's own ID alone for the enclosing component's virtual output node
   * when it has no outgoing connection.
   */
  function DirectSuccessors(wf: Workflow, t: NodeId): (r: seq<NodeId>)
    requires WellFormed(wf)
    ensures NoDuplicates(r)
    ensures t !in wf.nodes ==> r == []
    ensures t in wf.nodes && IsComponentOutput(wf, t) && (forall x :: Connection(t, x) !in wf.connections)
            ==> r == [wf.id]
    ensures t in wf.nodes && !(IsComponentOutput(wf, t) && (forall x :: Connection(t, x) !in wf.connections))
            ==> forall x :: x in r <==> Connection(t, x) in wf.connections
    ensures forall x :: x in r ==> IsEndpoint(wf, x)
  {
    if t !in wf.nodes then []
    else
      var succs := wf.destSets[t];
      assert succs != [] ==> succs[0] in succs;
      if succs == [] && IsComponentOutput(wf, t) then [wf.id] else succs
  }

  /**
   * listAllIncludingParent: the contained nodes in the manager's order, followed
   * by the workflow's own ID unless the level is a project or a component project.
   */
  function ListAllIncludingParent(wf: Workflow): (r: seq<NodeId>)
    requires WellFormed(wf)
    ensures NoDuplicates(r)
    ensures forall x :: x in r <==> x in wf.nodes || (x == wf.id && !wf.kind.IsProjectOrComponentProject())
  {
    if wf.kind.IsProjectOrComponentProject() then wf.nodes else wf.nodes + [wf.id]
  }
}
