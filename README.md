# Dependent node properties and the workflow persistor rules of KNIME

This project models two parts of the KNIME Analytics Platform core in Dafny
and proves properties of them.

**The dependent-node-property cache** (`DependentNodeProperties`). One cache
exists per workflow level. It keeps one record per contained node and one extra
record under the workflow's own ID, the "parent" record. A record holds:
- "has executable predecessors";
- "has executing successors";
- the node state the record was computed for;
- a validity flag.

`update()` proceeds as follows:
- It reconciles the parent record with what the enclosing workflow reports.
- It reconciles the node records with the current node states: it creates
  missing records, invalidates those whose state changed, and validates the rest.
- It prunes records of removed nodes.
- If any record was reset, it recomputes both properties. The two properties
  are one algorithm run on mirrored edges. A seed phase looks only at invalid
  records. A worklist phase then flips dependers from false to true. For each
  polled node it stops scanning dependers at the first one already true.

The model files are:
- `workflow_graph.dfy`: the snapshot of the workflow manager the cache reads,
  and the graph queries built on it.
- `dependent_node_properties.dfy`: the records, the two property strategies,
  the seed and worklist algorithms as methods with loop invariants, and the
  cache as a class whose `props` map the methods reassign. Each algorithm is
  proved equal to a recursive reference definition: the seeding fold
  `SeedList` and the drained queue `Drained`, whose composition is
  `Recompute`. Lemmas prove what the source promises about each definition.

**The pure rules of `WorkflowPersistorVersion200`**, the reader and writer of
the `workflow.knime` format from 2.0 on:
- the format versions, their lookup and the ordinal version gates;
- the de-duplication of loaded credentials;
- the pre-2.2 port-index correction;
- how a connection is written;
- how a node's directory is named;
- the consecutive numbering of the saved children.

The model files are:
- `node_settings.dfy`: the settings tree. A config is a list of keyed entries
  in insertion order. Adding under a present key replaces that key's value in
  place; adding under a new key appends.
- `java_text.dfy`: the Java `int`, `Integer.toString` with its inverse, and
  `String.trim`.
- `workflow_persistor.dfy`: the persistor rules.
- `wrappers.dfy`: `Option` and `Result`.

## Model

| member | source | states |
|---|---|---|
| DependentProperties.RecordLifecycle | org.knime.core/src/eclipse/org/knime/core/node/workflow/DependentNodeProperties.java:398-419 | A new record is invalid, with both values false. `invalidate(s)` stores s and clears the flag, and keeps both values. `setValid` changes only the flag. |
| DependentProperties.DependentNodeProperties.constructor | org.knime.core/src/eclipse/org/knime/core/node/workflow/DependentNodeProperties.java:89-92 | The cache starts with exactly one record: the parent record, fresh and invalid, under the workflow's ID. |
| DependentProperties.DependentNodeProperties.InitParentProperties | org.knime.core/src/eclipse/org/knime/core/node/workflow/DependentNodeProperties.java:133-151 | For a project or component project: the parent record is marked valid and there is no reset. Otherwise: both parent-derived values are stored, and a reset happens iff the record was invalid or a value differs. After a reset the record is invalid with no state. Without one, the record is unchanged. No other record changes. |
| DependentProperties.InitAndResetNodeProperties | org.knime.core/src/eclipse/org/knime/core/node/workflow/DependentNodeProperties.java:165-184 | Every contained node gets a record for its current state. That record is valid iff it existed before with the same state. Records of other IDs are untouched. The result is true iff some record was created or had a different state. |
| DependentProperties.RemoveSurplusNodes | org.knime.core/src/eclipse/org/knime/core/node/workflow/DependentNodeProperties.java:186-188 | Keeps exactly the records whose key is a contained node or the workflow's own ID, with unchanged contents. |
| DependentProperties.SurplusGuardExact | org.knime.core/src/eclipse/org/knime/core/node/workflow/DependentNodeProperties.java:122-124 | When every node and the workflow have a record, the guard "more than nodes+1 records" holds iff pruning would change the map. Without the guard, the keys are already exactly the nodes plus the workflow. |
| DependentProperties.PruneIfSurplus | org.knime.core/src/eclipse/org/knime/core/node/workflow/DependentNodeProperties.java:122-124 | Whether or not the guard fires, update ends with exactly one record per contained node plus the workflow's own. |
| DependentProperties.MirroredEdges | org.knime.core/src/eclipse/org/knime/core/node/workflow/DependentNodeProperties.java:285-359 | The dependees of one property are the dependers of the other. Between contained nodes, "x depends on y" for one property is "y depends on x" for the other. The workflow's own ID has neither dependees nor dependers. |
| DependentProperties.Dependees | org.knime.core/src/eclipse/org/knime/core/node/workflow/DependentNodeProperties.java:312-320 | getDirectDependees: the result has no repetitions. Its elements are contained nodes or the workflow ID. An ID not contained in the level has none. |
| DependentProperties.Dependers | org.knime.core/src/eclipse/org/knime/core/node/workflow/DependentNodeProperties.java:350-358 | getDirectDependers: the same guarantees as the dependees, for the mirrored direction. |
| DependentProperties.WriteBack | org.knime.core/src/eclipse/org/knime/core/node/workflow/DependentNodeProperties.java:305-310 | setPropertyValue changes only the chosen property's value. Keys, states, validity and the other property stay as they were. |
| DependentProperties.HandleDirectDependees | org.knime.core/src/eclipse/org/knime/core/node/workflow/DependentNodeProperties.java:216-229 | With no dependees: the value is unchanged, and the node is queued iff its independent value is true. With a true dependee: the value is set to true and the node queued. Otherwise: the value is set to false and the queue kept. |
| DependentProperties.CollectUnknownPropertiesToStartPropagation | org.knime.core/src/eclipse/org/knime/core/node/workflow/DependentNodeProperties.java:200-209 | The values and queue are exactly the left-to-right fold over listAllIncludingParent that skips valid IDs and applies handleDirectDependees to each invalid one, with the values as the earlier visits left them. They also have these properties. Valid and unlisted values, and the workflow's own value, are unchanged. The queue holds visited invalid IDs once each. A node without dependees keeps its value and is queued iff its independent value is true. A node with dependees is queued iff its value ends true, and then some dependee was true or is queued. A node becomes true only by being queued. Conversely, a visited node with a true dependee that is valid, or is the workflow's own ID, ends true and queued. |
| DependentProperties.SeedListSeeding | org.knime.core/src/eclipse/org/knime/core/node/workflow/DependentNodeProperties.java:200-229 | The seeding fold over listAllIncludingParent has every property listed in the row above, for any values and set of valid IDs. |
| DependentProperties.FlipStep | org.knime.core/src/eclipse/org/knime/core/node/workflow/DependentNodeProperties.java:240-242 | Setting a false depender to true and queueing it keeps every invariant of propagate. It strictly shrinks the set of false IDs, unless the depender is the workflow's own ID, where it is a no-op. |
| DependentProperties.VisitDependers | org.knime.core/src/eclipse/org/knime/core/node/workflow/DependentNodeProperties.java:234-244 | Let j be the position of the first depender that was true before the scan, or the number of dependers if none was. The queue gains exactly the dependers before position j, in order. Those become true, except the workflow's own ID. Every other value stays. |
| DependentProperties.Propagate | org.knime.core/src/eclipse/org/knime/core/node/workflow/DependentNodeProperties.java:231-246 | The result is exactly the queue drained poll by poll: each poll takes the head, and its dependers before the first true one become true and are appended to the queue. It also has every property listed for DrainedPropagation. |
| DependentProperties.PollDecreases | org.knime.core/src/eclipse/org/knime/core/node/workflow/DependentNodeProperties.java:231-246 | One poll lowers, in lexicographic order, the set of false IDs, the number of queued IDs other than the workflow's own, and the queue length. So propagate terminates. |
| DependentProperties.DrainedPropagation | org.knime.core/src/eclipse/org/knime/core/node/workflow/DependentNodeProperties.java:231-246 | The drained values: never go from true to false; keep the workflow's own value; make a node true only if it is a depender of a node that was queued initially or became true itself; give every node queued or made true a first depender that is true (or is the workflow's own ID); and equal the input when the queue is empty. |
| DependentProperties.DependentNodeProperties.UpdateProperty | org.knime.core/src/eclipse/org/knime/core/node/workflow/DependentNodeProperties.java:190-198 | Only that property's values change, the parent record is unchanged, and a valid record that was true stays true. The new values are exactly the recomputation from the old records: the seeding fold over listAllIncludingParent, then its queue drained. |
| DependentProperties.RecomputeMeetsSpec | org.knime.core/src/eclipse/org/knime/core/node/workflow/DependentNodeProperties.java:190-198 | The recomputation seeds with every property listed for CollectUnknownPropertiesToStartPropagation and propagates with every property listed for DrainedPropagation. In particular, a valid record that was true stays true. |
| DependentProperties.Reconciliation | org.knime.core/src/eclipse/org/knime/core/node/workflow/DependentNodeProperties.java:117-124 | After the reconciliation steps of update, every node's record is for its current state, and valid iff that state is unchanged since before the call. The node reset flag reports whether any state changed. |
| DependentProperties.DependentNodeProperties.Reconcile | org.knime.core/src/eclipse/org/knime/core/node/workflow/DependentNodeProperties.java:119-124 | After initParentProperties, initAndResetNodeProperties and the pruning guard, there is one record per contained node plus the workflow's own. Each node's record is what initAndResetNodeProperties makes of its old one: a new record if it had none, the old one invalidated for the new state if the state differs, otherwise the old one set valid. So it is valid iff the state is unchanged. The parent record is as initParentProperties leaves it: for a project or component project, the old record set valid; otherwise its two values come from the enclosing workflow, and it has no node state and is invalid after a parent reset, and is unchanged without one. The result is true iff the parent or some node was reset. Without a reset, every record is valid and no value changed. |
| DependentProperties.QuietReconciliation | org.knime.core/src/eclipse/org/knime/core/node/workflow/DependentNodeProperties.java:117-124 | With neither a parent reset nor a node reset, the reconciliation steps change no property value and leave every record valid. |
| DependentProperties.QuietRecomputation | org.knime.core/src/eclipse/org/knime/core/node/workflow/DependentNodeProperties.java:126-129 | When every listed record is valid, the seeding queue is empty and the recomputation returns the old values. So skipping it without a reset loses nothing. |
| DependentProperties.RecomputedBoth | org.knime.core/src/eclipse/org/knime/core/node/workflow/DependentNodeProperties.java:126-129 | If the first pass gives the recomputation of the records it started from, and the second gives the recomputation of the first pass's output, then both properties hold the recomputation of the records both passes started from. |
| DependentProperties.DependentNodeProperties.Update | org.knime.core/src/eclipse/org/knime/core/node/workflow/DependentNodeProperties.java:117-131 | The reconciled records are one per contained node plus the workflow's own. Each node's record is what initAndResetNodeProperties makes of its old one, so it is for the node's current state and valid iff that state is unchanged. The parent record is as initParentProperties leaves it: for a project or component project, the old record set valid; otherwise its two values come from the enclosing workflow, and it has no node state and is invalid after a parent reset, and is unchanged without one. Both properties are recomputed iff the parent or some node was reset. Without a reset the records are the reconciled ones, all valid, with no value changed. With one, keys, states, validity and the parent record are the reconciled ones, and each property's values are exactly its recomputation from the reconciled records. |
| WorkflowGraph.DirectPredecessors | org.knime.core/src/eclipse/org/knime/core/node/workflow/DependentNodeProperties.java:361-368 | The sources of the node's incoming connections, each once. Nothing for an ID not contained in the level. |
| WorkflowGraph.DirectSuccessors | org.knime.core/src/eclipse/org/knime/core/node/workflow/DependentNodeProperties.java:370-383 | The destinations of the node's outgoing connections, each once. Nothing for an ID not contained in the level. Exactly the workflow's ID for the enclosing component's virtual output node when it has no outgoing connection. |
| WorkflowGraph.ListAllIncludingParent | org.knime.core/src/eclipse/org/knime/core/node/workflow/DependentNodeProperties.java:273-281 | The contained nodes, each once, plus the workflow's own ID iff the level is neither a project nor a component project. |
| WorkflowPersistor.VersionsByOrdinal | org.knime.core/src/eclipse/org/knime/core/node/workflow/WorkflowPersistorVersion200.java:106-129 | values() lists every constant once, at its declaration ordinal. |
| WorkflowPersistor.VersionStringInjective | org.knime.core/src/eclipse/org/knime/core/node/workflow/WorkflowPersistorVersion200.java:109-129 | No two constants share a version string. |
| WorkflowPersistor.Get | org.knime.core/src/eclipse/org/knime/core/node/workflow/WorkflowPersistorVersion200.java:146-153 | get(s) returns v exactly when s is v's version string, and null when no constant has that string. So get(v.getVersionString()) is v. |
| WorkflowPersistor.GatesMonotone | org.knime.core/src/eclipse/org/knime/core/node/workflow/WorkflowPersistorVersion200.java:103-107 | Gates compare declaration ordinals. A part a version may hold may be held by every later version. VERSION_LATEST passes every gate. |
| WorkflowPersistor.LoadEach | org.knime.core/src/eclipse/org/knime/core/node/workflow/WorkflowPersistorVersion200.java:199-203 | The loop over keySet() yields the children loaded in key order, or the first failure. |
| WorkflowPersistor.LoadWorkflowVariables | org.knime.core/src/eclipse/org/knime/core/node/workflow/WorkflowPersistorVersion200.java:193-204 | Empty without "workflow_variables". Otherwise: every child of that sub-config loaded in key order, or the failure. |
| WorkflowPersistor.LoadCredentials | org.knime.core/src/eclipse/org/knime/core/node/workflow/WorkflowPersistorVersion200.java:208-228 | Empty before 2.2. A missing "workflow_credentials" sub-config fails. Otherwise: the loaded credentials with every later duplicate of a name dropped. |
| WorkflowPersistor.FirstPerNameDistinct | org.knime.core/src/eclipse/org/knime/core/node/workflow/WorkflowPersistorVersion200.java:216-226 | The kept credentials carry every loaded name, and their names are pairwise distinct. |
| WorkflowPersistor.FirstPerNameFirstOccurrence | org.knime.core/src/eclipse/org/knime/core/node/workflow/WorkflowPersistorVersion200.java:217-225 | A credentials object is kept iff it sits at the first occurrence of its name in the input. |
| WorkflowPersistor.LoadWorkflowAnnotations | org.knime.core/src/eclipse/org/knime/core/node/workflow/WorkflowPersistorVersion200.java:232-250 | Empty before 2.3 or without "annotations". Otherwise: every child loaded in key order, or the failure. |
| WorkflowPersistor.LoadIntroducedIn | org.knime.core/src/eclipse/org/knime/core/node/workflow/WorkflowPersistorVersion200.java:452-463 | A part introduced in a version: the fallback for an older file or a missing key. Otherwise: the load of the sub-config under the key. A present key that is not a config fails. |
| WorkflowPersistor.LoadWorkflowCipher | org.knime.core/src/eclipse/org/knime/core/node/workflow/WorkflowPersistorVersion200.java:261-272 | NULL_CIPHER before 2.5 or without "cipher". |
| WorkflowPersistor.LoadEditorUIInformation | org.knime.core/src/eclipse/org/knime/core/node/workflow/WorkflowPersistorVersion200.java:452-458 | The default editor information before 2.6 or without "workflow_editor_settings". |
| WorkflowPersistor.FixDestPortIfNecessary | org.knime.core/src/eclipse/org/knime/core/node/workflow/WorkflowPersistorVersion200.java:338-351 | For a pre-2.2 file and a single-node destination, the port goes up by one, wrapping at the largest int. Otherwise it is unchanged. |
| WorkflowPersistor.SavedIDsRoundTrip | org.knime.core/src/eclipse/org/knime/core/node/workflow/WorkflowPersistorVersion200.java:872-887 | sourceID is -1 exactly for WFMIN and WFMTHROUGH, and destID is -1 exactly for WFMOUT and WFMTHROUGH. Otherwise both are the node indices, and the two IDs tell the connection type. |
| WorkflowPersistor.SaveUIInfoRead | org.knime.core/src/eclipse/org/knime/core/node/workflow/WorkflowPersistorVersion200.java:471-486 | The UI info's class name is stored under "ui_classname", and its settings in the "ui_settings" sub-config. |
| WorkflowPersistor.SaveConnectionRead | org.knime.core/src/eclipse/org/knime/core/node/workflow/WorkflowPersistorVersion200.java:870-902 | Reading back a saved connection gives both IDs (-1 for the workflow's ports), both ports unchanged, and the UI info when present. isDeletable is false exactly when the connection cannot be deleted; otherwise that key is not written. |
| WorkflowPersistor.ConnectionRoundTrip | org.knime.core/src/eclipse/org/knime/core/node/workflow/WorkflowPersistorVersion200.java:323-334 | A connection saved into a fresh config and loaded by the latest format gives back the destination ID written and the destination port unchanged. |
| WorkflowPersistor.Sanitize | org.knime.core/src/eclipse/org/knime/core/node/workflow/WorkflowPersistorVersion200.java:755 | Every character outside `[a-zA-Z0-9 ]` becomes '_', and every other one is kept. The length is unchanged. |
| WorkflowPersistor.SanitizeIdempotent | org.knime.core/src/eclipse/org/knime/core/node/workflow/WorkflowPersistorVersion200.java:755 | Sanitising a sanitised name changes nothing. |
| WorkflowPersistor.DirStemShape | org.knime.core/src/eclipse/org/knime/core/node/workflow/WorkflowPersistorVersion200.java:755-760 | The stem holds only `[a-zA-Z0-9 _]`. An ordinary node or a short metanode name keeps the whole sanitised name. A longer metanode name is cut to its first 12 sanitised characters, with leading and trailing blanks removed, so the stem has at most 12 characters and neither starts nor ends with a blank. |
| WorkflowPersistor.NodeDirName | org.knime.core/src/eclipse/org/knime/core/node/workflow/WorkflowPersistorVersion200.java:761-768 | When saving into the working directory, the node's existing directory is reused. Otherwise: the stem followed by " (#index)". |
| WorkflowPersistor.FreshDirNamesDistinct | org.knime.core/src/eclipse/org/knime/core/node/workflow/WorkflowPersistorVersion200.java:755-761 | Nodes with different indices get different freshly computed directory names, whatever their names are. |
| JavaText.Trim | org.knime.core/src/eclipse/org/knime/core/node/workflow/WorkflowPersistorVersion200.java:759 | String.trim: the input without its leading and trailing characters up to U+0020. The result is empty, or starts and ends above U+0020. It holds only the input's characters. A string without any character up to U+0020 comes back unchanged. |
| JavaText.IntToStringInjective | org.knime.core/src/eclipse/org/knime/core/node/workflow/WorkflowPersistorVersion200.java:761 | Different indices render as different decimal strings. |
| WorkflowPersistor.NumberedKeysDistinct | org.knime.core/src/eclipse/org/knime/core/node/workflow/WorkflowPersistorVersion200.java:563-569 | The keys "connection_0", "connection_1", ... are pairwise distinct, so no child overwrites another. |
| WorkflowPersistor.AddNumbered | org.knime.core/src/eclipse/org/knime/core/node/workflow/WorkflowPersistorVersion200.java:686-689 | The counting loop adds one child per item, under prefix + counter from 0, in iteration order, each filled by the item's save. |
| WorkflowPersistor.SaveConnections | org.knime.core/src/eclipse/org/knime/core/node/workflow/WorkflowPersistorVersion200.java:562-569 | The connections sub-config holds "connection_n" for the n-th connection, filled by saveConnection, with distinct keys. |
| WorkflowPersistor.SaveWorkflowVariables | org.knime.core/src/eclipse/org/knime/core/node/workflow/WorkflowPersistorVersion200.java:680-691 | No sub-config for no variables. Otherwise "workflow_variables" holds "Var_0", "Var_1", ... in order. |
| WorkflowPersistor.SaveWorkflowAnnotations | org.knime.core/src/eclipse/org/knime/core/node/workflow/WorkflowPersistorVersion200.java:705-719 | No sub-config for no annotations. Otherwise "annotations" holds "annotation_0", "annotation_1", ... in order. |
| WorkflowPersistor.NumberedRoundTrip | org.knime.core/src/eclipse/org/knime/core/node/workflow/WorkflowPersistorVersion200.java:680-691 | Saved variables or annotations load back as they were, in order, when each item's load inverts its save. |
| WorkflowPersistor.IntroducedPartRoundTrip | org.knime.core/src/eclipse/org/knime/core/node/workflow/WorkflowPersistorVersion200.java:646-652 | A cipher or editor information saved only when present loads back from a latest-version file: the object when saved, the fallback otherwise. |

## Left out

Dependent node properties:
- Locking: the workflow lock in `update` serves concurrency, so `update` is modelled as a sequential method.
- canExecuteNode and canResetNode: they delegate to workflow-manager rules whose source is not part of this model.
- The workflow manager is a snapshot value (`Workflow`). Its node states are flags plus a code that stands for reference identity. The parent-derived booleans hasExecutablePredecessor and hasSuccessorInProgress enter as fields.
- Set iteration order: the sets getDirectPredecessors and getDirectSuccessors build have an iteration order nothing fixes. The snapshot supplies that order as a sequence per node (`sourceSets`, `destSets`). Every property is proved for any such order.
- Records are values in the `props` map. The Java records are shared mutable objects, and the parent record object is held twice; that aliasing is not modelled.
- Seeding and propagation work on a projection of the records (one value per ID, plus the set of valid IDs), which is then written back. The record fields they do not touch are shown unchanged.
- Propagate: no reachability closure is claimed. The depender scan stops at the first true depender, so a node reachable from a true one can stay false. Instead the result is pinned down as the queue drained poll by poll, and the properties of DrainedPropagation are proved of that.
- The non-compiling text at DependentNodeProperties.java:371-372 is skipped; getDirectSuccessors is modelled from the code after it.

Workflow persistor:
- File and directory handling, XML writing, cipher streams, VM file locks and execution progress (floating point) are not modelled.
- NodeSettings, FlowVariable, Credentials, WorkflowAnnotation, WorkflowCipher and EditorUIInformation internals are foreign. The settings tree is the insertion-ordered list of `node_settings.dfy`. Each object's own save and load enter as function parameters.
- LoadWorkflowCipher, LoadWorkflowAnnotations, LoadEditorUIInformation: the load version the source passes on to the foreign load (of the cipher, of each annotation, of the editor settings) is not modelled; the load function receives only the sub-config.
- LoadCredentials: the warning logged for a dropped duplicate is not modelled.
- fixSourcePortIfNecessary: it calls the superclass, whose source is not part of this model.
- In save: the "node_<id>" children, the in and out port loops, saveCredentials and the template information are not modelled. These are straight-line writes through foreign objects; only the connection numbering is.

## Observations

None of these is a defect claim.
- A seeded node without dependees keeps its old value even when it is queued. Only propagation or a later seed changes it.
- The parent record of a metanode or component is never set valid: only a project's or component project's parent record is. So for those levels initParentProperties reports a reset on every update.
- Setting a value on the workflow's own ID is a no-op. Because of this, propagate can queue that ID repeatedly; termination uses the set of false IDs, then the number of queued IDs other than the workflow's, then the queue length.
