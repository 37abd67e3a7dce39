/**
 * The pure rules of WorkflowPersistorVersion200, the reader and writer of the
 * workflow.knime format from version 2.0 on: the format versions and their
 * lookup, the version gates that decide which parts an older file can hold,
 * the de-duplication of loaded credentials, the port-index correction for
 * pre-2.2 files, how a connection is written, how a node's directory is
 * named, and the consecutive numbering of the children written under
 * "connection_", "Var_" and "annotation_". The settings tree is the one of
 * the NodeSettings module; what a flow variable, an annotation, a cipher or
 * an editor-settings object writes into its own sub-config belongs to those
 * classes and enters as a pair of save and load functions.
 */
module WorkflowPersistor {
  import opened Wrappers
  import opened JavaText
  import opened NodeSettings

  // ---------------------------------------------------------------------------
  // Format versions
  // ---------------------------------------------------------------------------

  /** LoadVersion, in declaration order: the order decides every version gate. */
  datatype LoadVersion = Unknown | V200 | V210_Pre | V210 | V220 | V230 | V240 | V250 | V260
  {
    function Ordinal(): nat {
      match this
      case Unknown => 0
      case V200 => 1
      case V210_Pre => 2
      case V210 => 3
      case V220 => 4
      case V230 => 5
      case V240 => 6
      case V250 => 7
      case V260 => 8
    }

    /** getVersionString: the string stored in workflow.knime. */
    function VersionString(): string {
      match this
      case Unknown => "<unknown>"
      case V200 => "2.0.0"
      case V210_Pre => "2.0.1"
      case V210 => "2.1.0"
      case V220 => "2.2.0"
      case V230 => "2.3.0"
      case V240 => "2.4.0"
      case V250 => "2.5.0"
      case V260 => "2.6.0"
    }
  }

  /** LoadVersion.values(). */
  const Versions: seq<LoadVersion> := [Unknown, V200, V210_Pre, V210, V220, V230, V240, V250, V260]

  /** VERSION_LATEST, the version getSaveVersion writes. */
  const VersionLatest: LoadVersion := V260

  /** values() lists every constant once, at its ordinal. */
  lemma VersionsByOrdinal(v: LoadVersion)
    ensures v.Ordinal() < |Versions| && Versions[v.Ordinal()] == v
  {
  }

  /** No two constants share a version string. */
  lemma VersionStringInjective(v: LoadVersion, w: LoadVersion)
    requires v.VersionString() == w.VersionString()
    ensures v == w
  {
  }

  /**
   * LoadVersion.get: scans values() for the constant whose version string is s;
   * None stands for the null it returns for an unknown string. Because the
   * strings are distinct, the result is Some(v) exactly when s is v's string,
   * so get(v.getVersionString()) is v.
   */
  method Get(s: string) returns (r: Option<LoadVersion>)
    ensures forall v: LoadVersion :: r == Some(v) <==> v.VersionString() == s
  {
    var i := 0;
    while i < |Versions|
      invariant 0 <= i <= |Versions|
      invariant forall j :: 0 <= j < i ==> Versions[j].VersionString() != s
    {
      if Versions[i].VersionString() == s {
        forall v: LoadVersion | v.VersionString() == s
          ensures v == Versions[i]
        {
          VersionStringInjective(v, Versions[i]);
        }
        return Some(Versions[i]);
      }
      i := i + 1;
    }
    forall v: LoadVersion
      ensures v.VersionString() != s
    {
      VersionsByOrdinal(v);
    }
    return None;
  }

  /** The version gates: `version.ordinal() < since.ordinal()`. */
  predicate Before(version: LoadVersion, since: LoadVersion) {
    version.Ordinal() < since.Ordinal()
  }

  // ---------------------------------------------------------------------------
  // Loading the children of a sub-config
  // ---------------------------------------------------------------------------

  /** Success(xs + ys) from Success(ys); a failure stays that failure. */
  function Prepend<T>(xs: seq<T>, r: Result<seq<T>, string>): Result<seq<T>, string> {
    match r
    case Success(ys) => Success(xs + ys)
    case Failure(e) => Failure(e)
  }

  lemma PrependNothing<T>(r: Result<seq<T>, string>)
    ensures Prepend([], r) == r
  {
    if r.Success? {
      assert [] + r.value == r.value;
    }
  }

  lemma PrependTwice<T>(xs: seq<T>, x: T, r: Result<seq<T>, string>)
    ensures Prepend(xs, Prepend([x], r)) == Prepend(xs + [x], r)
  {
    if r.Success? {
      assert xs + ([x] + r.value) == (xs + [x]) + r.value;
    }
  }

  /**
   * What a loop over keySet() that loads each child config with load yields:
   * the loaded objects in key order, or the first failure (an entry that is
   * not a config, or a child load that fails).
   */
  function LoadAll<T>(entries: seq<Entry>, load: Config -> Result<T, string>): (r: Result<seq<T>, string>)
    ensures r.Success? ==> |r.value| == |entries|
  {
    if entries == [] then Success([])
    else
      match entries[0].value
      case Child(c) =>
        (match load(c)
         case Success(x) => Prepend([x], LoadAll(entries[1..], load))
         case Failure(e) => Failure(e))
      case _ => Failure("no config entry for key \"" + entries[0].key + "\"")
  }

  /** The loop over keySet() in loadWorkflowVariables and loadWorkflowAnnotations. */
  method LoadEach<T>(sub: Config, load: Config -> Result<T, string>) returns (r: Result<seq<T>, string>)
    ensures r == LoadAll(sub.entries, load)
  {
    var result: seq<T> := [];
    var i := 0;
    assert sub.entries[i..] == sub.entries;
    PrependNothing(LoadAll(sub.entries, load));
    while i < |sub.entries|
      invariant 0 <= i <= |sub.entries|
      invariant LoadAll(sub.entries, load) == Prepend(result, LoadAll(sub.entries[i..], load))
    {
      var rest := sub.entries[i..];
      assert rest[1..] == sub.entries[i + 1..];
      match sub.entries[i].value {
        case Child(c) =>
          match load(c) {
            case Success(x) =>
              PrependTwice(result, x, LoadAll(sub.entries[i + 1..], load));
              result := result + [x];
            case Failure(e) =>
              return Failure(e);
          }
        case _ =>
          return Failure("no config entry for key \"" + sub.entries[i].key + "\"");
      }
      i := i + 1;
    }
    assert sub.entries[i..] == [];
    assert result + [] == result;
    r := Success(result);
  }

  // ---------------------------------------------------------------------------
  // Credentials
  // ---------------------------------------------------------------------------

  /** Credentials as loaded from one child config: what the de-duplication looks at is the name. */
  datatype Credentials = Credentials(name: string, login: string, password: string)

  function NamesOf(cs: seq<Credentials>): set<string> {
    set c | c in cs :: c.name
  }

  /**
   * The credentials loadCredentials keeps of the loaded ones, in input order:
   * each one whose name did not occur before.
   */
  function FirstPerName(cs: seq<Credentials>): seq<Credentials> {
    if cs == [] then []
    else
      var init, c := cs[..|cs| - 1], cs[|cs| - 1];
      if c.name in NamesOf(init) then FirstPerName(init) else FirstPerName(init) + [c]
  }

  lemma NamesOfAppend(cs: seq<Credentials>, c: Credentials)
    ensures NamesOf(cs + [c]) == NamesOf(cs) + {c.name}
  {
    assert forall x :: x in cs + [c] <==> x in cs || x == c;
  }

  /** The kept credentials carry every loaded name, each exactly once. */
  lemma {:induction false} FirstPerNameDistinct(cs: seq<Credentials>)
    ensures NamesOf(FirstPerName(cs)) == NamesOf(cs)
    ensures forall i, j :: 0 <= i < j < |FirstPerName(cs)| ==> FirstPerName(cs)[i].name != FirstPerName(cs)[j].name
  {
    if cs != [] {
      var init, c := cs[..|cs| - 1], cs[|cs| - 1];
      assert cs == init + [c];
      FirstPerNameDistinct(init);
      NamesOfAppend(init, c);
      if c.name !in NamesOf(init) {
        var k := FirstPerName(init);
        NamesOfAppend(k, c);
        forall i | 0 <= i < |k|
          ensures k[i].name != c.name
        {
          assert k[i] in k;
        }
      }
    }
  }

  lemma {:induction false} FirstPerNameSound(cs: seq<Credentials>, x: Credentials)
    requires x in FirstPerName(cs)
    ensures exists j :: 0 <= j < |cs| && cs[j] == x && forall k :: 0 <= k < j ==> cs[k].name != x.name
  {
    var init, c := cs[..|cs| - 1], cs[|cs| - 1];
    if x in FirstPerName(init) {
      FirstPerNameSound(init, x);
      var j :| 0 <= j < |init| && init[j] == x && forall k :: 0 <= k < j ==> init[k].name != x.name;
      assert cs[j] == x && forall k :: 0 <= k < j ==> cs[k].name != x.name;
    } else {
      assert x == c && c.name !in NamesOf(init);
      forall k | 0 <= k < |cs| - 1
        ensures cs[k].name != x.name
      {
        assert cs[k] == init[k] && init[k] in init;
      }
      assert cs[|cs| - 1] == x;
    }
  }

  lemma {:induction false} FirstPerNameComplete(cs: seq<Credentials>, j: nat)
    requires j < |cs| && forall k :: 0 <= k < j ==> cs[k].name != cs[j].name
    ensures cs[j] in FirstPerName(cs)
  {
    var init, c := cs[..|cs| - 1], cs[|cs| - 1];
    if j < |init| {
      assert forall k :: 0 <= k < j ==> init[k].name != init[j].name;
      FirstPerNameComplete(init, j);
    }
  }

  /** The credentials kept are exactly those at the first occurrence of their name. */
  lemma FirstPerNameFirstOccurrence(cs: seq<Credentials>, x: Credentials)
    ensures x in FirstPerName(cs) <==>
      exists j :: 0 <= j < |cs| && cs[j] == x && forall k :: 0 <= k < j ==> cs[k].name != x.name
  {
    if x in FirstPerName(cs) {
      FirstPerNameSound(cs, x);
    }
    if j :| 0 <= j < |cs| && cs[j] == x && forall k :: 0 <= k < j ==> cs[k].name != x.name {
      FirstPerNameComplete(cs, j);
    }
  }

  /**
   * loadCredentials: nothing before 2.2; otherwise the sub-config
   * "workflow_credentials" must be present, each of its children is loaded
   * in key order, and a credentials object whose name was already added is
   * dropped (a HashSet of names decides), so the result is the first
   * credentials per name.
   */
  method LoadCredentials(version: LoadVersion, settings: Config, load: Config -> Result<Credentials, string>)
    returns (r: Result<seq<Credentials>, string>)
    ensures Before(version, V220) ==> r == Success([])
    ensures !Before(version, V220) && GetNodeSettings(settings, "workflow_credentials").Failure? ==> r.Failure?
    ensures !Before(version, V220) && GetNodeSettings(settings, "workflow_credentials").Success? ==>
      var loaded := LoadAll(GetNodeSettings(settings, "workflow_credentials").value.entries, load);
      r == (if loaded.Success? then Success(FirstPerName(loaded.value)) else loaded)
  {
    if version.Ordinal() < V220.Ordinal() {
      return Success([]);
    }
    var subResult := GetNodeSettings(settings, "workflow_credentials");
    if subResult.Failure? {
      return Failure(subResult.error);
    }
    var sub := subResult.value;
    var kept: seq<Credentials> := [];
    var credsNameSet: set<string> := {};
    ghost var loaded: seq<Credentials> := [];
    var i := 0;
    assert sub.entries[i..] == sub.entries;
    PrependNothing(LoadAll(sub.entries, load));
    while i < |sub.entries|
      invariant 0 <= i <= |sub.entries|
      invariant LoadAll(sub.entries, load) == Prepend(loaded, LoadAll(sub.entries[i..], load))
      invariant kept == FirstPerName(loaded) && credsNameSet == NamesOf(loaded)
    {
      var rest := sub.entries[i..];
      assert rest[1..] == sub.entries[i + 1..];
      match sub.entries[i].value {
        case Child(child) =>
          match load(child) {
            case Success(c) =>
              PrependTwice(loaded, c, LoadAll(sub.entries[i + 1..], load));
              assert (loaded + [c])[..|loaded|] == loaded;
              NamesOfAppend(loaded, c);
              if c.name !in credsNameSet {
                kept := kept + [c];
              }
              credsNameSet := credsNameSet + {c.name};
              loaded := loaded + [c];
            case Failure(e) =>
              return Failure(e);
          }
        case _ =>
          return Failure("no config entry for key \"" + sub.entries[i].key + "\"");
      }
      i := i + 1;
    }
    assert sub.entries[i..] == [];
    assert loaded + [] == loaded;
    return Success(kept);
  }

  // ---------------------------------------------------------------------------
  // The other version-gated parts
  // ---------------------------------------------------------------------------

  /**
   * loadWorkflowVariables: nothing when "workflow_variables" is missing,
   * otherwise each child of that sub-config loaded in key order.
   */
  method LoadWorkflowVariables<V>(settings: Config, load: Config -> Result<V, string>)
    returns (r: Result<seq<V>, string>)
    ensures !ContainsKey(settings, "workflow_variables") ==> r == Success([])
    ensures ContainsKey(settings, "workflow_variables") ==>
      r == (match GetNodeSettings(settings, "workflow_variables")
            case Success(sub) => LoadAll(sub.entries, load)
            case Failure(e) => Failure(e))
  {
    if !ContainsKey(settings, "workflow_variables") {
      return Success([]);
    }
    var sub := GetNodeSettings(settings, "workflow_variables");
    if sub.Failure? {
      return Failure(sub.error);
    }
    r := LoadEach(sub.value, load);
  }

  /**
   * loadWorkflowAnnotations: nothing before 2.3 or when "annotations" is
   * missing, otherwise each child of that sub-config loaded in key order.
   */
  method LoadWorkflowAnnotations<A>(version: LoadVersion, settings: Config, load: Config -> Result<A, string>)
    returns (r: Result<seq<A>, string>)
    ensures Before(version, V230) || !ContainsKey(settings, "annotations") ==> r == Success([])
    ensures !Before(version, V230) && ContainsKey(settings, "annotations") ==>
      r == (match GetNodeSettings(settings, "annotations")
            case Success(sub) => LoadAll(sub.entries, load)
            case Failure(e) => Failure(e))
  {
    if version.Ordinal() < V230.Ordinal() {
      return Success([]);
    }
    if !ContainsKey(settings, "annotations") {
      return Success([]);
    }
    var sub := GetNodeSettings(settings, "annotations");
    if sub.Failure? {
      return Failure(sub.error);
    }
    r := LoadEach(sub.value, load);
  }

  /**
   * A part introduced with format version `since` and stored under key: the
   * fallback when the file is older or the key is missing, otherwise what
   * load makes of the sub-config under key (a failure when the entry is not
   * a config).
   */
  function LoadIntroducedIn<T>(version: LoadVersion, since: LoadVersion, settings: Config, key: string,
                               fallback: T, load: Config -> Result<T, string>): (r: Result<T, string>)
    ensures Before(version, since) || !ContainsKey(settings, key) ==> r == Success(fallback)
    ensures !Before(version, since) && GetNodeSettings(settings, key).Success? ==>
      r == load(GetNodeSettings(settings, key).value)
    ensures !Before(version, since) && ContainsKey(settings, key) && GetNodeSettings(settings, key).Failure? ==>
      r.Failure?
  {
    FindKeys(settings.entries, key);
    if Before(version, since) || !ContainsKey(settings, key) then Success(fallback)
    else
      match GetNodeSettings(settings, key)
      case Success(sub) => load(sub)
      case Failure(e) => Failure(e)
  }

  /** loadWorkflowCipher: NULL_CIPHER before 2.5 or when "cipher" is missing. */
  function LoadWorkflowCipher<C>(version: LoadVersion, settings: Config, nullCipher: C,
                                 load: Config -> Result<C, string>): (r: Result<C, string>)
    ensures Before(version, V250) || !ContainsKey(settings, "cipher") ==> r == Success(nullCipher)
  {
    LoadIntroducedIn(version, V250, settings, "cipher", nullCipher, load)
  }

  /** loadEditorUIInformation: a default object before 2.6 or when "workflow_editor_settings" is missing. */
  function LoadEditorUIInformation<E>(version: LoadVersion, settings: Config, defaultInfo: E,
                                      load: Config -> Result<E, string>): (r: Result<E, string>)
    ensures Before(version, V260) || !ContainsKey(settings, "workflow_editor_settings") ==> r == Success(defaultInfo)
  {
    LoadIntroducedIn(version, V260, settings, "workflow_editor_settings", defaultInfo, load)
  }

  /**
   * The gates follow the declaration order: a part a format version can hold
   * can be held by every later version, and the version written on save
   * passes every gate.
   */
  lemma GatesMonotone(version: LoadVersion, later: LoadVersion, since: LoadVersion)
    requires version.Ordinal() <= later.Ordinal() && !Before(version, since)
    ensures !Before(later, since)
    ensures !Before(VersionLatest, since)
  {
    VersionsByOrdinal(since);
  }

  // ---------------------------------------------------------------------------
  // Connections
  // ---------------------------------------------------------------------------

  /**
   * ConnectionType: between two nodes, from the workflow's in port to a node,
   * from a node to the workflow's out port, or from in port to out port.
   */
  datatype ConnectionType = Std | WfmIn | WfmOut | WfmThrough

  /** A UI information object: its class name and what its save writes into its sub-config. */
  datatype UIInformation = UIInformation(className: string, settings: Config)

  /** A connection as saveConnection reads it; the indices are the node IDs' last components. */
  datatype ConnectionContainer = ConnectionContainer(
    sourceIndex: int32,
    destIndex: int32,
    sourcePort: int32,
    destPort: int32,
    kind: ConnectionType,
    uiInfo: Option<UIInformation>,
    isDeletable: bool)

  /** The sourceID written: -1 when the source is the workflow's in port. */
  function SavedSourceID(c: ConnectionContainer): int32 {
    if c.kind == WfmIn || c.kind == WfmThrough then -1 else c.sourceIndex
  }

  /** The destID written: -1 when the destination is the workflow's out port. */
  function SavedDestID(c: ConnectionContainer): int32 {
    if c.kind == WfmOut || c.kind == WfmThrough then -1 else c.destIndex
  }

  /** Which ends are the workflow's own ports, read back from the two IDs written. */
  function KindOfSavedIDs(sourceID: int32, destID: int32): ConnectionType {
    if sourceID == -1 && destID == -1 then WfmThrough
    else if sourceID == -1 then WfmIn
    else if destID == -1 then WfmOut
    else Std
  }

  /**
   * For a connection between node indices (never negative), the two IDs
   * written tell its type, and they keep the index of every end that is a
   * node.
   */
  lemma SavedIDsRoundTrip(c: ConnectionContainer)
    requires c.sourceIndex >= 0 && c.destIndex >= 0
    ensures KindOfSavedIDs(SavedSourceID(c), SavedDestID(c)) == c.kind
    ensures c.kind == Std || c.kind == WfmOut <==> SavedSourceID(c) == c.sourceIndex
    ensures c.kind == Std || c.kind == WfmIn <==> SavedDestID(c) == c.destIndex
  {
  }

  /** saveUIInfoClassName followed by saveUIInfoSettings, for a present UI info. */
  function SaveUIInfo(settings: Config, info: UIInformation): Config {
    Put(Put(settings, "ui_classname", StringValue(info.className)), "ui_settings", Child(info.settings))
  }

  /** The first part of saveConnection: both IDs and both ports. */
  function SaveEndpoints(settings: Config, c: ConnectionContainer): Config {
    var ids := Put(Put(settings, "sourceID", IntValue(SavedSourceID(c))), "destID", IntValue(SavedDestID(c)));
    Put(Put(ids, "sourcePort", IntValue(c.sourcePort)), "destPort", IntValue(c.destPort))
  }

  /**
   * saveConnection: writes sourceID and destID (-1 for the workflow's own
   * ports), both ports unchanged, the UI information when there is one, and
   * isDeletable = false only for a connection that cannot be deleted.
   */
  function SaveConnection(settings: Config, c: ConnectionContainer): Config {
    var ports := SaveEndpoints(settings, c);
    var ui := if c.uiInfo.Some? then SaveUIInfo(ports, c.uiInfo.value) else ports;
    if !c.isDeletable then Put(ui, "isDeletable", BoolValue(false)) else ui
  }

  lemma SaveEndpointsRead(settings: Config, c: ConnectionContainer)
    ensures var r := SaveEndpoints(settings, c);
      && GetInt(r, "sourceID") == Success(SavedSourceID(c))
      && GetInt(r, "destID") == Success(SavedDestID(c))
      && GetInt(r, "sourcePort") == Success(c.sourcePort)
      && GetInt(r, "destPort") == Success(c.destPort)
  {
    var ids1 := Put(settings, "sourceID", IntValue(SavedSourceID(c)));
    var ids := Put(ids1, "destID", IntValue(SavedDestID(c)));
    var ports1 := Put(ids, "sourcePort", IntValue(c.sourcePort));
    assert "sourceID"[0] == 's' && "sourcePort"[0] == 's' && "destID"[0] == 'd' && "destPort"[0] == 'd';
    PutOther(ids1, "destID", IntValue(SavedDestID(c)), "sourceID");
    PutOther(ids, "sourcePort", IntValue(c.sourcePort), "sourceID");
    PutOther(ids, "sourcePort", IntValue(c.sourcePort), "destID");
    PutOther(ports1, "destPort", IntValue(c.destPort), "sourceID");
    PutOther(ports1, "destPort", IntValue(c.destPort), "destID");
    PutOther(ports1, "destPort", IntValue(c.destPort), "sourcePort");
  }

  /** The endpoints part leaves every key not starting with 's' or 'd'. */
  lemma SaveEndpointsKeeps(settings: Config, c: ConnectionContainer, k: string)
    requires |k| > 0 && k[0] != 's' && k[0] != 'd'
    ensures Find(SaveEndpoints(settings, c).entries, k) == Find(settings.entries, k)
  {
    var ids1 := Put(settings, "sourceID", IntValue(SavedSourceID(c)));
    var ids := Put(ids1, "destID", IntValue(SavedDestID(c)));
    var ports1 := Put(ids, "sourcePort", IntValue(c.sourcePort));
    assert "sourceID"[0] == 's' && "sourcePort"[0] == 's' && "destID"[0] == 'd' && "destPort"[0] == 'd';
    PutOther(settings, "sourceID", IntValue(SavedSourceID(c)), k);
    PutOther(ids1, "destID", IntValue(SavedDestID(c)), k);
    PutOther(ids, "sourcePort", IntValue(c.sourcePort), k);
    PutOther(ports1, "destPort", IntValue(c.destPort), k);
  }

  lemma SaveUIInfoRead(settings: Config, info: UIInformation)
    ensures Find(SaveUIInfo(settings, info).entries, "ui_classname") == Some(StringValue(info.className))
    ensures GetNodeSettings(SaveUIInfo(settings, info), "ui_settings") == Success(info.settings)
  {
    var ui1 := Put(settings, "ui_classname", StringValue(info.className));
    assert |"ui_classname"| != |"ui_settings"|;
    PutOther(ui1, "ui_settings", Child(info.settings), "ui_classname");
  }

  /** The UI part leaves every key not starting with 'u'. */
  lemma SaveUIInfoKeeps(settings: Config, info: UIInformation, k: string)
    requires |k| > 0 && k[0] != 'u'
    ensures Find(SaveUIInfo(settings, info).entries, k) == Find(settings.entries, k)
  {
    var ui1 := Put(settings, "ui_classname", StringValue(info.className));
    assert "ui_classname"[0] == 'u' && "ui_settings"[0] == 'u';
    PutOther(settings, "ui_classname", StringValue(info.className), k);
    PutOther(ui1, "ui_settings", Child(info.settings), k);
  }

  /**
   * What saveConnection leaves under each key it writes, read back with
   * getInt, getBoolean and getNodeSettings: the IDs with -1 for the
   * workflow's own ports, the ports unchanged, the UI information when there
   * is one, and isDeletable = false exactly for a connection that cannot be
   * deleted.
   */
  lemma SaveConnectionRead(settings: Config, c: ConnectionContainer)
    ensures var r := SaveConnection(settings, c);
      && GetInt(r, "sourceID") == Success(SavedSourceID(c))
      && GetInt(r, "destID") == Success(SavedDestID(c))
      && GetInt(r, "sourcePort") == Success(c.sourcePort)
      && GetInt(r, "destPort") == Success(c.destPort)
      && (c.uiInfo.Some? ==>
            Find(r.entries, "ui_classname") == Some(StringValue(c.uiInfo.value.className)) &&
            GetNodeSettings(r, "ui_settings") == Success(c.uiInfo.value.settings))
      && (!c.isDeletable ==> GetBool(r, "isDeletable") == Success(false))
      && (c.isDeletable ==> Find(r.entries, "isDeletable") == Find(settings.entries, "isDeletable"))
  {
    var ports := SaveEndpoints(settings, c);
    var ui := if c.uiInfo.Some? then SaveUIInfo(ports, c.uiInfo.value) else ports;
    var keys := ["sourceID", "destID", "sourcePort", "destPort"];
    SaveEndpointsRead(settings, c);
    SaveEndpointsKeeps(settings, c, "isDeletable");
    if c.uiInfo.Some? {
      SaveUIInfoRead(ports, c.uiInfo.value);
      SaveUIInfoKeeps(ports, c.uiInfo.value, "isDeletable");
      SaveUIInfoKeeps(ports, c.uiInfo.value, "sourceID");
      SaveUIInfoKeeps(ports, c.uiInfo.value, "destID");
      SaveUIInfoKeeps(ports, c.uiInfo.value, "sourcePort");
      SaveUIInfoKeeps(ports, c.uiInfo.value, "destPort");
    }
    if !c.isDeletable {
      assert "isDeletable"[0] == 'i' && "ui_classname"[0] == 'u' && "ui_settings"[0] == 'u';
      assert "sourceID"[0] == 's' && "sourcePort"[0] == 's' && "destID"[0] == 'd' && "destPort"[0] == 'd';
      PutOther(ui, "isDeletable", BoolValue(false), "sourceID");
      PutOther(ui, "isDeletable", BoolValue(false), "destID");
      PutOther(ui, "isDeletable", BoolValue(false), "sourcePort");
      PutOther(ui, "isDeletable", BoolValue(false), "destPort");
      PutOther(ui, "isDeletable", BoolValue(false), "ui_classname");
      PutOther(ui, "isDeletable", BoolValue(false), "ui_settings");
    }
  }

  /** loadConnectionDestID. */
  function LoadConnectionDestID(settings: Config): Result<int32, string> {
    GetInt(settings, "destID")
  }

  /** loadConnectionDestPort, before any correction. */
  function LoadConnectionDestPort(settings: Config): Result<int32, string> {
    GetInt(settings, "destPort")
  }

  /**
   * fixDestPortIfNecessary: files before 2.2 had no flow variable port at
   * index 0, so the destination port of a connection into an ordinary node
   * (a single-node persistor) moves up by one, with Java `int` arithmetic;
   * any other destination, and any later file, keeps its port.
   */
  function FixDestPortIfNecessary(version: LoadVersion, destIsSingleNode: bool, destPort: int32): (r: int32)
    ensures Before(version, V220) && destIsSingleNode && destPort < 0x7fff_ffff ==> r as int == destPort as int + 1
    ensures Before(version, V220) && destIsSingleNode && destPort == 0x7fff_ffff ==> r == -0x8000_0000
    ensures !(Before(version, V220) && destIsSingleNode) ==> r == destPort
  {
    if version.Ordinal() < V220.Ordinal() && destIsSingleNode then Increment(destPort) else destPort
  }

  /**
   * A connection written into a fresh sub-config and read back by the latest
   * format gives the destination ID written and the destination port
   * unchanged, whatever the destination is.
   */
  lemma ConnectionRoundTrip(c: ConnectionContainer, destIsSingleNode: bool)
    ensures LoadConnectionDestID(SaveConnection(Empty, c)) == Success(SavedDestID(c))
    ensures var port := LoadConnectionDestPort(SaveConnection(Empty, c));
      port.Success? && FixDestPortIfNecessary(VersionLatest, destIsSingleNode, port.value) == c.destPort
  {
    SaveConnectionRead(Empty, c);
  }

  // ---------------------------------------------------------------------------
  // Node directory names
  // ---------------------------------------------------------------------------

  /** The characters `[a-zA-Z0-9 ]` that a node directory name keeps. */
  predicate IsDirNameChar(c: char) {
    'a' <= c <= 'z' || 'A' <= c <= 'Z' || '0' <= c <= '9' || c == ' '
  }

  /** A character a sanitised name may hold. */
  predicate IsSanitized(c: char) {
    IsDirNameChar(c) || c == '_'
  }

  /** replaceAll("[^a-zA-Z0-9 ]", "_"), character by character (a code point each). */
  function Sanitize(name: string): (r: string)
    ensures |r| == |name|
    ensures forall i :: 0 <= i < |r| ==> IsSanitized(r[i])
    ensures forall i :: 0 <= i < |r| ==> (IsDirNameChar(name[i]) <==> r[i] == name[i] && r[i] != '_')
    ensures forall i :: 0 <= i < |name| ==> r[i] == if IsDirNameChar(name[i]) then name[i] else '_'
  {
    seq(|name|, i requires 0 <= i < |name| => if IsDirNameChar(name[i]) then name[i] else '_')
  }

  /** Sanitising twice changes nothing more. */
  lemma SanitizeIdempotent(name: string)
    ensures Sanitize(Sanitize(name)) == Sanitize(name)
  {
    var s := Sanitize(name);
    assert forall i :: 0 <= i < |s| ==> Sanitize(s)[i] == s[i];
  }

  /** The longest directory-name stem of a metanode (bug 3576: long paths on Windows). */
  const MaxMetanodeStem := 12

  /** The name part of the directory: sanitised, and for a metanode cut to 12 characters and trimmed. */
  function DirStem(name: string, isMetanode: bool): string {
    var s := Sanitize(name);
    if isMetanode && |s| > MaxMetanodeStem then Trim(s[..MaxMetanodeStem]) else s
  }

  /**
   * The directory saveNodeContainer saves a node into: the directory the node
   * already has when saving into the workflow's working directory, otherwise
   * the stem followed by " (#<index>)".
   */
  function NodeDirName(name: string, isMetanode: bool, index: int32,
                       savingToWorkingDir: bool, currentDir: Option<string>): (r: string)
    ensures savingToWorkingDir && currentDir.Some? ==> r == currentDir.value
    ensures !(savingToWorkingDir && currentDir.Some?) ==>
      r == DirStem(name, isMetanode) + " (#" + IntToString(index as int) + ")"
  {
    if savingToWorkingDir && currentDir.Some? then currentDir.value
    else DirStem(name, isMetanode) + " (#" + IntToString(index as int) + ")"
  }

  /**
   * The stem holds only `[a-zA-Z0-9 _]`; an ordinary node keeps its whole
   * sanitised name; a metanode's stem is at most 12 characters long and,
   * when cut, is the 12-character prefix with its leading and trailing
   * blanks removed (the only characters of a sanitised name that trim
   * removes), so it neither starts nor ends with a blank.
   */
  lemma DirStemShape(name: string, isMetanode: bool)
    ensures forall c :: c in DirStem(name, isMetanode) ==> IsSanitized(c)
    ensures !isMetanode || |Sanitize(name)| <= MaxMetanodeStem ==> DirStem(name, isMetanode) == Sanitize(name)
    ensures isMetanode ==> |DirStem(name, isMetanode)| <= MaxMetanodeStem
    ensures isMetanode && |Sanitize(name)| > MaxMetanodeStem ==>
      DirStem(name, isMetanode) == Trim(Sanitize(name)[..MaxMetanodeStem])
    ensures forall i :: 0 <= i < |Sanitize(name)| && IsTrimmed(Sanitize(name)[i]) ==> Sanitize(name)[i] == ' '
    ensures isMetanode && |Sanitize(name)| > MaxMetanodeStem && DirStem(name, isMetanode) != [] ==>
      DirStem(name, isMetanode)[0] != ' ' && DirStem(name, isMetanode)[|DirStem(name, isMetanode)| - 1] != ' '
  {
    var s := Sanitize(name);
    assert forall c :: c in s ==> IsSanitized(c);
    if isMetanode && |s| > MaxMetanodeStem {
      assert forall c :: c in s[..MaxMetanodeStem] ==> c in s;
    }
  }

  /** Splits `stem + " (#" + digits + ")"` at its only '#'. */
  lemma SplitAtHash(b1: string, d1: string, b2: string, d2: string)
    requires '#' !in b1 && '#' !in b2 && '#' !in d1 && '#' !in d2
    requires b1 + " (#" + d1 + ")" == b2 + " (#" + d2 + ")"
    ensures d1 == d2
  {
    var s1, s2 := b1 + " (#" + d1 + ")", b2 + " (#" + d2 + ")";
    assert s1[|b1| + 2] == '#' && s2[|b2| + 2] == '#';
    assert |b1| == |b2|;
    assert d1 == s1[|b1| + 3..|s1| - 1];
    assert d2 == s2[|b2| + 3..|s2| - 1];
  }

  /**
   * Freshly computed directory names of two nodes with different indices
   * differ, whatever the nodes are called: the index after the stem is
   * always readable.
   */
  lemma FreshDirNamesDistinct(name1: string, isMetanode1: bool, index1: int32,
                              name2: string, isMetanode2: bool, index2: int32)
    requires index1 != index2
    ensures NodeDirName(name1, isMetanode1, index1, false, None) != NodeDirName(name2, isMetanode2, index2, false, None)
  {
    var b1, b2 := DirStem(name1, isMetanode1), DirStem(name2, isMetanode2);
    var d1, d2 := IntToString(index1 as int), IntToString(index2 as int);
    DirStemShape(name1, isMetanode1);
    DirStemShape(name2, isMetanode2);
    assert '#' !in d1 && '#' !in d2 by {
      assert forall k :: 0 <= k < |d1| ==> d1[k] == '-' || IsDigit(d1[k]);
      assert forall k :: 0 <= k < |d2| ==> d2[k] == '-' || IsDigit(d2[k]);
    }
    if b1 + " (#" + d1 + ")" == b2 + " (#" + d2 + ")" {
      SplitAtHash(b1, d1, b2, d2);
      IntToStringInjective(index1 as int, index2 as int);
    }
  }

  // ---------------------------------------------------------------------------
  // Numbered children
  // ---------------------------------------------------------------------------

  /** The key of the i-th numbered child: `prefix + i`. */
  function NumberedKey(prefix: string, i: nat): string {
    prefix + IntToString(i)
  }

  lemma NumberedKeyInjective(prefix: string, i: nat, j: nat)
    requires NumberedKey(prefix, i) == NumberedKey(prefix, j)
    ensures i == j
  {
    CancelPrefix(prefix, IntToString(i), IntToString(j));
    IntToStringInjective(i, j);
  }

  /** The sub-config holding items saved under prefix + 0, prefix + 1, ... in iteration order. */
  function Numbered<T>(prefix: string, items: seq<T>, save: T -> Config): (r: Config)
    ensures |r.entries| == |items|
    ensures forall i :: 0 <= i < |items| ==> r.entries[i] == Entry(NumberedKey(prefix, i), Child(save(items[i])))
  {
    Config(seq(|items|, i requires 0 <= i < |items| => Entry(NumberedKey(prefix, i), Child(save(items[i])))))
  }

  lemma NumberedSnoc<T>(prefix: string, items: seq<T>, save: T -> Config, i: nat)
    requires i < |items|
    ensures Numbered(prefix, items[..i + 1], save).entries ==
      Numbered(prefix, items[..i], save).entries + [Entry(NumberedKey(prefix, i), Child(save(items[i])))]
  {
  }

  /** The numbered keys are pairwise distinct, so no child overwrites another. */
  lemma NumberedKeysDistinct<T>(prefix: string, items: seq<T>, save: T -> Config)
    ensures DistinctKeys(Numbered(prefix, items, save))
  {
    var r := Numbered(prefix, items, save);
    forall i, j | 0 <= i < j < |r.entries|
      ensures r.entries[i].key != r.entries[j].key
    {
      if r.entries[i].key == r.entries[j].key {
        NumberedKeyInjective(prefix, i, j);
      }
    }
  }

  /**
   * The counting loops of save, saveWorkflowVariables and
   * saveWorkflowAnnotations: a fresh sub-config gets one child per item,
   * under prefix + the running counter, each filled by the item's save.
   */
  method AddNumbered<T>(prefix: string, items: seq<T>, save: T -> Config) returns (cfg: Config)
    ensures cfg == Numbered(prefix, items, save)
  {
    cfg := Empty;
    var i := 0;
    while i < |items|
      invariant 0 <= i <= |items|
      invariant cfg == Numbered(prefix, items[..i], save)
    {
      var key := NumberedKey(prefix, i);
      assert !ContainsKey(cfg, key) by {
        if ContainsKey(cfg, key) {
          var j :| 0 <= j < i && Keys(cfg.entries)[j] == key;
          NumberedKeyInjective(prefix, i, j);
          assert false;
        }
      }
      NumberedSnoc(prefix, items, save, i);
      PutNew(cfg, key, Child(save(items[i])));
      cfg := Put(cfg, key, Child(save(items[i])));
      i := i + 1;
    }
    assert items[..i] == items;
  }

  /**
   * Reading back what the numbered children hold, in key order, gives the
   * items when each item's load inverts its save.
   */
  lemma {:induction false} LoadAllSaved<T>(entries: seq<Entry>, items: seq<T>, save: T -> Config,
                                           load: Config -> Result<T, string>)
    requires forall x :: load(save(x)) == Success(x)
    requires |entries| == |items|
    requires forall i :: 0 <= i < |items| ==> entries[i].value == Child(save(items[i]))
    ensures LoadAll(entries, load) == Success(items)
  {
    if entries != [] {
      LoadAllSaved(entries[1..], items[1..], save, load);
      assert [items[0]] + items[1..] == items;
    }
  }

  /** connectionNumber in save: the "connection_<n>" children, each a fresh sub-config saveConnection filled. */
  function SavedConnection(c: ConnectionContainer): Config {
    SaveConnection(Empty, c)
  }

  method SaveConnections(connections: seq<ConnectionContainer>) returns (connSettings: Config)
    ensures connSettings == Numbered("connection_", connections, SavedConnection)
    ensures DistinctKeys(connSettings)
  {
    connSettings := AddNumbered("connection_", connections, SavedConnection);
    NumberedKeysDistinct("connection_", connections, SavedConnection);
  }

  /**
   * saveWorkflowVariables: nothing for no variables, otherwise a
   * "workflow_variables" sub-config with the children "Var_0", "Var_1", ...
   */
  method SaveWorkflowVariables<V>(settings: Config, vars: seq<V>, save: V -> Config) returns (r: Config)
    ensures vars == [] ==> r == settings
    ensures vars != [] ==> r == Put(settings, "workflow_variables", Child(Numbered("Var_", vars, save)))
  {
    if vars == [] {
      return settings;
    }
    var sub := AddNumbered("Var_", vars, save);
    r := Put(settings, "workflow_variables", Child(sub));
  }

  /**
   * saveWorkflowAnnotations: nothing for no annotations, otherwise an
   * "annotations" sub-config with the children "annotation_0", "annotation_1", ...
   */
  method SaveWorkflowAnnotations<A>(settings: Config, annotations: seq<A>, save: A -> Config) returns (r: Config)
    ensures annotations == [] ==> r == settings
    ensures annotations != [] ==> r == Put(settings, "annotations", Child(Numbered("annotation_", annotations, save)))
  {
    if |annotations| == 0 {
      return settings;
    }
    var sub := AddNumbered("annotation_", annotations, save);
    r := Put(settings, "annotations", Child(sub));
  }

  /**
   * Saved workflow variables and annotations load back as they were, in
   * order, when each item's load inverts its save; the annotations in any
   * file of version 2.3 or later.
   */
  lemma NumberedRoundTrip<T>(settings: Config, key: string, prefix: string, items: seq<T>,
                             save: T -> Config, load: Config -> Result<T, string>)
    requires forall x :: load(save(x)) == Success(x)
    ensures var saved := Put(settings, key, Child(Numbered(prefix, items, save)));
      ContainsKey(saved, key) &&
      GetNodeSettings(saved, key) == Success(Numbered(prefix, items, save)) &&
      LoadAll(Numbered(prefix, items, save).entries, load) == Success(items)
  {
    var saved := Put(settings, key, Child(Numbered(prefix, items, save)));
    FindKeys(saved.entries, key);
    LoadAllSaved(Numbered(prefix, items, save).entries, items, save, load);
  }

  /**
   * Workflow parts saved only when present (cipher, editor settings) load
   * back from a file of the latest version: the object itself when it was
   * saved, the fallback when it was not and the key was absent before.
   */
  lemma IntroducedPartRoundTrip<T>(settings: Config, key: string, since: LoadVersion, fallback: T, part: Option<T>,
                                   save: T -> Config, load: Config -> Result<T, string>)
    requires forall x :: load(save(x)) == Success(x)
    requires !ContainsKey(settings, key)
    ensures var saved := if part.Some? then Put(settings, key, Child(save(part.value))) else settings;
      LoadIntroducedIn(VersionLatest, since, saved, key, fallback, load) ==
        Success(if part.Some? then part.value else fallback)
  {
    VersionsByOrdinal(since);
  }
}
