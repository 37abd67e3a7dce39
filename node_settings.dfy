/**
 * The KNIME settings tree (NodeSettings) as the workflow persistor reads and
 * writes it: a config is a list of entries in insertion order, each a key
 * and a value, where a value is a Java `int`, a boolean, a string or a
 * nested config. Adding under a key that is present replaces that entry's
 * value in place; adding under a new key appends (the behaviour of the
 * insertion-ordered map inside a config). Reading a missing key, or a key
 * holding a value of another kind, fails the way InvalidSettingsException
 * does.
 */
module NodeSettings {
  import opened Wrappers
  import opened JavaText

  datatype Value =
    | IntValue(i: int32)
    | BoolValue(b: bool)
    | StringValue(s: string)
    | Child(config: Config)

  datatype Entry = Entry(key: string, value: Value)

  datatype Config = Config(entries: seq<Entry>)

  const Empty := Config([])

  function Keys(entries: seq<Entry>): (r: seq<string>)
    ensures |r| == |entries|
    ensures forall i :: 0 <= i < |r| ==> r[i] == entries[i].key
  {
    if entries == [] then [] else Keys(entries[..|entries| - 1]) + [entries[|entries| - 1].key]
  }

  predicate DistinctKeys(cfg: Config) {
    forall i, j :: 0 <= i < j < |cfg.entries| ==> cfg.entries[i].key != cfg.entries[j].key
  }

  predicate ContainsKey(cfg: Config, key: string) {
    key in Keys(cfg.entries)
  }

  /** The value stored under key: the first entry with that key. */
  function Find(entries: seq<Entry>, key: string): Option<Value> {
    if entries == [] then None
    else if entries[0].key == key then Some(entries[0].value)
    else Find(entries[1..], key)
  }

  /** A key has a value exactly when it is one of the keys, and the value is stored under it. */
  lemma {:induction false} FindKeys(entries: seq<Entry>, key: string)
    ensures Find(entries, key).None? <==> key !in Keys(entries)
    ensures Find(entries, key).Some? ==> Entry(key, Find(entries, key).value) in entries
  {
    if entries != [] {
      assert Keys(entries) == [entries[0].key] + Keys(entries[1..]);
      FindKeys(entries[1..], key);
    }
  }

  function PutEntry(entries: seq<Entry>, key: string, v: Value): seq<Entry> {
    if entries == [] then [Entry(key, v)]
    else if entries[0].key == key then [Entry(key, v)] + entries[1..]
    else [entries[0]] + PutEntry(entries[1..], key, v)
  }

  lemma {:induction false} PutEntryFindKey(entries: seq<Entry>, key: string, v: Value)
    ensures Find(PutEntry(entries, key, v), key) == Some(v)
  {
    if entries != [] && entries[0].key != key {
      var r := PutEntry(entries, key, v);
      assert r[1..] == PutEntry(entries[1..], key, v);
      PutEntryFindKey(entries[1..], key, v);
    }
  }

  lemma {:induction false} PutEntryFindOther(entries: seq<Entry>, key: string, v: Value, other: string)
    requires other != key
    ensures Find(PutEntry(entries, key, v), other) == Find(entries, other)
  {
    if entries != [] {
      var r := PutEntry(entries, key, v);
      if entries[0].key != key {
        assert r[1..] == PutEntry(entries[1..], key, v);
        PutEntryFindOther(entries[1..], key, v, other);
      } else {
        assert r[1..] == entries[1..];
      }
    }
  }

  lemma {:induction false} PutEntryAppends(entries: seq<Entry>, key: string, v: Value)
    requires key !in Keys(entries)
    ensures PutEntry(entries, key, v) == entries + [Entry(key, v)]
  {
    if entries != [] {
      assert Keys(entries)[0] == entries[0].key;
      assert Keys(entries[1..]) == Keys(entries)[1..];
      PutEntryAppends(entries[1..], key, v);
      assert entries == [entries[0]] + entries[1..];
    }
  }

  lemma {:induction false} PutEntrySameKeys(entries: seq<Entry>, key: string, v: Value)
    requires key in Keys(entries)
    ensures |PutEntry(entries, key, v)| == |entries|
    ensures forall i :: 0 <= i < |entries| ==> PutEntry(entries, key, v)[i].key == entries[i].key
  {
    var r := PutEntry(entries, key, v);
    if entries[0].key != key {
      assert Keys(entries[1..]) == Keys(entries)[1..];
      PutEntrySameKeys(entries[1..], key, v);
      forall i | 0 <= i < |entries|
        ensures r[i].key == entries[i].key
      {
        if i > 0 {
          assert r[i] == PutEntry(entries[1..], key, v)[i - 1];
        }
      }
    }
  }

  lemma PutEntryKeys(entries: seq<Entry>, key: string, v: Value)
    ensures key in Keys(entries) ==> Keys(PutEntry(entries, key, v)) == Keys(entries)
    ensures key !in Keys(entries) ==> Keys(PutEntry(entries, key, v)) == Keys(entries) + [key]
  {
    var r := PutEntry(entries, key, v);
    if key in Keys(entries) {
      PutEntrySameKeys(entries, key, v);
      assert forall i :: 0 <= i < |r| ==> Keys(r)[i] == Keys(entries)[i];
    } else {
      PutEntryAppends(entries, key, v);
      assert forall i :: 0 <= i < |r| ==> Keys(r)[i] == (Keys(entries) + [key])[i];
    }
  }

  /**
   * addInt / addBoolean / addString / addNodeSettings: afterwards key holds v;
   * every other key holds what it held (PutOther), a new key goes last
   * (PutNew), a present key keeps its place (PutPresent), and pairwise
   * distinct keys stay distinct (PutKeepsDistinct).
   */
  function Put(cfg: Config, key: string, v: Value): (r: Config)
    ensures Find(r.entries, key) == Some(v)
  {
    PutEntryFindKey(cfg.entries, key, v);
    Config(PutEntry(cfg.entries, key, v))
  }

  /** Adding under one key leaves what every other key holds. */
  lemma PutOther(cfg: Config, key: string, v: Value, other: string)
    requires other != key
    ensures Find(Put(cfg, key, v).entries, other) == Find(cfg.entries, other)
  {
    PutEntryFindOther(cfg.entries, key, v, other);
  }

  /** Adding under a new key appends an entry. */
  lemma PutNew(cfg: Config, key: string, v: Value)
    requires !ContainsKey(cfg, key)
    ensures Put(cfg, key, v).entries == cfg.entries + [Entry(key, v)]
  {
    PutEntryAppends(cfg.entries, key, v);
  }

  /** Adding under a present key changes no key and no position. */
  lemma PutPresent(cfg: Config, key: string, v: Value)
    requires ContainsKey(cfg, key)
    ensures Keys(Put(cfg, key, v).entries) == Keys(cfg.entries)
  {
    PutEntryKeys(cfg.entries, key, v);
  }

  lemma PutKeepsDistinct(cfg: Config, key: string, v: Value)
    requires DistinctKeys(cfg)
    ensures DistinctKeys(Put(cfg, key, v))
  {
    PutEntryKeys(cfg.entries, key, v);
    var ks, rs := Keys(cfg.entries), Keys(PutEntry(cfg.entries, key, v));
    forall i, j | 0 <= i < j < |rs|
      ensures rs[i] != rs[j]
    {
      if j < |ks| {
        assert rs[i] == ks[i] && rs[j] == ks[j];
        assert ks[i] == cfg.entries[i].key && ks[j] == cfg.entries[j].key;
      } else {
        assert rs[j] == key && rs[i] == ks[i];
      }
    }
  }

  /** getInt: the `int` under key, or a failure when it is missing or not an `int`. */
  function GetInt(cfg: Config, key: string): (r: Result<int32, string>)
    ensures r.Success? <==> Find(cfg.entries, key).Some? && Find(cfg.entries, key).value.IntValue?
    ensures r.Success? ==> Find(cfg.entries, key) == Some(IntValue(r.value))
  {
    match Find(cfg.entries, key)
    case Some(IntValue(i)) => Success(i)
    case _ => Failure("no int entry for key \"" + key + "\"")
  }

  /** getBoolean: the boolean under key, or a failure when it is missing or not a boolean. */
  function GetBool(cfg: Config, key: string): (r: Result<bool, string>)
    ensures r.Success? <==> Find(cfg.entries, key).Some? && Find(cfg.entries, key).value.BoolValue?
    ensures r.Success? ==> Find(cfg.entries, key) == Some(BoolValue(r.value))
  {
    match Find(cfg.entries, key)
    case Some(BoolValue(b)) => Success(b)
    case _ => Failure("no boolean entry for key \"" + key + "\"")
  }

  /** getNodeSettings: the config under key, or a failure when it is missing or not a config. */
  function GetNodeSettings(cfg: Config, key: string): (r: Result<Config, string>)
    ensures r.Success? <==> Find(cfg.entries, key).Some? && Find(cfg.entries, key).value.Child?
    ensures r.Success? ==> Find(cfg.entries, key) == Some(Child(r.value))
  {
    match Find(cfg.entries, key)
    case Some(Child(c)) => Success(c)
    case _ => Failure("no config entry for key \"" + key + "\"")
  }
}
