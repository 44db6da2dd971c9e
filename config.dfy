/** `Config`: lookups over JVM system properties and the config.properties
    table, and `Config.set`, which rewrites the persisted file. */
module Config {
  import opened Wrappers
  import opened Errors

  /** A `java.util.Properties` table. */
  type Table = map<string, string>

  /** Where a lookup looks: the JVM system properties (`-Dkey=value`) and the
      table loaded from config.properties when the class was initialised. */
  datatype Sources = Sources(system: Table, props: Table)

  /** `Config.get(key)`: the system property wins over the file; None (Java
      null) when neither defines the key. */
  function Get(src: Sources, key: string): (r: Option<string>)
    ensures key in src.system ==> r == Some(src.system[key])
    ensures key !in src.system && key in src.props ==> r == Some(src.props[key])
    ensures r.None? <==> key !in src.system && key !in src.props
  {
    if key in src.system then Some(src.system[key])
    else if key in src.props then Some(src.props[key])
    else None
  }

  /** `Config.get(key, defaultValue)`: as `get(key)`, but the caller's
      default replaces null. */
  function GetOr(src: Sources, key: string, default: string): (r: string)
    ensures Get(src, key).Some? ==> r == Get(src, key).value
    ensures Get(src, key).None? ==> r == default
  {
    if key in src.system then src.system[key]
    else if key in src.props then src.props[key]
    else default
  }

  /** A system property hides the file value completely. */
  lemma SystemWins(system: Table, props: Table, key: string, v: string, w: string)
    requires key in system && system[key] == v
    ensures Get(Sources(system, props[key := w]), key) == Some(v)
    ensures GetOr(Sources(system, props), key, w) == v
  {
  }

  /** What `getResourceAsStream("config.properties")` finds on the classpath. */
  datatype Resource = Missing | Unreadable | Present(table: Table)

  /** The static initialiser: a missing resource leaves the table empty, a
      read error fails class initialisation. */
  function LoadTable(resource: Resource): (r: Result<Table, Ex>)
    ensures r.Failure? <==> resource.Unreadable?
    ensures r.Failure? ==> r.error == Runtime("Cannot load config.properties", Some(Io))
    ensures resource.Missing? ==> r == Success(map[])
    ensures resource.Present? ==> r == Success(resource.table)
  {
    match resource
    case Missing => Success(map[])
    case Unreadable => Failure(Runtime("Cannot load config.properties", Some(Io)))
    case Present(t) => Success(t)
  }

  const WRITE_FAILED: string := "❌ Unable to write to config.properties"

  /** The table `set(key, value)` writes: the classpath copy, re-read, with
      `key` mapped to `value`. Reading or writing may fail with IOException. */
  function Persisted(resource: Resource, key: string, value: string, writeOk: bool): (r: Result<Table, Ex>)
    ensures r.Success? <==> writeOk && !resource.Unreadable?
    ensures r.Failure? ==> r.error == Runtime(WRITE_FAILED, Some(Io))
    ensures r.Success? ==> key in r.value && r.value[key] == value
    ensures r.Success? ==> forall k :: k != key ==>
              (k in r.value <==> resource.Present? && k in resource.table)
    ensures r.Success? ==> forall k :: k != key && k in r.value ==> r.value[k] == resource.table[k]
  {
    match resource
    case Unreadable => Failure(Runtime(WRITE_FAILED, Some(Io)))
    case Missing => if writeOk then Success(map[key := value]) else Failure(Runtime(WRITE_FAILED, Some(Io)))
    case Present(base) => if writeOk then Success(base[key := value]) else Failure(Runtime(WRITE_FAILED, Some(Io)))
  }

  /** `set` always starts again from the classpath copy, never from the file
      it wrote last: of two consecutive calls, only the second key survives
      unless the classpath copy already had the first. */
  lemma {:induction false} SetsDoNotAccumulate(resource: Resource, k1: string, v1: string, k2: string, v2: string)
    requires k1 != k2 && Persisted(resource, k2, v2, true).Success?
    ensures k1 in Persisted(resource, k2, v2, true).value <==> resource.Present? && k1 in resource.table
  {
    var r := Persisted(resource, k2, v2, true);
    assert k1 != k2 ==> (k1 in r.value <==> resource.Present? && k1 in resource.table);
  }

  /** The configuration of one JVM: the table `get` reads, fixed at class
      initialisation, and the file `set` writes. */
  class ConfigStore {
    const props: Table
    /** The classpath copy of config.properties, which `set` re-reads. */
    const resource: Resource
    /** src/test/resources/config.properties as last written by `set`;
        None until the first successful `set`. */
    var saved: Option<Table>

    constructor Loaded(resource: Resource, table: Table)
      requires LoadTable(resource) == Success(table)
      ensures this.resource == resource && props == table && saved == None
    {
      this.resource := resource;
      props := table;
      saved := None;
    }

    /** `Config.set(key, value)`; `writeOk` says whether the file system
        accepts the write. `props` is never touched, so later `get` calls do
        not see the new value. */
    method Set(key: string, value: string, writeOk: bool) returns (r: Outcome<Ex>)
      modifies this`saved
      ensures r.Pass? <==> Persisted(resource, key, value, writeOk).Success?
      ensures r.Pass? ==> saved == Some(Persisted(resource, key, value, writeOk).value)
      ensures r.Fail? ==> saved == old(saved)
                          && r.error == Persisted(resource, key, value, writeOk).error
    {
      var written := Persisted(resource, key, value, writeOk);
      match written
      case Success(t) =>
        saved := Some(t);
        r := Pass;
      case Failure(e) =>
        r := Fail(e);
    }
  }

  /** The static initialiser: loads the classpath resource into a new store. */
  method Load(resource: Resource) returns (r: Result<ConfigStore, Ex>)
    ensures r.Failure? <==> resource.Unreadable?
    ensures r.Failure? ==> r.error == Runtime("Cannot load config.properties", Some(Io))
    ensures r.Success? ==> fresh(r.value) && r.value.resource == resource
                           && r.value.saved == None
                           && Success(r.value.props) == LoadTable(resource)
  {
    var loaded := LoadTable(resource);
    if loaded.Failure? {
      r := Failure(loaded.error);
    } else {
      var store := new ConfigStore.Loaded(resource, loaded.value);
      r := Success(store);
    }
  }
}
