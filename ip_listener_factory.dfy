/**
 * The IPEventListenerProviderFactory: reads the connection settings from the environment,
 * turns the configured name arrays into exclusion sets, and creates providers.
 */
module IPEventListenerProviderFactory {
  import opened Wrappers
  import opened Events
  import opened Store
  import IPEventListenerProvider

  const ProviderId := "IPEventListener"

  /** `getConnectionDetails`: the variable's value when it is set, the default otherwise. */
  function GetConnectionDetails(env: map<string, string>, name: string, default: string): (r: string)
    ensures name in env ==> r == env[name]
    ensures name !in env ==> r == default
  {
    if name in env then env[name] else default
  }

  /** `String.format("http://%s:%s", host, port)`. */
  function InfluxUrl(host: string, port: string): (url: string)
    ensures |url| == 8 + |host| + |port|
    ensures url[..7] == "http://" && url[7..7 + |host|] == host && url[7 + |host|] == ':' && url[8 + |host|..] == port
  {
    "http://" + host + ":" + port
  }

  /** The settings the factory reads, with the environment variable and default of each. */
  datatype Settings = Settings(host: string, port: string, user: string, password: string, database: string, retention: string)

  function SettingsFrom(env: map<string, string>): (s: Settings)
    ensures s.host == GetConnectionDetails(env, "INFLUXDB_HOST", "localhost")
    ensures s.port == GetConnectionDetails(env, "INFLUXDB_PORT", "8086")
    ensures s.user == GetConnectionDetails(env, "INFLUXDB_USER", "root")
    ensures s.password == GetConnectionDetails(env, "INFLUXDB_PWD", "root")
    ensures s.database == GetConnectionDetails(env, "INFLUXDB_DB", "keycloak")
    ensures s.retention == GetConnectionDetails(env, "INFLUXDB_DB_RETENTION_POLICY", "14d")
  {
    Settings(
      GetConnectionDetails(env, "INFLUXDB_HOST", "localhost"),
      GetConnectionDetails(env, "INFLUXDB_PORT", "8086"),
      GetConnectionDetails(env, "INFLUXDB_USER", "root"),
      GetConnectionDetails(env, "INFLUXDB_PWD", "root"),
      GetConnectionDetails(env, "INFLUXDB_DB", "keycloak"),
      GetConnectionDetails(env, "INFLUXDB_DB_RETENTION_POLICY", "14d"))
  }

  const SettingVariables := {"INFLUXDB_HOST", "INFLUXDB_PORT", "INFLUXDB_USER", "INFLUXDB_PWD", "INFLUXDB_DB", "INFLUXDB_DB_RETENTION_POLICY"}

  /** With none of the variables set, the factory connects to http://localhost:8086 as root. */
  lemma SettingsWithoutEnvironment(env: map<string, string>)
    requires forall v :: v in SettingVariables ==> v !in env
    ensures SettingsFrom(env) == Settings("localhost", "8086", "root", "root", "keycloak", "14d")
    ensures InfluxUrl(SettingsFrom(env).host, SettingsFrom(env).port) == "http://localhost:8086"
  {
  }

  /**
   * The index of the first name in `names` that is not in `known`, or `|names|` when all are:
   * where `Enum.valueOf` throws while the array is read.
   */
  function FirstUnknown(names: seq<string>, known: set<string>): (k: nat)
    ensures k <= |names|
    ensures forall i :: 0 <= i < k ==> names[i] in known
    ensures k < |names| ==> names[k] !in known
  {
    if names == [] || names[0] !in known then 0
    else 1 + FirstUnknown(names[1..], known)
  }

  /** The event types with the given names: exactly the types whose name is in the array. */
  function EventTypeSet(names: seq<string>): (r: set<EventType>)
    ensures forall t :: t in r <==> t.name in names
  {
    assert forall t: EventType :: t == EventType(t.name);
    set n | n in names :: EventType(n)
  }

  lemma EventTypeSetAppend(names: seq<string>, n: string)
    ensures EventTypeSet(names + [n]) == EventTypeSet(names) + {EventType(n)}
  {
    assert forall m :: m in names + [n] <==> m in names || m == n;
  }

  /**
   * The operation types with the given names, names other than the four being skipped:
   * exactly the types whose name is in the array.
   */
  function OperationTypeSet(names: seq<string>): (r: set<OperationType>)
    ensures forall op :: op in r <==> op.Name() in names
  {
    assert forall op: OperationType :: OperationTypeOf(op.Name()) == Some(op);
    set n | n in names && OperationTypeOf(n).Some? :: OperationTypeOf(n).value
  }

  lemma OperationTypeSetAppend(names: seq<string>, n: string)
    requires OperationTypeOf(n).Some?
    ensures OperationTypeSet(names + [n]) == OperationTypeSet(names) + {OperationTypeOf(n).value}
  {
    assert forall m :: m in names + [n] <==> m in names || m == n;
  }

  const OperationNames := {"CREATE", "UPDATE", "DELETE", "ACTION"}

  /** `OperationType.valueOf` succeeds exactly on the four constant names. */
  lemma OperationNamesKnown(s: string)
    ensures s in OperationNames <==> OperationTypeOf(s).Some?
  {
  }

  class Factory {
    var excludeEventsList: Option<set<EventType>>
    var excludeAdminOpList: Option<set<OperationType>>
    const influxdbHost: string
    const influxdbPort: string
    const influxdbUser: string
    const influxdbPassword: string
    const nameInfluxdbDB: string
    const retentionPolicyInfluxDB: string
    const influxUrl: string
    const influxDB: Database

    /** The field initialisers, read from `env`; both exclusion sets start null. */
    constructor (env: map<string, string>, influxDB: Database)
      ensures Settings(influxdbHost, influxdbPort, influxdbUser, influxdbPassword, nameInfluxdbDB, retentionPolicyInfluxDB) == SettingsFrom(env)
      ensures influxUrl == InfluxUrl(influxdbHost, influxdbPort)
      ensures this.influxDB == influxDB
      ensures excludeEventsList == None && excludeAdminOpList == None
    {
      influxdbHost := GetConnectionDetails(env, "INFLUXDB_HOST", "localhost");
      influxdbPort := GetConnectionDetails(env, "INFLUXDB_PORT", "8086");
      influxdbUser := GetConnectionDetails(env, "INFLUXDB_USER", "root");
      influxdbPassword := GetConnectionDetails(env, "INFLUXDB_PWD", "root");
      nameInfluxdbDB := GetConnectionDetails(env, "INFLUXDB_DB", "keycloak");
      retentionPolicyInfluxDB := GetConnectionDetails(env, "INFLUXDB_DB_RETENTION_POLICY", "14d");
      influxUrl := InfluxUrl(GetConnectionDetails(env, "INFLUXDB_HOST", "localhost"), GetConnectionDetails(env, "INFLUXDB_PORT", "8086"));
      this.influxDB := influxDB;
      excludeEventsList := None;
      excludeAdminOpList := None;
    }

    /** `getId`. */
    function GetId(): (id: string)
      ensures id == ProviderId
    {
      "IPEventListener"
    }

    /** `create`: a fresh provider over the configured sets, database and retention policy. */
    method Create() returns (p: IPEventListenerProvider.Provider)
      ensures fresh(p)
      ensures p.excludeEventsList == excludeEventsList && p.excludeAdminOpList == excludeAdminOpList
      ensures p.influxDB == influxDB && p.nameInfluxDB == nameInfluxdbDB && p.retentionPolicyInfluxDB == retentionPolicyInfluxDB
      ensures p.locationList == [] && p.outbox == []
    {
      p := new IPEventListenerProvider.Provider(excludeEventsList, excludeAdminOpList, influxDB, nameInfluxdbDB, retentionPolicyInfluxDB);
    }

    /**
     * `init`: a missing array leaves its set as it was (null on a fresh factory); a present
     * one replaces it with a new set holding the named types. A name that is not a constant
     * throws from `valueOf`, leaving the set with the names before it and skipping the rest
     * of `init`. `eventTypeNames` are the names of Keycloak's event type constants.
     */
    method Init(excludes: Option<seq<string>>, excludesOperations: Option<seq<string>>, eventTypeNames: set<string>)
      returns (o: Outcome)
      modifies this
      ensures excludes.None? ==> excludeEventsList == old(excludeEventsList)
      ensures excludes.Some? ==>
        var k := FirstUnknown(excludes.value, eventTypeNames);
        excludeEventsList == Some(EventTypeSet(excludes.value[..k]))
        && (k < |excludes.value| ==>
              o == Crashed(NoSuchConstant(excludes.value[k])) && excludeAdminOpList == old(excludeAdminOpList))
      ensures (excludes.None? || FirstUnknown(excludes.value, eventTypeNames) == |excludes.value|) ==>
        && (excludesOperations.None? ==> o == Completed && excludeAdminOpList == old(excludeAdminOpList))
        && (excludesOperations.Some? ==>
              var k := FirstUnknown(excludesOperations.value, OperationNames);
              excludeAdminOpList == Some(OperationTypeSet(excludesOperations.value[..k]))
              && o == (if k < |excludesOperations.value| then Crashed(NoSuchConstant(excludesOperations.value[k])) else Completed))
    {
      if excludes.Some? {
        var names := excludes.value;
        excludeEventsList := Some({});
        assert EventTypeSet([]) == {};
        for i := 0 to |names|
          invariant forall j :: 0 <= j < i ==> names[j] in eventTypeNames
          invariant excludeEventsList == Some(EventTypeSet(names[..i]))
          invariant excludeAdminOpList == old(excludeAdminOpList)
        {
          if names[i] !in eventTypeNames {
            return Crashed(NoSuchConstant(names[i]));
          }
          assert names[..i + 1] == names[..i] + [names[i]];
          EventTypeSetAppend(names[..i], names[i]);
          excludeEventsList := Some(excludeEventsList.value + {EventType(names[i])});
        }
        assert names[..|names|] == names;
      }
      if excludesOperations.Some? {
        var names := excludesOperations.value;
        ghost var events := excludeEventsList;
        excludeAdminOpList := Some({});
        assert OperationTypeSet([]) == {};
        for i := 0 to |names|
          invariant forall j :: 0 <= j < i ==> names[j] in OperationNames
          invariant excludeAdminOpList == Some(OperationTypeSet(names[..i]))
          invariant excludeEventsList == events
        {
          var op := OperationTypeOf(names[i]);
          OperationNamesKnown(names[i]);
          if op.None? {
            return Crashed(NoSuchConstant(names[i]));
          }
          assert names[..i + 1] == names[..i] + [names[i]];
          OperationTypeSetAppend(names[..i], names[i]);
          excludeAdminOpList := Some(excludeAdminOpList.value + {op.value});
        }
        assert names[..|names|] == names;
      }
      o := Completed;
    }
  }
}
