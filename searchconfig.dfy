/** The configuration half of `ElasticSearch.onStart`: reading the four
    properties the node needs, and building the settings the embedded node
    is started with. */
module SearchConfig {
  import opened Wrappers
  import opened Decimal
  import opened Props

  const ES_DEBUG_PROPERTY := "esDebug"
  const ES_PORT_PROPERTY := "esPort"
  const ES_CLUSTER_PROPERTY := "esCluster"
  const ES_HOME_PROPERTY := "esHome"

  const MISSING_ES_PORT := "Missing ES port Argument"
  const MISSING_ES_HOME := "Missing ES home directory Argument"

  const DEFAULT_CLUSTER_NAME := "sonarqube"

  /** The prefix of every node name; the start time follows it. */
  const NODE_NAME_PREFIX := "sonarqube-"

  /** The fixed HTTP port opened in debug mode, and its rendering. */
  const DEBUG_HTTP_PORT: Int32 := 9200
  const DEBUG_HTTP_PORT_TEXT := "9200"

  /** `ListUpdate.NAME` and the class name of `ListUpdate.UpdateListScriptFactory`.
      ListUpdate.java is not part of this model, so both are left as
      unspecified strings: nothing proved here depends on their values. */
  const LIST_UPDATE_NAME: string
  const LIST_UPDATE_FACTORY_CLASS: string

  /** The prefix of a native script's registration key. */
  const SCRIPT_NATIVE_PREFIX := "script.native."


  /** A missing required property; either one aborts the start. */
  datatype ConfigError = MissingHome | MissingPort {
    /** The message of the `IllegalStateException` the start throws; the
        message tells which property is missing. */
    function Message(): (m: string)
      ensures m == MISSING_ES_HOME <==> MissingHome?
      ensures m == MISSING_ES_PORT <==> MissingPort?
    {
      match this
      case MissingHome => MISSING_ES_HOME
      case MissingPort => MISSING_ES_PORT
    }
  }

  /** The values the start reads from its properties. */
  datatype NodeConfig = NodeConfig(home: string, port: Int32, clusterName: string, debug: bool)

  /** Reads the properties in the order the start does: the home directory
      first, then the port; the cluster name and the debug flag have
      defaults and cannot fail. */
  function Resolve(p: Props): (r: Result<NodeConfig, ConfigError>)
    ensures r == Failure(MissingHome) <==> ES_HOME_PROPERTY !in p.strings
    ensures r == Failure(MissingPort) <==> ES_HOME_PROPERTY in p.strings && ES_PORT_PROPERTY !in p.ints
    ensures r.Success? <==> ES_HOME_PROPERTY in p.strings && ES_PORT_PROPERTY in p.ints
    ensures r.Success? ==>
      && r.value.home == p.strings[ES_HOME_PROPERTY]
      && r.value.port == p.ints[ES_PORT_PROPERTY]
      && r.value.clusterName == (if ES_CLUSTER_PROPERTY in p.strings then p.strings[ES_CLUSTER_PROPERTY] else DEFAULT_CLUSTER_NAME)
      && r.value.debug == (ES_DEBUG_PROPERTY in p.bools && p.bools[ES_DEBUG_PROPERTY])
  {
    match Of(p, ES_HOME_PROPERTY)
    case None => Failure(MissingHome)
    case Some(home) =>
      match IntOf(p, ES_PORT_PROPERTY)
      case None => Failure(MissingPort)
      case Some(port) =>
        Success(NodeConfig(
          home, port,
          OfOr(p, ES_CLUSTER_PROPERTY, DEFAULT_CLUSTER_NAME),
          BooleanOf(p, ES_DEBUG_PROPERTY, false)))
  }

  /** `String.valueOf(boolean)`, which the settings builder applies to a
      boolean value. */
  function BoolString(b: bool): string {
    if b then "true" else "false"
  }

  /** The inverse of BoolString; None for any other text. */
  function ParseBool(s: string): (r: Option<bool>)
    ensures forall b :: r == Some(b) <==> s == BoolString(b)
  {
    if s == "true" then Some(true) else if s == "false" then Some(false) else None
  }

  /** The node name: the prefix followed by the start time in decimal. */
  function NodeNameAt(now: Int64): string {
    NODE_NAME_PREFIX + IntToString(now)
  }

  /** The start time a node name carries, if it is of the form NodeNameAt makes. */
  function NodeTimestamp(name: string): (r: Option<int>)
    ensures r.Some? ==> |name| > |NODE_NAME_PREFIX| && name[..|NODE_NAME_PREFIX|] == NODE_NAME_PREFIX
  {
    if |name| > |NODE_NAME_PREFIX| && name[..|NODE_NAME_PREFIX|] == NODE_NAME_PREFIX
    then ParseInt(name[|NODE_NAME_PREFIX|..])
    else None
  }

  /** The settings keys the start puts. Name gives each one's Elasticsearch
      spelling; KeyNamesDistinct shows that no two share a spelling, so a
      map over these keys stands for the builder's map over strings. */
  datatype SettingKey =
    | Foreground | MulticastEnabled | MaxMergeAtOnce | SegmentsPerTier
    | NumberOfShards | NumberOfReplicas | StoreType | ThrottleType | ThrottleMaxBytesPerSec
    | ScriptDefaultLang | ListUpdateScriptType
    | ClusterName | NodeName | NodeData | NodeLocal | TransportTcpPort | PathHome
    | HttpEnabled | HttpPort
  {
    /** The keys of the fixed policy, put whatever the properties say. */
    predicate IsPolicy() {
      !(ClusterName? || NodeName? || NodeData? || NodeLocal? || TransportTcpPort? || PathHome?
        || HttpEnabled? || HttpPort?)
    }

    function Name(): string {
      match this
      case Foreground => "es.foreground"
      case MulticastEnabled => "discovery.zen.ping.multicast.enabled"
      case MaxMergeAtOnce => "index.merge.policy.max_merge_at_once"
      case SegmentsPerTier => "index.merge.policy.segments_per_tier"
      case NumberOfShards => "index.number_of_shards"
      case NumberOfReplicas => "index.number_of_replicas"
      case StoreType => "index.store.type"
      case ThrottleType => "indices.store.throttle.type"
      case ThrottleMaxBytesPerSec => "indices.store.throttle.max_bytes_per_sec"
      case ScriptDefaultLang => "script.default_lang"
      case ListUpdateScriptType => SCRIPT_NATIVE_PREFIX + LIST_UPDATE_NAME + ".type"
      case ClusterName => "cluster.name"
      case NodeName => "node.name"
      case NodeData => "node.data"
      case NodeLocal => "node.local"
      case TransportTcpPort => "transport.tcp.port"
      case PathHome => "path.home"
      case HttpEnabled => "http.enabled"
      case HttpPort => "http.port"
    }
  }

  /** The key a spelling stands for, if any. The script registration key,
      whose length depends on `ListUpdate.NAME`, is recognised by its
      prefix; the others by their length first. */
  function KeyNamed(s: string): Option<SettingKey> {
    if |s| >= |SCRIPT_NATIVE_PREFIX| && s[..|SCRIPT_NATIVE_PREFIX|] == SCRIPT_NATIVE_PREFIX then
      (if s == ListUpdateScriptType.Name() then Some(ListUpdateScriptType) else None)
    else if |s| == 9 then
      (if s == "node.name" then Some(NodeName)
       else if s == "node.data" then Some(NodeData)
       else if s == "path.home" then Some(PathHome)
       else if s == "http.port" then Some(HttpPort)
       else None)
    else if |s| == 10 then (if s == "node.local" then Some(NodeLocal) else None)
    else if |s| == 12 then
      (if s == "cluster.name" then Some(ClusterName)
       else if s == "http.enabled" then Some(HttpEnabled)
       else None)
    else if |s| == 13 then (if s == "es.foreground" then Some(Foreground) else None)
    else if |s| == 16 then (if s == "index.store.type" then Some(StoreType) else None)
    else if |s| == 18 then (if s == "transport.tcp.port" then Some(TransportTcpPort) else None)
    else if |s| == 19 then (if s == "script.default_lang" then Some(ScriptDefaultLang) else None)
    else if |s| == 22 then (if s == "index.number_of_shards" then Some(NumberOfShards) else None)
    else if |s| == 24 then (if s == "index.number_of_replicas" then Some(NumberOfReplicas) else None)
    else if |s| == 27 then (if s == "indices.store.throttle.type" then Some(ThrottleType) else None)
    else if |s| == 36 then
      (if s == "discovery.zen.ping.multicast.enabled" then Some(MulticastEnabled)
       else if s == "index.merge.policy.max_merge_at_once" then Some(MaxMergeAtOnce)
       else if s == "index.merge.policy.segments_per_tier" then Some(SegmentsPerTier)
       else None)
    else if |s| == 40 then
      (if s == "indices.store.throttle.max_bytes_per_sec" then Some(ThrottleMaxBytesPerSec) else None)
    else None
  }

  lemma KeyNamedPolicyName(k: SettingKey)
    requires k.IsPolicy()
    ensures KeyNamed(k.Name()) == Some(k)
  {
    if k == ListUpdateScriptType {
      KeyNamedScriptName();
    } else {
      KeyNamedFixedName(k);
    }
  }

  lemma KeyNamedScriptName()
    ensures KeyNamed(ListUpdateScriptType.Name()) == Some(ListUpdateScriptType)
  {
    var n := ListUpdateScriptType.Name();
    assert n[..|SCRIPT_NATIVE_PREFIX|] == SCRIPT_NATIVE_PREFIX;
  }

  /** The policy keys of fixed spelling. */
  lemma KeyNamedFixedName(k: SettingKey)
    requires k.IsPolicy() && k != ListUpdateScriptType
    ensures KeyNamed(k.Name()) == Some(k)
  {
    NotScriptName(k);
    if k.Foreground? || k.MulticastEnabled? || k.ScriptDefaultLang? {
      KeyNamedRuntimeName(k);
    } else {
      KeyNamedIndexName(k);
    }
  }

  lemma KeyNamedRuntimeName(k: SettingKey)
    requires k.Foreground? || k.MulticastEnabled? || k.ScriptDefaultLang?
    ensures KeyNamed(k.Name()) == Some(k)
  {
    NotScriptName(k);
  }

  lemma KeyNamedIndexName(k: SettingKey)
    requires k.MaxMergeAtOnce? || k.SegmentsPerTier? || k.NumberOfShards? || k.NumberOfReplicas?
      || k.StoreType? || k.ThrottleType? || k.ThrottleMaxBytesPerSec?
    ensures KeyNamed(k.Name()) == Some(k)
  {
    if k.StoreType? || k.ThrottleType? || k.ThrottleMaxBytesPerSec? {
      KeyNamedStoreName(k);
    } else {
      NotScriptName(k);
    }
  }

  lemma KeyNamedStoreName(k: SettingKey)
    requires k.StoreType? || k.ThrottleType? || k.ThrottleMaxBytesPerSec?
    ensures KeyNamed(k.Name()) == Some(k)
  {
    NotScriptName(k);
  }

  lemma KeyNamedNodeName(k: SettingKey)
    requires !k.IsPolicy()
    ensures KeyNamed(k.Name()) == Some(k)
  {
    NotScriptName(k);
  }

  /** Only the script registration key starts with the native-script prefix. */
  lemma NotScriptName(k: SettingKey)
    requires k != ListUpdateScriptType
    ensures var n := k.Name();
      !(|n| >= |SCRIPT_NATIVE_PREFIX| && n[..|SCRIPT_NATIVE_PREFIX|] == SCRIPT_NATIVE_PREFIX)
  {
    var n := k.Name();
    if |n| >= |SCRIPT_NATIVE_PREFIX| {
      assert n[..|SCRIPT_NATIVE_PREFIX|][0] == n[0] && n[..|SCRIPT_NATIVE_PREFIX|][7] == n[7];
    }
  }

  lemma KeyNamedName(k: SettingKey)
    ensures KeyNamed(k.Name()) == Some(k)
  {
    if k.IsPolicy() {
      KeyNamedPolicyName(k);
    } else {
      KeyNamedNodeName(k);
    }
  }

  /** No two keys share a spelling, whatever `ListUpdate.NAME` is: no put of
      the start overrides another. */
  lemma KeyNamesDistinct(k1: SettingKey, k2: SettingKey)
    ensures k1.Name() == k2.Name() <==> k1 == k2
  {
    KeyNamedName(k1);
    KeyNamedName(k2);
  }

  /** The entries every start puts, whatever the properties say. */
  const POLICY: map<SettingKey, string> := map[
    Foreground := "yes",
    MulticastEnabled := "false",
    MaxMergeAtOnce := "200",
    SegmentsPerTier := "200",
    NumberOfShards := "1",
    NumberOfReplicas := "0",
    StoreType := "mmapfs",
    ThrottleType := "merge",
    ThrottleMaxBytesPerSec := "200mb",
    ScriptDefaultLang := "native",
    ListUpdateScriptType := LIST_UPDATE_FACTORY_CLASS]

  /** The settings the start builds from a resolved configuration and the
      start time: the fixed policy, then the node's identity and location,
      then the HTTP switch. */
  function NodeSettings(cfg: NodeConfig, now: Int64): (r: map<SettingKey, string>)
    ensures HttpPort in r <==> cfg.debug
  {
    var node := POLICY[
      ClusterName := cfg.clusterName][
      NodeName := NodeNameAt(now)][
      NodeData := BoolString(true)][
      NodeLocal := BoolString(false)][
      TransportTcpPort := IntToString(cfg.port)][
      PathHome := cfg.home];
    if cfg.debug
    then node[HttpEnabled := BoolString(true)][HttpPort := DEBUG_HTTP_PORT_TEXT]
    else node[HttpEnabled := BoolString(false)]
  }

  /** The fixed policy holds whatever the configuration and the start time:
      the process stays in the foreground, multicast discovery is off, and
      native scripts are the default, with the list-update script registered. */
  lemma NodeSettingsRuntimePolicy(cfg: NodeConfig, now: Int64)
    ensures var r := NodeSettings(cfg, now);
      && r[Foreground] == "yes"
      && r[MulticastEnabled] == "false"
      && r[ScriptDefaultLang] == "native"
      && r[ListUpdateScriptType] == LIST_UPDATE_FACTORY_CLASS
  {
  }

  /** Merges of up to 200 segments at once with 200 segments per tier, one
      shard and no replica. */
  lemma NodeSettingsIndexPolicy(cfg: NodeConfig, now: Int64)
    ensures var r := NodeSettings(cfg, now);
      && r[MaxMergeAtOnce] == "200" && r[SegmentsPerTier] == "200"
      && r[NumberOfShards] == "1" && r[NumberOfReplicas] == "0"
  {
  }

  /** Memory-mapped storage; merges throttled to 200 MB per second. */
  lemma NodeSettingsStorePolicy(cfg: NodeConfig, now: Int64)
    ensures var r := NodeSettings(cfg, now);
      && r[StoreType] == "mmapfs"
      && r[ThrottleType] == "merge" && r[ThrottleMaxBytesPerSec] == "200mb"
  {
  }

  /** The entries taken from the configuration and the clock: cluster and
      node names, a data node reachable over the network, the transport
      port and the home directory. */
  lemma NodeSettingsIdentity(cfg: NodeConfig, now: Int64)
    ensures var r := NodeSettings(cfg, now);
      && r[ClusterName] == cfg.clusterName
      && r[NodeName] == NodeNameAt(now)
      && r[NodeData] == "true" && r[NodeLocal] == "false"
      && r[TransportTcpPort] == IntToString(cfg.port)
      && r[PathHome] == cfg.home
  {
  }

  /** The HTTP switch: on, with the fixed port 9200, only in debug mode;
      otherwise off, with no port set. */
  lemma NodeSettingsHttp(cfg: NodeConfig, now: Int64)
    ensures var r := NodeSettings(cfg, now);
      && r[HttpEnabled] == BoolString(cfg.debug)
      && (HttpPort in r <==> cfg.debug)
      && (cfg.debug ==> r[HttpPort] == "9200")
  {
  }

  /** The builder renders the integer port 9200 as DEBUG_HTTP_PORT_TEXT. */
  lemma DebugHttpPortText()
    ensures IntToString(DEBUG_HTTP_PORT) == DEBUG_HTTP_PORT_TEXT
  {
    assert NatToString(9) == "9";
    assert NatToString(92) == "92";
    assert NatToString(920) == "920";
  }

  /** The start puts these keys and no others. */
  lemma NodeSettingsKeys(cfg: NodeConfig, now: Int64)
    ensures NodeSettings(cfg, now).Keys ==
      (set k: SettingKey | k.IsPolicy()) + {ClusterName, NodeName, NodeData, NodeLocal, TransportTcpPort, PathHome, HttpEnabled}
      + (if cfg.debug then {HttpPort} else {})
  {
  }

  /** The configuration a settings map carries, read back from the entries
      the start derives from it; None when an entry is missing or malformed. */
  function ConfigOf(s: map<SettingKey, string>): Option<NodeConfig> {
    if PathHome in s && TransportTcpPort in s && ClusterName in s && HttpEnabled in s then
      match (ParseInt(s[TransportTcpPort]), ParseBool(s[HttpEnabled]))
      case (Some(port), Some(debug)) =>
        if -0x8000_0000 <= port < 0x8000_0000
        then Some(NodeConfig(s[PathHome], port, s[ClusterName], debug))
        else None
      case _ => None
    else None
  }

  /** The settings lose nothing: the configuration and the start time can
      be read back from them. */
  lemma NodeSettingsRoundTrip(cfg: NodeConfig, now: Int64)
    ensures ConfigOf(NodeSettings(cfg, now)) == Some(cfg)
    ensures NodeTimestamp(NodeSettings(cfg, now)[NodeName]) == Some(now)
  {
    var r := NodeSettings(cfg, now);
    NodeSettingsIdentity(cfg, now);
    NodeSettingsHttp(cfg, now);
    ParseIntToString(cfg.port);
    ParseIntToString(now);
    assert ParseBool(r[HttpEnabled]) == Some(cfg.debug);
    var name := r[NodeName];
    assert name[..|NODE_NAME_PREFIX|] == NODE_NAME_PREFIX;
    assert name[|NODE_NAME_PREFIX|..] == IntToString(now);
  }

  /** Starts at different times get different node names, and different
      configurations give different settings. */
  lemma NodeSettingsInjective(c1: NodeConfig, t1: Int64, c2: NodeConfig, t2: Int64)
    ensures NodeSettings(c1, t1) == NodeSettings(c2, t2) <==> c1 == c2 && t1 == t2
  {
    NodeSettingsRoundTrip(c1, t1);
    NodeSettingsRoundTrip(c2, t2);
  }

  /** Everything the start does before it launches the node: resolve the
      properties, then build the settings. A missing property means no
      settings at all. */
  function StartSettings(p: Props, now: Int64): (r: Result<map<SettingKey, string>, ConfigError>)
    ensures r == Failure(MissingHome) <==> ES_HOME_PROPERTY !in p.strings
    ensures r == Failure(MissingPort) <==> ES_HOME_PROPERTY in p.strings && ES_PORT_PROPERTY !in p.ints
    ensures r.Success? <==> ES_HOME_PROPERTY in p.strings && ES_PORT_PROPERTY in p.ints
  {
    match Resolve(p)
    case Failure(e) => Failure(e)
    case Success(cfg) => Success(NodeSettings(cfg, now))
  }

  /** With both required properties present, the settings carry the
      properties' values, the cluster name defaulting to "sonarqube" and
      the debug flag to false. */
  lemma StartSettingsFromProps(p: Props, now: Int64)
    requires ES_HOME_PROPERTY in p.strings && ES_PORT_PROPERTY in p.ints
    ensures StartSettings(p, now).Success?
    ensures var s := StartSettings(p, now).value;
      && s[ClusterName] == (if ES_CLUSTER_PROPERTY in p.strings then p.strings[ES_CLUSTER_PROPERTY] else DEFAULT_CLUSTER_NAME)
      && s[TransportTcpPort] == IntToString(p.ints[ES_PORT_PROPERTY])
      && s[PathHome] == p.strings[ES_HOME_PROPERTY]
      && s[NodeName] == NodeNameAt(now)
      && var debug := ES_DEBUG_PROPERTY in p.bools && p.bools[ES_DEBUG_PROPERTY];
         && s[HttpEnabled] == BoolString(debug)
         && (HttpPort in s <==> debug)
         && (debug ==> s[HttpPort] == "9200")
  {
    NodeSettingsIdentity(Resolve(p).value, now);
    NodeSettingsHttp(Resolve(p).value, now);
  }

  /** A start with home "/data/es" and port 9001 and nothing else set runs
      a cluster named "sonarqube" with HTTP off on transport port 9001. */
  lemma DefaultsScenario(now: Int64)
    ensures var p := Props(map[ES_HOME_PROPERTY := "/data/es"], map[ES_PORT_PROPERTY := 9001], map[]);
      && StartSettings(p, now).Success?
      && var s := StartSettings(p, now).value;
         && s[HttpEnabled] == "false" && HttpPort !in s
         && s[TransportTcpPort] == "9001"
         && s[ClusterName] == "sonarqube"
  {
    var p := Props(map[ES_HOME_PROPERTY := "/data/es"], map[ES_PORT_PROPERTY := 9001], map[]);
    var cfg := NodeConfig("/data/es", 9001, DEFAULT_CLUSTER_NAME, false);
    assert Resolve(p) == Success(cfg);
    NodeSettingsIdentity(cfg, now);
    NodeSettingsHttp(cfg, now);
    PortText9001();
  }

  /** The port 9001 of the defaults scenario renders as "9001". */
  lemma PortText9001()
    ensures IntToString(9001) == "9001"
  {
    assert NatToString(9) == "9";
    assert NatToString(90) == "90";
    assert NatToString(900) == "900";
  }

  /** A start with the debug flag set opens HTTP on port 9200. */
  lemma DebugScenario(now: Int64)
    ensures var p := Props(map[ES_HOME_PROPERTY := "/data/es"], map[ES_PORT_PROPERTY := 9001], map[ES_DEBUG_PROPERTY := true]);
      && StartSettings(p, now).Success?
      && var s := StartSettings(p, now).value;
         s[HttpEnabled] == "true" && HttpPort in s && s[HttpPort] == "9200"
  {
    var p := Props(map[ES_HOME_PROPERTY := "/data/es"], map[ES_PORT_PROPERTY := 9001], map[ES_DEBUG_PROPERTY := true]);
    var cfg := NodeConfig("/data/es", 9001, DEFAULT_CLUSTER_NAME, true);
    assert Resolve(p) == Success(cfg);
    NodeSettingsHttp(cfg, now);
  }

  /** `ImmutableSettings.Builder`: a key/value map filled by successive puts,
      a later put of a key replacing the earlier value. The overloads for
      booleans and integers are left to the caller, which renders the value
      with BoolString or IntToString as the builder does. */
  class SettingsBuilder {
    var entries: map<SettingKey, string>

    constructor ()
      ensures entries == map[]
    {
      entries := map[];
    }

    method Put(key: SettingKey, value: string)
      modifies this
      ensures entries == old(entries)[key := value]
    {
      entries := entries[key := value];
    }
  }

  /** The settings the start hands to the node builder, put in the order
      the source puts them. */
  method BuildSettings(cfg: NodeConfig, now: Int64) returns (s: map<SettingKey, string>)
    ensures s == NodeSettings(cfg, now)
  {
    var b := new SettingsBuilder();
    b.Put(Foreground, "yes");
    b.Put(MulticastEnabled, "false");
    b.Put(MaxMergeAtOnce, "200");
    b.Put(SegmentsPerTier, "200");
    b.Put(NumberOfShards, "1");
    b.Put(NumberOfReplicas, "0");
    b.Put(StoreType, "mmapfs");
    b.Put(ThrottleType, "merge");
    b.Put(ThrottleMaxBytesPerSec, "200mb");
    b.Put(ScriptDefaultLang, "native");
    b.Put(ListUpdateScriptType, LIST_UPDATE_FACTORY_CLASS);
    b.Put(ClusterName, cfg.clusterName);
    b.Put(NodeName, NodeNameAt(now));
    b.Put(NodeData, BoolString(true));
    b.Put(NodeLocal, BoolString(false));
    b.Put(TransportTcpPort, IntToString(cfg.port));
    b.Put(PathHome, cfg.home);
    if cfg.debug {
      b.Put(HttpEnabled, BoolString(true));
      b.Put(HttpPort, IntToString(DEBUG_HTTP_PORT));
      DebugHttpPortText();
    } else {
      b.Put(HttpEnabled, BoolString(false));
    }
    s := b.entries;
  }
}
