# ElasticSearch node adapter: a Dafny model

SonarQube's `sonar-search` process runs an embedded Elasticsearch node. The
class `org.sonar.search.ElasticSearch` is a small adapter between the
generic process supervisor and that node. Its three jobs are modelled here:

- **Start (`onStart`).** Read the home directory, the port, the cluster
  name and the debug flag from the process properties. A missing home
  directory or port aborts the start. Otherwise build the node settings
  (a fixed policy, the node's identity, the HTTP switch), launch the node,
  and wait until it is closed.
- **Readiness (`isReady`).** Ask the cluster for its health, waiting up to
  3 seconds for yellow. Report ready unless the status is red or the query
  throws.
- **Termination (`onTerminate`).** Close the node when one exists and is
  not yet closed.

Modules, in dependency order:

| module | file | contents |
|---|---|---|
| `Wrappers` | wrappers.dfy | `Option` and `Result` |
| `Decimal` | decimal.dfy | Java `int`/`long` ranges; decimal rendering of integers, a parser for it, and the round trip between them |
| `Props` | props.dfy | the four property lookups the adapter uses (`of`, `of` with a default, `intOf`, `booleanOf`), each a lookup in a map from property name to value |
| `SearchConfig` | searchconfig.dfy | the constants, `Resolve`, the settings keys, the specification `NodeSettings`, the `SettingsBuilder` class and the `BuildSettings` method that fills it in source order |
| `Engine` | engine.dfy | the node handle (`Node`: its settings and `closed` flag) and the health-query types |
| `Search` | search.dfy | the `ElasticSearch` class (`node` field, `OnStart`, `AwaitClose`, `IsReady`, `OnTerminate`) and the pure functions specifying them (`Ready`, `AfterTerminate`, `ExitAfter`) |

Settings keys are the datatype `SearchConfig.SettingKey`. `Name()` gives
each key's Elasticsearch spelling. `KeyNamesDistinct` proves that no two
keys share a spelling, so a map over keys stands for the builder's map over
strings. This holds whatever the value of `ListUpdate.NAME` is.

The wait loop is modelled over a finite sequence of events. Each event is
what happened during one 100 ms sleep: nothing, an interrupt, a
termination, or the engine closing the node by itself. `ExitAfter(events)`
is the index of the first closing event. `AwaitClose` is proved to end
after exactly that many sleeps plus one.

## Model

| member | source | states |
|---|---|---|
| Decimal.ParseInt | server/sonar-search/src/main/java/org/sonar/search/ElasticSearch.java:110 | helper for the round-trip lemmas, not a model of these lines: reads an optional minus sign and decimal digits; a negative result comes only from text starting with '-' |
| Decimal.IntToString | server/sonar-search/src/main/java/org/sonar/search/ElasticSearch.java:107-116 | no contract of its own: `Long.toString`/`Integer.toString` of the clock at line 107 and of the ints put at lines 110 and 116; its properties are stated by `NatToStringDigits`, `ParseIntToString` and `IntToStringInjective` |
| Decimal.NatToStringDigits | server/sonar-search/src/main/java/org/sonar/search/ElasticSearch.java:107 | the decimal rendering of a natural number is a non-empty run of digits with no leading zero |
| Decimal.ParseNatToString | server/sonar-search/src/main/java/org/sonar/search/ElasticSearch.java:110 | parsing the digits of n gives n back |
| Decimal.ParseNegativeToString | server/sonar-search/src/main/java/org/sonar/search/ElasticSearch.java:107 | parsing the rendering of a negative integer gives it back |
| Decimal.ParseNonNegativeToString | server/sonar-search/src/main/java/org/sonar/search/ElasticSearch.java:110 | parsing the rendering of a non-negative integer gives it back |
| Decimal.ParseIntToString | server/sonar-search/src/main/java/org/sonar/search/ElasticSearch.java:107-110 | parsing the rendering of any integer, as put into `node.name` and `transport.tcp.port`, gives it back |
| Decimal.IntToStringInjective | server/sonar-search/src/main/java/org/sonar/search/ElasticSearch.java:107-110 | two integers render alike exactly when they are equal |
| SearchConfig.ConfigError.Message | server/sonar-search/src/main/java/org/sonar/search/ElasticSearch.java:43-44 | the message is `MISSING_ES_HOME` exactly for a missing home and `MISSING_ES_PORT` exactly for a missing port, so the two fatal errors are told apart by their message |
| SearchConfig.Resolve | server/sonar-search/src/main/java/org/sonar/search/ElasticSearch.java:75-85 | fails with MissingHome exactly when the home is absent; fails with MissingPort exactly when the home is present and the port absent (so the home check comes first); succeeds exactly when both are present, with the home and port values, the cluster name defaulting to "sonarqube" and the debug flag defaulting to false |
| SearchConfig.BoolString | server/sonar-search/src/main/java/org/sonar/search/ElasticSearch.java:108-118 | no contract of its own: the text of the boolean puts at lines 108-109, 115 and 118; `ParseBool` is its inverse, and `NodeSettingsIdentity` and `NodeSettingsHttp` state the values put |
| SearchConfig.NodeNameAt | server/sonar-search/src/main/java/org/sonar/search/ElasticSearch.java:107 | no contract of its own: "sonarqube-" followed by the clock in decimal; `NodeSettingsRoundTrip` shows the time is read back from it by `NodeTimestamp`, and `NodeSettingsInjective` that different times give different names |
| SearchConfig.ParseBool | server/sonar-search/src/main/java/org/sonar/search/ElasticSearch.java:108-109 | helper for `NodeSettingsRoundTrip`, not a model of these lines: inverts the rendering of a boolean put into the builder, yielding b exactly when the text is that of b |
| SearchConfig.NodeTimestamp | server/sonar-search/src/main/java/org/sonar/search/ElasticSearch.java:107 | helper for `NodeSettingsRoundTrip`, not a model of this line: a timestamp is read only from a name that starts with "sonarqube-" and is longer than that prefix |
| SearchConfig.SettingKey.Name | server/sonar-search/src/main/java/org/sonar/search/ElasticSearch.java:91-118 | no contract of its own: the spelling of every key put at lines 91-118; `KeyNamedName` recovers each key from its spelling and `KeyNamesDistinct` shows no two keys share one |
| SearchConfig.POLICY | server/sonar-search/src/main/java/org/sonar/search/ElasticSearch.java:91-104 | no contract of its own: the eleven fixed entries of lines 91-104; `NodeSettingsRuntimePolicy`, `NodeSettingsIndexPolicy`, `NodeSettingsStorePolicy` and `NodeSettingsKeys` state that each is in every settings map built |
| SearchConfig.KeyNamedPolicyName | server/sonar-search/src/main/java/org/sonar/search/ElasticSearch.java:91-104 | each fixed-policy key is recovered from its spelling |
| SearchConfig.KeyNamedNodeName | server/sonar-search/src/main/java/org/sonar/search/ElasticSearch.java:106-118 | each identity and HTTP key is recovered from its spelling |
| SearchConfig.KeyNamedScriptName | server/sonar-search/src/main/java/org/sonar/search/ElasticSearch.java:104 | the list-update script key is recovered from its spelling, whatever `ListUpdate.NAME` is |
| SearchConfig.KeyNamedFixedName | server/sonar-search/src/main/java/org/sonar/search/ElasticSearch.java:91-103 | each policy key of fixed spelling is recovered from its spelling |
| SearchConfig.KeyNamedRuntimeName | server/sonar-search/src/main/java/org/sonar/search/ElasticSearch.java:91-103 | `es.foreground`, the multicast switch and `script.default_lang` are recovered from their spellings |
| SearchConfig.KeyNamedIndexName | server/sonar-search/src/main/java/org/sonar/search/ElasticSearch.java:95-101 | each index and store key is recovered from its spelling |
| SearchConfig.KeyNamedStoreName | server/sonar-search/src/main/java/org/sonar/search/ElasticSearch.java:99-101 | each store key is recovered from its spelling |
| SearchConfig.NotScriptName | server/sonar-search/src/main/java/org/sonar/search/ElasticSearch.java:91-118 | no key other than the list-update script key starts with `script.native.` |
| SearchConfig.KeyNamedName | server/sonar-search/src/main/java/org/sonar/search/ElasticSearch.java:91-118 | every settings key is recovered from its spelling |
| SearchConfig.KeyNamesDistinct | server/sonar-search/src/main/java/org/sonar/search/ElasticSearch.java:89-119 | two keys are spelled alike exactly when they are the same key, so no put overrides another |
| SearchConfig.NodeSettings | server/sonar-search/src/main/java/org/sonar/search/ElasticSearch.java:89-119 | `http.port` is set exactly when the debug flag is |
| SearchConfig.NodeSettingsRuntimePolicy | server/sonar-search/src/main/java/org/sonar/search/ElasticSearch.java:91-104 | for every configuration and time: `es.foreground=yes`, multicast discovery off, `script.default_lang=native`, the list-update script registered with its factory class |
| SearchConfig.NodeSettingsIndexPolicy | server/sonar-search/src/main/java/org/sonar/search/ElasticSearch.java:95-98 | for every configuration and time: merge at once 200, segments per tier 200, one shard, no replica |
| SearchConfig.NodeSettingsStorePolicy | server/sonar-search/src/main/java/org/sonar/search/ElasticSearch.java:99-101 | for every configuration and time: store type `mmapfs`, throttle type `merge`, throttle `200mb` |
| SearchConfig.NodeSettingsIdentity | server/sonar-search/src/main/java/org/sonar/search/ElasticSearch.java:106-111 | `cluster.name` is the configured name, `node.name` is "sonarqube-" then the start time, `node.data=true`, `node.local=false`, `transport.tcp.port` is the rendered port, `path.home` is the home |
| SearchConfig.NodeSettingsHttp | server/sonar-search/src/main/java/org/sonar/search/ElasticSearch.java:113-119 | `http.enabled` is the debug flag; `http.port` is present exactly in debug mode, and then is "9200" |
| SearchConfig.DebugHttpPortText | server/sonar-search/src/main/java/org/sonar/search/ElasticSearch.java:116 | the integer 9200 put as `http.port` renders as "9200" |
| SearchConfig.NodeSettingsKeys | server/sonar-search/src/main/java/org/sonar/search/ElasticSearch.java:89-119 | the settings hold exactly the policy keys, the six identity keys and `http.enabled`, plus `http.port` in debug mode, and nothing else |
| SearchConfig.NodeSettingsRoundTrip | server/sonar-search/src/main/java/org/sonar/search/ElasticSearch.java:106-119 | the configuration and the start time can be read back from the settings |
| SearchConfig.NodeSettingsInjective | server/sonar-search/src/main/java/org/sonar/search/ElasticSearch.java:106-119 | two starts build the same settings exactly when their configuration and start time agree |
| SearchConfig.StartSettings | server/sonar-search/src/main/java/org/sonar/search/ElasticSearch.java:75-119 | no settings are built when home or port is missing, with the home error taking precedence; settings are built exactly when both are present |
| SearchConfig.StartSettingsFromProps | server/sonar-search/src/main/java/org/sonar/search/ElasticSearch.java:75-119 | with home and port present, the settings carry the properties' home, port and cluster name (default "sonarqube"), the node name from the clock, and the HTTP switch from the debug flag (default off) |
| SearchConfig.DefaultsScenario | server/sonar-search/src/main/java/org/sonar/search/ElasticSearch.java:75-119 | home "/data/es" and port 9001 alone give `http.enabled=false`, no `http.port`, `transport.tcp.port` with the text "9001" and `cluster.name=sonarqube` |
| SearchConfig.PortText9001 | server/sonar-search/src/main/java/org/sonar/search/ElasticSearch.java:110 | the integer 9001 put as `transport.tcp.port` renders as "9001" |
| SearchConfig.DebugScenario | server/sonar-search/src/main/java/org/sonar/search/ElasticSearch.java:113-116 | the same properties with the debug flag set give `http.enabled=true` and `http.port=9200` |
| SearchConfig.SettingsBuilder.constructor | server/sonar-search/src/main/java/org/sonar/search/ElasticSearch.java:89 | a new builder holds no entries |
| SearchConfig.SettingsBuilder.Put | server/sonar-search/src/main/java/org/sonar/search/ElasticSearch.java:91-118 | a put sets one key to one value and leaves every other entry as it was |
| SearchConfig.BuildSettings | server/sonar-search/src/main/java/org/sonar/search/ElasticSearch.java:89-119 | the builder filled by the source's sequence of puts holds exactly `NodeSettings` of the configuration and time |
| Engine.Node.Start | server/sonar-search/src/main/java/org/sonar/search/ElasticSearch.java:121-123 | a started node carries exactly the settings it was built with, is not closed, and has not been closed yet |
| Engine.Node.IsClosed | server/sonar-search/src/main/java/org/sonar/search/ElasticSearch.java:125-135 | no contract of its own: `node.isClosed()`, the engine's closed flag; the loop of `AwaitClose` and the guard of `OnTerminate` read it, and their contracts state the result through `State()` |
| Engine.Node.Close | server/sonar-search/src/main/java/org/sonar/search/ElasticSearch.java:136 | after a close the node reports closed, and one more close has been made |
| Search.Ready | server/sonar-search/src/main/java/org/sonar/search/ElasticSearch.java:60-71 | ready exactly when the health query completed with green or yellow; red or any failure is not ready |
| Search.AfterTerminate | server/sonar-search/src/main/java/org/sonar/search/ElasticSearch.java:134-138 | after termination a live handle is closed; a null or closed handle is left as it is |
| Search.TerminateIdempotent | server/sonar-search/src/main/java/org/sonar/search/ElasticSearch.java:134-138 | terminating twice has the effect of terminating once |
| Search.ExitAfter | server/sonar-search/src/main/java/org/sonar/search/ElasticSearch.java:125-131 | the index of the first closing event if any event closes the node, none otherwise |
| Search.ExitIsFirstClose | server/sonar-search/src/main/java/org/sonar/search/ElasticSearch.java:125-131 | a closing event with none before it is where the wait ends |
| Search.InterruptIsTick | server/sonar-search/src/main/java/org/sonar/search/ElasticSearch.java:126-130 | an interrupted sleep ends the wait exactly when an uneventful one would |
| Search.WithInterrupt | server/sonar-search/src/main/java/org/sonar/search/ElasticSearch.java:128 | helper for `InterruptOnlyDelays`, not a model of this line: the events with one interrupt inserted at a given position, the others shifted past it |
| Search.ExitAfterInsertion | server/sonar-search/src/main/java/org/sonar/search/ElasticSearch.java:125-131 | inserting a non-closing event never decides whether the wait ends; it delays the end by one sleep when inserted before the closing event |
| Search.InterruptOnlyDelays | server/sonar-search/src/main/java/org/sonar/search/ElasticSearch.java:126-130 | an interrupt inserted anywhere never makes a wait end that would not have ended; it delays an ending wait by one sleep or not at all |
| Search.InterruptsNeverExit | server/sonar-search/src/main/java/org/sonar/search/ElasticSearch.java:125-131 | interrupts and quiet sleeps alone never end the wait |
| Search.ElasticSearch.constructor | server/sonar-search/src/main/java/org/sonar/search/ElasticSearch.java:48-57 | a new adapter keeps its properties and has no node |
| Search.ElasticSearch.IsReady | server/sonar-search/src/main/java/org/sonar/search/ElasticSearch.java:60-71 | ready exactly when there is a node and its yellow-or-better, 3-second health query completed with a status other than red |
| Search.ElasticSearch.OnTerminate | server/sonar-search/src/main/java/org/sonar/search/ElasticSearch.java:134-138 | the handle moves as `AfterTerminate` says, and the node is closed once exactly when it was live |
| Search.ElasticSearch.AwaitClose | server/sonar-search/src/main/java/org/sonar/search/ElasticSearch.java:125-131 | the loop ends exactly when the node is null or closed; with a live node it ends after the first closing event, having closed the node once; with no closing event it is still waiting when the events run out, and the node was not closed; a node already closed is not closed again |
| Search.ElasticSearch.OnStart | server/sonar-search/src/main/java/org/sonar/search/ElasticSearch.java:74-132 | a missing property fails the start with its error before any node exists; a failed launch leaves the node field unchanged; otherwise a fresh node carries exactly the built settings and the start returns after the first closing event with the node closed exactly once, or is still running with it live and never closed |
| Search.LaunchFailureScenario | server/sonar-search/src/main/java/org/sonar/search/ElasticSearch.java:121-138 | when the launch throws, no node is left behind and a later termination does nothing |
| Search.TerminateTwice | server/sonar-search/src/main/java/org/sonar/search/ElasticSearch.java:134-138 | two terminations end as one termination does, and close the node once if it was live and never otherwise |

## Left out

- The Elasticsearch engine is abstracted. A node is its settings and its closed flag. A health query is a function from the request to its outcome. The engine's cluster behaviour is not modelled.
- `Thread.sleep`, the 100 ms poll interval and concurrency are left out. The events of the wait are a parameter, so a termination from another thread arrives as an event of the loop. The source's loop has no bound. The model's loop stops when the events run out and reports the start as still running.
- Logging (lines 87, 129) is left out. It has no effect on the state.
- `main`, the `String...` constructor and the inherited `Process.start` are left out. They belong to the process framework.
- How `Props` parses text into integers and booleans is left out, because `Props.java` is not part of this model. The four lookups are the model's abstraction of it: a name is in `strings` or `ints` exactly when `of` or `intOf` returns a non-null value for it, and then the map holds that value; a name is in `bools` exactly when the property is set, and then `booleanOf` gives the map's value instead of the default. A port that is present but not numeric, whatever `intOf` then does, is outside the model.
- `ListUpdate.NAME` and the factory class name are unspecified strings, because `ListUpdate.java` is not part of this model. Every proof holds for any value.
- `System.currentTimeMillis()` is the parameter `now`.
- Search.ElasticSearch.OnStart: whether the node builder throws is the parameter `launches`.
- Search.ElasticSearch.IsReady: the wait for yellow and the 3-second timeout appear only as the request value `HEALTH_REQUEST` handed to the health function; how the engine honours them is not modelled.
- Decimal.ParseInt: it is total on all text, but only its round trip with the rendering of an integer is proved. Java's `Integer.parseInt` is not modelled.

The code only tests `intOf` for null (lines 80–83). What `intOf` does with non-numeric text lies in `Props.java`, so the model makes no claim about it.
