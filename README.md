# A verified model of the Switch feature-switch platform

Switch is a feature-switch platform. An admin service stores switches, which are rule trees over
named factors. It promotes each switch through the environments of its namespace one environment at
a time, with an approval step wherever approvers are configured. Every change is pushed to the SDKs
through drivers: Kafka, webhook and HTTP long polling. The SDK evaluates a switch's rule tree
against a request's context. A React console edits the switches, the factors and their JSON
schemas, the environments with their drivers, and the approvers.

This project models the sequential core of that system in Dafny and proves properties of the model.
Each core source file has one module. The module is named after the file.

- Pure code (validators, comparators, getters with defaults, rule-tree evaluation and the
  console's list and tree edits) becomes datatypes, functions and lemmas.
- Objects whose fields are updated in place become classes with `modifies` clauses. These are the
  caches and registries, the driver manager, the polling drivers, the approver and driver editors,
  the logger and server configurations, and `tool.Bool`. The switch and configuration records the
  push path updates are classes too.
- Loops become methods with invariants. Each method is proved against a specification function,
  and the lemmas state what the source promises about that function.

Shared modules:
- `Wrappers`: Option, Result and a pass/fail Outcome.
- `JsonValue`: a dynamic JSON or JavaScript value, with objects as ordered association lists.
- `StrUtil`: trimming, ASCII lower-casing, splitting and decimal rendering.
- `Model`: the switch and rule-node records shared by the SDK and the admin service.

The collaborators each operation calls but cannot be seen are parameters:
- the repositories and the transaction;
- the notifier and the network;
- the clock;
- JSON, YAML and URL parsing, IP-address parsing and duration parsing.

Their answers are passed in as values. A failed transaction commits nothing, so the writes a
method reports are the ones that commit.

Where verifying a natural contract showed the source doing something other than it evidently
intends, the model keeps the code as written. It also gives a corrected version and uses that
version (see "## Findings").

## Model

| member | source | states |
|---|---|---|
| MapUtil.Keys | switch-sdk-core/config/config_manager.go:96-100 | lists every key of a map exactly once |
| MapUtil.DistinctListingSize | switch-sdk-core/config/config_manager.go:91-101 | a distinct listing of the keys is as long as the map |
| ConfigManager.Lookup | switch-sdk-core/config/config_manager.go:39-49 | found iff the name is registered, with its configuration; else the "not found" error |
| ConfigManager.RegisterThenGet | switch-sdk-core/config/config_manager.go:26-49 | after Register the name is found holding the first registered configuration; other names unaffected |
| ConfigManager.RemoveThenGet | switch-sdk-core/config/config_manager.go:79-89 | after Remove the name is not found; other names unaffected |
| ConfigManager.RegisterRemoveRoundTrip | switch-sdk-core/config/config_manager.go:26-89 | registering a new name and removing it restores the registry |
| ConfigManager.ConfigManager.Register | switch-sdk-core/config/config_manager.go:26-36 | a duplicate name errors and keeps the existing entry; otherwise the name is filed |
| ConfigManager.ConfigManager.MustGet | switch-sdk-core/config/config_manager.go:52-58 | returns the registered configuration (panics are the caller's precondition) |
| ConfigManager.ConfigManager.LoadAll | switch-sdk-core/config/config_manager.go:61-76 | succeeds iff every registered configuration loads; otherwise the combined error |
| ConfigManager.ConfigManager.Remove | switch-sdk-core/config/config_manager.go:79-89 | an unknown name errors; otherwise it is deleted |
| ConfigManager.ConfigManager.List | switch-sdk-core/config/config_manager.go:92-101 | exactly the registered names, each once |
| ConfigManager.ConfigManager.Clear | switch-sdk-core/config/config_manager.go:104-109 | the registry is empty |
| ConfigManager.ConfigManager.Exists | switch-sdk-core/config/config_manager.go:112-118 | holds iff Get succeeds |
| ConfigFactory.Ext | switch-sdk-core/config/config_factory.go:63 | the suffix from the last '.' of the last path element, or "" |
| ConfigFactory.Dotted | switch-sdk-core/config/config_factory.go:41-43 | adds a leading '.' exactly when it is missing |
| ConfigFactory.CreateByExtIn | switch-sdk-core/config/config_factory.go:95-113 | empty extension errors; otherwise found iff the dotted lower-cased key is registered |
| ConfigFactory.CreateByFilePathIn | switch-sdk-core/config/config_factory.go:77-92 | a path without extension errors; otherwise found iff its lower-cased extension is registered |
| ConfigFactory.CreateByPathIsByExt | switch-sdk-core/config/config_factory.go:77-113 | creating by path equals creating by the path's extension |
| ConfigFactory.UpperCaseKeyUnreachable | switch-sdk-core/config/config_factory.go:41-52 | a key with an upper-case letter is never looked up by CreateByExt |
| ConfigFactory.RegisterThenCreate | switch-sdk-core/config/config_factory.go:36-113 | a lower-case extension registered is found with or without its dot |
| ConfigFactory.ConfigFactory.Register | switch-sdk-core/config/config_factory.go:36-54 | nil creator and duplicate extension error without change; else filed under the dotted key |
| ConfigFactory.ConfigFactory.RegisterByFilePath | switch-sdk-core/config/config_factory.go:58-74 | as Register, keyed by the lower-cased path extension |
| ConfigFactory.ConfigFactory.Unregister | switch-sdk-core/config/config_factory.go:116-124 | deletes the dotted key |
| ConfigFactory.ConfigFactory.GetSupportedExtensions | switch-sdk-core/config/config_factory.go:127-136 | every registered key exactly once |
| BusinessGenerator.Draws | switch-components/snowflake/business_generator.go:47-51 | the `count` ids drawn in order from a position of the node's id stream |
| BusinessGenerator.PrefixText | switch-components/snowflake/business_generator.go:32-39 | the prefixed id starts with the prefix |
| BusinessGenerator.PrefixTextIsPrefixed | switch-components/snowflake/business_generator.go:32-67 | prefix-then-digits and the empty-prefix branch agree with `%s%d` |
| BusinessGenerator.PrefixedInjective | switch-components/snowflake/business_generator.go:56-67 | distinct ids under one prefix give distinct texts |
| BusinessGenerator.DrawsIncreasing | switch-components/snowflake/business_generator_test.go:50-65 | a batch from the increasing node stream is strictly increasing, hence unique |
| BusinessGenerator.NodeCheck | switch-components/snowflake/snowflake.go:21-30 | a node number passes iff it is within 0..1023 |
| BusinessGenerator.NewBusinessGenerator | switch-components/snowflake/business_generator.go:13-24 | invalid node number errors; otherwise a fresh generator with the configured type and prefix |
| BusinessGenerator.BusinessGenerator.GenerateID | switch-components/snowflake/business_generator.go:27-29 | the node's next id |
| BusinessGenerator.BusinessGenerator.GeneratePrefixID | switch-components/snowflake/business_generator.go:32-39 | the next id as text after the prefix |
| BusinessGenerator.BusinessGenerator.GenerateBatch | switch-components/snowflake/business_generator.go:42-53 | count <= 0 errors; otherwise exactly count next ids in order |
| BusinessGenerator.BusinessGenerator.GeneratePrefixBatch | switch-components/snowflake/business_generator.go:56-67 | count <= 0 errors; otherwise count ids each written after the prefix |
| BusinessGenerator.BusinessGenerator.GetBusinessType | switch-components/snowflake/business_generator.go:70-72 | the configured business type |
| BusinessManager.BusinessManager.RegisterBusiness | switch-components/snowflake/business_manager.go:50-65 | a registered type errors; an invalid node number leaves the type unregistered; otherwise a fresh generator is filed |
| BusinessManager.BusinessManager.GetGenerator | switch-components/snowflake/business_manager.go:107-117 | found iff registered; else "not registered" |
| BusinessManager.BusinessManager.GenerateID | switch-components/snowflake/business_manager.go:68-78 | unknown type errors; otherwise the type's next id |
| BusinessManager.BusinessManager.GeneratePrefixID | switch-components/snowflake/business_manager.go:81-91 | unknown type errors; otherwise the type's next prefixed id |
| BusinessManager.BusinessManager.GenerateBatch | switch-components/snowflake/business_manager.go:94-104 | unknown type errors; otherwise the generator's batch rule |
| BusinessManager.BusinessManager.ListBusinessTypes | switch-components/snowflake/business_manager.go:120-129 | exactly the registered types, each once |
| BusinessManager.BusinessManager.RemoveBusiness | switch-components/snowflake/business_manager.go:132-142 | unknown type errors; afterwards GetGenerator errors |
| WsSwitchCache.BuildKey | switch-admin/internal/ws/switch_cache.go:82-84 | the key is "switch:" + namespace + ":" + environment |
| WsSwitchCache.KeysCollide | switch-admin/internal/ws/switch_cache.go:82-84 | two different tag pairs can share a key when a tag holds ':' |
| WsSwitchCache.Lookup | switch-admin/internal/ws/switch_cache.go:87-108 | a hit iff the key is stored and not expired, giving its data |
| WsSwitchCache.Unexpired | switch-admin/internal/ws/switch_cache.go:194-212 | exactly the unexpired entries, unchanged |
| WsSwitchCache.SetThenGet | switch-admin/internal/ws/switch_cache.go:87-127 | data stored (with the TTL of lines 22-24) at t is found up to t + ttl and missed after |
| WsSwitchCache.CleanupInvisible | switch-admin/internal/ws/switch_cache.go:87-212 | cleanup (lines 194-212) never changes what Get answers at the same time |
| WsSwitchCache.CleanupIdempotent | switch-admin/internal/ws/switch_cache.go:194-212 | cleaning up twice equals once |
| WsSwitchCache.DropExpired | switch-admin/internal/ws/switch_cache.go:205-207 | deleting exactly the expired keys leaves the unexpired entries |
| WsSwitchCache.ExpiredKeys | switch-admin/internal/ws/switch_cache.go:198-203 | the listed keys whose entries expired |
| WsSwitchCache.SwitchCache.Start | switch-admin/internal/ws/switch_cache.go:50-61 | start is idempotent and leaves the entries alone |
| WsSwitchCache.SwitchCache.Stop | switch-admin/internal/ws/switch_cache.go:64-79 | stop when not started changes nothing; otherwise marks stopped |
| WsSwitchCache.SwitchCache.Get | switch-admin/internal/ws/switch_cache.go:87-108 | answers Lookup; an expired entry is deleted |
| WsSwitchCache.SwitchCache.Set | switch-admin/internal/ws/switch_cache.go:111-127 | the entry now holds the data, expiring ttl later |
| WsSwitchCache.SwitchCache.Delete | switch-admin/internal/ws/switch_cache.go:130-138 | the key is deleted |
| WsSwitchCache.SwitchCache.Clear | switch-admin/internal/ws/switch_cache.go:141-147 | the cache is empty |
| WsSwitchCache.SwitchCache.DoCleanup | switch-admin/internal/ws/switch_cache.go:194-212 | removes exactly the expired entries |
| PcDefine.GetMessageSecurity | switch-components/pc/define.go:73-82 | register/hello are Special, config and switch pushes Trusted, all else Public (each an iff) |
| PcDefine.ShouldReconnect | switch-components/pc/define.go:122-133 | true exactly for the five transient reasons |
| PcDefine.TerminalReasons | switch-components/pc/define.go:122-157 | auth failure, external close, kick and unknown values do not reconnect; out-of-range values are "Unknown" |
| PcDefine.ReasonStringInjective | switch-components/pc/define.go:136-157 | the eight named reasons have distinct names, none "Unknown" |
| PcDefine.ReconnectByName | switch-components/pc/define.go:122-157 | a reason reconnects iff its name is one of the five transient ones |
| PcClientConfig.PositiveOr | switch-components/pc/client_config.go:51-72 | a positive setting is kept, anything else gives the default |
| PcClientConfig.GetHeartbeatInterval | switch-components/pc/client_config.go:51-56 | the configured interval if positive, else 30s; always positive |
| PcClientConfig.GetWriteTimeout | switch-components/pc/client_config.go:59-64 | the configured timeout if positive, else 10s; always positive |
| PcClientConfig.GetReadTimeout | switch-components/pc/client_config.go:67-72 | the configured timeout if positive, else 60s; always positive |
| PcClientConfig.DefaultReconnectStrategy | switch-components/pc/client_config.go:104-113 | unlimited retries, 1s initial, 10s max, factor 2, reset after 5 minutes, jitter on |
| PcClientConfig.GetReconnectStrategy | switch-components/pc/client_config.go:116-121 | the configured strategy, else the default |
| PcClientConfig.NoResetWithoutAttempts | switch-components/pc/client_config.go:139 | with zero attempts a reset is never due |
| PcClientConfig.ResetDueAfterInterval | switch-components/pc/client_config.go:133-140 | after an attempt at t a reset is due iff more than the interval has passed |
| PcClientConfig.ReconnectState.Reset | switch-components/pc/client_config.go:124-130 | attempts and next delay become 0, stamped now |
| PcClientConfig.ReconnectState.IncrementAttempts | switch-components/pc/client_config.go:166-171 | attempts grow by exactly one, stamped now |
| PcServer.DeviceAddress | switch-components/pc/server.go:462-475 | the first internal IP if set, else the first public IP if set, else the remote address |
| PcServer.GenerateDeviceKey | switch-components/pc/server.go:462-475 | address, service, namespace and environment joined by ':' |
| PcServer.SameMachineSameKey | switch-components/pc/server.go:418-475 | connections of one service reporting the same internal IP share a device key |
| PcServer.AndFilterMeaning | switch-components/pc/server.go:577-586 | the combined filter accepts iff every filter accepts; the empty list accepts |
| PcServer.LatestSound | switch-components/pc/server.go:427-448 | every device-map entry is an eligible trusted connection under its own key |
| PcServer.LatestNewest | switch-components/pc/server.go:445-447 | each eligible connection is matched by an entry of its device at least as recent |
| PcServer.DeviceMap | switch-components/pc/server.go:425-448 | the loop builds exactly the latest-per-device map |
| PcServer.DeviceList | switch-components/pc/server.go:451-454 | the map's connections in the order of a distinct key listing |
| PcServer.ListedDevices | switch-components/pc/server.go:450-457 | the listing holds every entry, one per device key |
| PcServer.Server.Start | switch-components/pc/server.go:129-171 | starting a running server errors; otherwise it runs |
| PcServer.Server.Stop | switch-components/pc/server.go:174-201 | not running gives ErrServerNotRunning; otherwise all clients are closed as external close and a failed shutdown leaves it running |
| PcServer.Server.Admit | switch-components/pc/server.go:214-235 | admitted iff below the limit; admitted connections are managed, not trusted; the limit invariant is kept |
| PcServer.Server.RemoveConnection | switch-components/pc/server.go:367-376 | a managed id leaves clients and trusted; others change nothing |
| PcServer.Server.TrustedClient | switch-components/pc/server.go:384-394 | an unmanaged id errors; otherwise the connection becomes trusted |
| PcServer.Server.TrustedActiveConnections | switch-components/pc/server.go:405-416 | exactly the active trusted connections the filter accepts |
| PcServer.Server.UniqueDeviceConnections | switch-components/pc/server.go:420-458 | eligible trusted connections, one per device key, each the latest of its device |
| PcServer.Server.SendToClient | switch-components/pc/server.go:525-539 | untrusted and inactive clients error; otherwise the send's outcome |
| PcServer.Server.GetClient | switch-components/pc/server.go:638-643 | the managed connection under the id, if any |
| YamlConfig.LookupComposes | switch-components/config/yaml_config_parse.go:189-205 | a dotted path read in two pieces: the second piece is read in the map the first leads to, nil when the first does not lead to a map[string]interface{} |
| YamlConfig.DecodedNestingUnreachable | switch-components/config/yaml_config_parse.go:189-205 | a nested map[interface{}]interface{} (what the YAML decoder produces) is never entered: keys below it read nil |
| YamlConfig.SetIn | switch-components/config/yaml_config_parse.go:52-69 | a successful write adds the first segment to the top-level keys and leaves every other top-level entry as it was |
| YamlConfig.SetFailsIffBlocked | switch-components/config/yaml_config_parse.go:56-61 | Set fails exactly when some intermediate key already holds a value that is not a map[string]interface{} |
| YamlConfig.FreshNeverFails | switch-components/config/yaml_config_parse.go:56-59 | writing under missing keys always succeeds, every intermediate map being created |
| YamlConfig.SetThenLookup | switch-components/config/yaml_config_parse.go:52-69 | after a successful Set(key, v), reading key gives v |
| YamlConfig.SetKeepsOthers | switch-components/config/yaml_config_parse.go:52-69 | a successful Set changes no key that differs from the written one in some segment |
| YamlConfig.AsString | switch-components/config/yaml_config_parse.go:72-79 | GetString yields a string value and "" for every other type |
| YamlConfig.AsBool | switch-components/config/yaml_config_parse.go:97-104 | GetBool is true exactly for the value true |
| YamlConfig.Trunc | switch-components/config/yaml_config_parse.go:89-90 | int(float64) truncates toward zero: the result is within 1 of the value, on its side of zero |
| YamlConfig.AsInt | switch-components/config/yaml_config_parse.go:82-94 | GetInt yields int and int64 values, truncates float64, 0 for every other type |
| YamlConfig.AsFloat | switch-components/config/yaml_config_parse.go:107-119 | GetFloat yields float64 values and converts int and int64, 0 for every other type |
| YamlConfig.AsStringMap | switch-components/config/yaml_config_parse.go:122-129 | GetStringMap yields a map exactly when the value is a map[string]interface{} |
| YamlConfig.AsStringSlice | switch-components/config/yaml_config_parse.go:132-143 | GetStringSlice yields, for a []interface{} only, one fmt.Sprint text per element in order |
| YamlConfig.StringListReadsBack | switch-components/config/yaml_config_parse.go:132-143 | a list of strings reads back as exactly those strings |
| YamlConfig.YamlConfig.constructor | switch-components/config/yaml_config_parse.go:19-23 | a new configuration is empty |
| YamlConfig.YamlConfig.Store | switch-components/config/yaml_config_parse.go:25-28 | Store records the path and nothing else |
| YamlConfig.YamlConfig.Load | switch-components/config/yaml_config_parse.go:31-44 | read and decode errors are reported with their prefixes and change nothing; a decoded document is merged over the tree |
| YamlConfig.YamlConfig.Get | switch-components/config/yaml_config_parse.go:47-49 | through `find` (lines 189-205), the segment-by-segment walk returns the value the path leads to (Lookup) |
| YamlConfig.YamlConfig.Set | switch-components/config/yaml_config_parse.go:52-69 | Set fails with "invalid path: <key>" and changes nothing, or installs the written tree |
| YamlConfig.YamlConfig.GetString | switch-components/config/yaml_config_parse.go:72-79 | GetString reads the key and applies AsString |
| YamlConfig.YamlConfig.GetInt | switch-components/config/yaml_config_parse.go:82-94 | GetInt reads the key and applies AsInt |
| YamlConfig.YamlConfig.GetBool | switch-components/config/yaml_config_parse.go:97-104 | GetBool reads the key and applies AsBool |
| YamlConfig.YamlConfig.GetFloat | switch-components/config/yaml_config_parse.go:107-119 | GetFloat reads the key and applies AsFloat |
| YamlConfig.YamlConfig.GetStringMap | switch-components/config/yaml_config_parse.go:122-129 | GetStringMap reads the key and applies AsStringMap |
| YamlConfig.YamlConfig.GetStringSlice | switch-components/config/yaml_config_parse.go:132-143 | GetStringSlice reads the key and applies AsStringSlice |
| YamlConfig.RegisterYaml | switch-components/config/yaml_config_parse.go:208-216 | ".yaml" and ".yml" both end up registered, an earlier registration of either kept |
| RpcConfig.InitialTimeout | switch-sdk-core/invoke/rpc/config.go:87-101 | the settled timeout is a whole number of seconds between 1 s and 1000 s: a count up to 1000 read as seconds, up to 1000000 as milliseconds cut to seconds, anything else 180 s |
| RpcConfig.SecondInitialResetsTimeout | switch-sdk-core/invoke/rpc/config.go:87-101 | Initial is not idempotent on the timeout: a settled timeout run through it again becomes 180 s |
| RpcConfig.DurationValueReplaced | switch-sdk-core/invoke/rpc/config.go:90-100 | a timeout given as whole seconds of Go duration is replaced by 180 s |
| RpcConfig.BufferSizeOr | switch-sdk-core/invoke/rpc/config.go:104-109 | a buffer size stays when positive and becomes 64 KiB otherwise |
| RpcConfig.ServerConfig.Initial | switch-sdk-core/invoke/rpc/config.go:70-140 | an empty address becomes ":10001", the timeout and buffers settle, WaitForHandlers becomes true, nothing else changes |
| RpcConfig.SettleTimeout | switch-sdk-core/invoke/rpc/config.go:87-101 | the nested timeout branches compute InitialTimeout |
| RpcConfig.DefaultServerConfig | switch-sdk-core/invoke/rpc/config.go:63-67 | the default configuration listens on ":10001" with a 180 s timeout, 64 KiB buffers and WaitForHandlers on |
| LoggerConfig.TextOr | switch-sdk-core/logger/config.go:51-74 | a text setting stays when set and takes the default when empty |
| LoggerConfig.CountOr | switch-sdk-core/logger/config.go:57-65 | a count stays when non-zero (negative included) and takes the default when zero |
| LoggerConfig.InitializedFields | switch-sdk-core/logger/config.go:50-95 | after Initial every defaulted field is set, every field already set keeps its value, and the switches, custom fields, app name and env are untouched |
| LoggerConfig.InitializedIdempotent | switch-sdk-core/logger/config.go:50-95 | Initial twice equals Initial once |
| LoggerConfig.CompleteUnchanged | switch-sdk-core/logger/config.go:50-95 | a configuration with every defaulted field set is left as it is |
| LoggerConfig.DefaultsListed | switch-sdk-core/logger/config.go:97-101 | DefaultLogConfig holds "info", "logs", "APP-%Y%m%d.log", 200/30/7, "error", "2006-01-02 15:04:05" and the keys time/level/logging/caller/msg/stack |
| LoggerConfig.LoggerConfig.constructor | switch-sdk-core/logger/config.go:98 | a new configuration is the zero configuration |
| LoggerConfig.LoggerConfig.Initial | switch-sdk-core/logger/config.go:50-95 | the fields after Initial are Initialized of the fields before |
| LoggerConfig.LoggerConfig.InitialRotation | switch-sdk-core/logger/config.go:51-62 | level, output directory, max size and max backups take their defaults when empty or zero; the other fields stay |
| LoggerConfig.LoggerConfig.InitialFormats | switch-sdk-core/logger/config.go:63-74 | max age, time format, file-name format and stack-trace level take their defaults when empty or zero; the other fields stay |
| LoggerConfig.DefaultLogConfig | switch-sdk-core/logger/config.go:97-101 | the default configuration is Initial applied to the zero configuration |
| Logging.ConvertDateFormatAsWritten | switch-components/logging/logger.go:253-258 | the result is the format after the ten `strings.Replace` calls, each over the result so far, in the map's iteration order |
| Logging.ReplacePlain | switch-components/logging/logger.go:256 | `strings.Replace` of a "%c" pattern leaves text without '%' unchanged |
| Logging.OrderCoversCodes | switch-components/logging/logger.go:241-252 | an iteration order of the ten-entry map visits every placeholder letter |
| Logging.AnyOrderAgrees | switch-components/logging/logger.go:240-259 | for every iteration order and every format without "%%", the loop gives the single-pass conversion |
| Logging.ConvertDateFormat | switch-components/logging/logger.go:240-259 | the intended single-pass conversion keeps a format without "%" as it is (the as-written loop agrees with it by AnyOrderAgrees) |
| Logging.ZBeforeM | switch-components/logging/logger.go:241-258 | when "%Z" is visited before "%M", the loop turns "%%Z" into "04ST" |
| Logging.MBeforeZ | switch-components/logging/logger.go:241-258 | when "%M" is visited before "%Z", the loop turns "%%Z" into "%MST" |
| Logging.OrderDependent | switch-components/logging/logger.go:254-258 | two possible iteration orders give different results for "%%Z" |
| Logging.SinglePassPercentZ | switch-components/logging/logger.go:241-252 | the single pass turns "%%Z" into "%MST", whatever the order |
| Logging.DailyFileName | switch-components/logging/logger.go:54 | a file name with "%Y%m%d" between plain text converts to the Go layout "20060102" in the same place |
| Logging.PlaceholdersAllReplaced | switch-components/logging/logger.go:240-259 | a format whose every '%' starts a placeholder converts to text with no '%' left |
| Message.Sprint | switch-sdk-core/resp/message.go:74 | `fmt.Sprint` of a parameter: an int64 is written so that Atoi parses it back to itself, a bool is "true" exactly when true, and every slice is written between brackets |
| Message.Placeholders | switch-sdk-core/resp/message.go:12-13 | every match found has the shape of `\{.*?\}`: opening brace, no closing brace or line break inside, closing brace at the end |
| Message.PlaceholdersInOrder | switch-sdk-core/resp/message.go:64 | placeholders are found left to right: plain text adds none, a placeholder is taken whole and the scan resumes after it |
| Message.PlaceholderStarts | switch-sdk-core/resp/message.go:12-13 | one placeholder starts another (plus any text) exactly when the two are the same placeholder |
| Message.ReplaceNothing | switch-sdk-core/resp/message.go:77-78 | a replacer given no pairs returns the text unchanged |
| Message.ReplacePlain | switch-sdk-core/resp/message.go:77-78 | text with no opening brace passes through the placeholder replacer unchanged |
| Message.MessageBuilder.constructor | switch-sdk-core/resp/message.go:30-34 | a new builder has empty template, prefix and suffix and no parameters |
| Message.MessageBuilder.WithTemplate | switch-sdk-core/resp/message.go:37-40 | sets the template, leaves the other fields alone and returns the same builder |
| Message.MessageBuilder.WithParam | switch-sdk-core/resp/message.go:43-46 | appends the values after the existing parameters, in order, and returns the same builder |
| Message.MessageBuilder.WithPrefix | switch-sdk-core/resp/message.go:49-52 | sets the prefix only |
| Message.MessageBuilder.WithSuffix | switch-sdk-core/resp/message.go:55-58 | sets the suffix only |
| Message.MessageBuilder.Build | switch-sdk-core/resp/message.go:61-88 | the result is prefix + the template with its first min(#placeholders, #parameters) placeholders paired with the parameters' renderings + suffix; equal placeholders all take the first pair's parameter |
| Message.BuildMessage | switch-sdk-core/resp/message.go:91-93 | a fresh builder with the template and parameters, so no prefix or suffix |
| Message.BuildErrorMessage | switch-sdk-core/resp/message.go:96-98 | the error text is the single parameter |
| Message.NothingToFill | switch-sdk-core/resp/message.go:66-78 | with no placeholder or no parameter the template comes back unchanged |
| Message.OnePlaceholder | switch-sdk-core/resp/message.go:61-78 | a single placeholder becomes the first parameter's rendering and the text around it is kept |
| Message.TwoPlaceholders | switch-sdk-core/resp/message.go:66-78 | the first placeholder gets the first parameter; the second gets the first parameter again when it repeats the first, otherwise the second parameter, and it stays when there is only one parameter |
| Message.RepeatedPlaceholderTakesFirstValue | switch-sdk-core/resp/message.go:71-78 | `{} and {}` with 1 and 2 builds "1 and 1" |
| Message.PositionalFillsInOrder | switch-sdk-core/resp/message.go:71-75 | filling by position gives each of two placeholders its own parameter, repeated or not |
| Message.PositionalAgreesOnDistinct | switch-sdk-core/resp/message.go:71-78 | on two distinct placeholders, filling by position is what `Build` does |
| Message.SubstitutedIsPositional | switch-sdk-core/resp/message.go:71-78 | for a template of any length whose placeholders are flat and pairwise distinct, the replacer built from the pairs fills the i-th placeholder with the i-th parameter |
| Message.ReplaceIsPositional | switch-sdk-core/resp/message.go:71-78 | from any point of the left-to-right scan, with the remaining pairs matching the remaining placeholders and parameters, the replacer writes the positional filling of the rest |
| Message.PositionalRepeated | switch-sdk-core/resp/message.go:71-75 | positional filling of `{} and {}` with 1 and 2 reads "1 and 2" |
| Message.PositionalNothing | switch-sdk-core/resp/message.go:66-69 | positional filling with no parameters leaves the text unchanged |
| JsonRaw.Value | switch-sdk-core/model/json_raw.go:11-16 | an empty value or the bytes `null` is stored as SQL NULL; anything else as its own bytes |
| JsonRaw.MarshalJSON | switch-sdk-core/model/json_raw.go:32-37 | an empty value encodes as `null`, anything else as its own bytes |
| JsonRaw.NullAgrees | switch-sdk-core/model/json_raw.go:11-37 | a value goes to SQL NULL exactly when it encodes as JSON `null` |
| JsonRaw.Scanned | switch-sdk-core/model/json_raw.go:18-30 | NULL reads as nil, bytes are copied, any other source is the error "Scan source is not []byte" |
| JsonRaw.StoreThenScan | switch-sdk-core/model/json_raw.go:11-30 | reading back a stored value gives the value, except that empty and `null` come back as nil |
| JsonRaw.ScanThenStore | switch-sdk-core/model/json_raw.go:11-30 | storing what was read gives the database value back, except that empty bytes and `null` become NULL |
| JsonRaw.Decoded | switch-sdk-core/model/json_raw.go:48-64 | an empty value decodes to nil with no error; anything else is what the JSON decoder makes of the bytes |
| JsonRaw.ToMap | switch-sdk-core/model/json_raw.go:48-55 | an empty value gives a nil map; anything else is decoded |
| JsonRaw.ToArray | switch-sdk-core/model/json_raw.go:57-64 | an empty value gives a nil slice; anything else is decoded |
| JsonRaw.JsonRawCell.constructor | switch-sdk-core/model/json_raw.go:9 | a variable holding the given bytes |
| JsonRaw.JsonRawCell.Scan | switch-sdk-core/model/json_raw.go:18-30 | on success the variable holds what `Scanned` gives; on error it is unchanged and the error is returned |
| JsonRaw.UnmarshalJSON | switch-sdk-core/model/json_raw.go:39-46 | a nil receiver is the error "JsonRaw: UnmarshalJSON on nil pointer"; otherwise the variable holds exactly the input bytes |
| JsonRaw.UnmarshalThenMarshal | switch-sdk-core/model/json_raw.go:32-46 | decoding a non-empty text and encoding it again gives the same text; empty input encodes as `null` |
| JsonRaw.MarshalThenUnmarshal | switch-sdk-core/model/json_raw.go:32-46 | encoding and decoding again gives the value back, except that an empty value comes back as `null` |
| DriverUtils.WithUsageMembers | switch-admin/internal/utils/driver_utils.go:12-29 | every driver chosen has the usage asked for, and a driver is chosen exactly when a non-nil entry holds it with that usage |
| DriverUtils.WithUsageCounts | switch-admin/internal/utils/driver_utils.go:16-24 | each driver of the usage is chosen as often as it occurs in the list, any other never |
| DriverUtils.WithUsageIdempotent | switch-admin/internal/utils/driver_utils.go:12-29 | filtering the filtered list again changes nothing |
| DriverUtils.WithUsageAppend | switch-admin/internal/utils/driver_utils.go:16-24 | filtering a concatenation is the concatenation of the filtered parts, so input order is kept |
| DriverUtils.FilterDriversByUsage | switch-admin/internal/utils/driver_utils.go:12-29 | the result is the non-nil drivers of the usage, in input order |
| DriverUtils.Encodable | switch-admin/internal/utils/driver_utils.go:39-51 | every driver kept encodes without error |
| DriverUtils.BuildDriverConfigPayloads | switch-admin/internal/utils/driver_utils.go:32-66 | one payload per non-nil driver that encodes, in order, with the driver's type and its encoding |
| DriverUtils.AllEncodable | switch-admin/internal/utils/driver_utils.go:39-57 | when encoding never fails every non-nil driver gives a payload |
| DriverUtils.EncodableFromList | switch-admin/internal/utils/driver_utils.go:39-57 | never more payloads than non-nil drivers, and each comes from a driver of the list |
| RbacMiddleware.RolesInMembers | switch-admin/internal/api/middleware/rbac_middleware.go:69-78 | a role is gathered exactly when some membership of the selected namespace lists it |
| RbacMiddleware.OtherNamespacesIgnored | switch-admin/internal/api/middleware/rbac_middleware.go:70-71 | memberships of other namespaces never change the roles gathered |
| RbacMiddleware.AllowedExactly | switch-admin/internal/api/middleware/rbac_middleware.go:16-103 | a request passes exactly when the caller is known and a super administrator, or, unless `canSuperAdmin` is the only requirement, a namespace is selected and one of its roles holds another required permission |
| RbacMiddleware.SuperAdminPasses | switch-admin/internal/api/middleware/rbac_middleware.go:37-54 | a super administrator passes whatever is required |
| RbacMiddleware.OnlySuperAdminRequired | switch-admin/internal/api/middleware/rbac_middleware.go:42-47 | requiring `canSuperAdmin` alone denies every other user with "Super admin permission required" |
| RbacMiddleware.SuperAdminNameNotGranted | switch-admin/internal/api/middleware/rbac_middleware.go:89-91 | a role permission named `canSuperAdmin` never grants it |
| RbacMiddleware.NothingRequired | switch-admin/internal/api/middleware/rbac_middleware.go:16-103 | with no requirement only a super administrator passes |
| RbacMiddleware.HasSuperAdminRequirement | switch-admin/internal/api/middleware/rbac_middleware.go:29-35 | true exactly when `canSuperAdmin` is among the requirements |
| RbacMiddleware.CollectRoles | switch-admin/internal/api/middleware/rbac_middleware.go:69-78 | returns the roles of every membership of the selected namespace, in order |
| RbacMiddleware.AnyGranted | switch-admin/internal/api/middleware/rbac_middleware.go:86-98 | true exactly when some role holds a required permission other than `canSuperAdmin` |
| RbacMiddleware.Check | switch-admin/internal/api/middleware/rbac_middleware.go:16-103 | the decision, with the message of each denial, is `Decide`, of which `AllowedExactly` states when it allows |
| Access.Selected | switch-frontend/src/access.ts:20-22 | the membership found is one whose tag is the selection; none found means no membership has it |
| Access.ComputeAccess | switch-frontend/src/access.ts:13-38 | `canSuperAdmin` is present and true exactly when the user is a super administrator or holds a permission of that name; every other key is present exactly when the selected membership's roles hold it, and is true |
| Access.AddRole | switch-frontend/src/access.ts:27-31 | the keys grow by the role's permission names, all true |
| Access.FirstMembershipOnly | switch-frontend/src/access.ts:20-22 | a later membership of the same namespace adds nothing once one is found |
| Access.NamesOfMembers | switch-frontend/src/access.ts:26-32 | a name is held exactly when one of the selected membership's roles lists it |
| Access.NoSelectedMembership | switch-frontend/src/access.ts:20-32 | without a membership of the selected namespace no permission is held |
| NamespaceMembers.DistinctFromElements | switch-admin/internal/service/namespace_members_service.go:30-39 | the ids listed are the ids of the rows not yet seen, with no id twice |
| NamespaceMembers.DistinctFromOrder | switch-admin/internal/service/namespace_members_service.go:32-39 | the ids listed stand in the order of their first row |
| NamespaceMembers.DistinctProperties | switch-admin/internal/service/namespace_members_service.go:30-39 | the approver list holds every user id of the rows, each once, in the order of its first row |
| NamespaceMembers.DistinctOfDistinct | switch-admin/internal/service/namespace_members_service.go:32-39 | a list of ids without repetition comes back unchanged |
| NamespaceMembers.FindApprovePermissionsByNamespaceTag | switch-admin/internal/service/namespace_members_service.go:20-45 | a repository error and an empty result are the two errors with their messages; otherwise the distinct user ids in order of first row, never empty |
| NamespaceMembers.NonEmptyDistinct | switch-admin/internal/service/namespace_members_service.go:40-42 | at least one row gives at least one approver, so the "approverUsers result is empty" error cannot happen |
| ApprovalService.ApprovalForm.constructor | switch-admin/internal/admin_model/approval_request.go:10-24 | a new form holds the given fields and is pending, not yet decided |
| ApprovalService.Transition | switch-admin/internal/service/approval_service.go:56-63 | only a pending form can be decided; status 0 rejects it and any other value approves it |
| ApprovalService.DecidedIsFinal | switch-admin/internal/service/approval_service.go:56-63 | a form that was approved or rejected can never be decided again |
| ApprovalService.AfterDecision | switch-admin/internal/service/approval_service.go:74-127 | a namespace form adds the requester to the namespace with the ordinary role; a switch form records the status on the switch unless its version is gone; an unknown type is the error "unknown approval type"; a failure writes nothing |
| ApprovalService.StaleSwitchSkipped | switch-admin/internal/service/approval_service.go:109-117 | when the switch version the form refers to is gone the decision succeeds and the switch is not written |
| ApprovalService.ApproveRequest | switch-admin/internal/service/approval_service.go:47-129 | a missing or non-pending form is an error that changes nothing; otherwise the form records the new status, the notes, the approver, the time and the updater, is saved, and the type's writes follow; a failure commits nothing |
| ApprovalService.StatusLabel | switch-admin/internal/service/approval_service.go:232-241 | each of the three statuses gets its label, any other status none |
| ApprovalService.StatusLabelsDistinct | switch-admin/internal/service/approval_service.go:232-241 | a status has a label exactly when it is one of the three, and different statuses have different labels |
| ApprovalService.KnownNames | switch-admin/internal/service/approval_service.go:259-263 | never more names than approver ids |
| ApprovalService.KnownNamesMembers | switch-admin/internal/service/approval_service.go:257-265 | a name is listed exactly when one of the approver ids maps to it, so ids missing from the user mapping are dropped |
| ApprovalService.AllKnown | switch-admin/internal/service/approval_service.go:259-263 | when every id is known each one gives its name, in order |
| ApprovalService.ApproverNames | switch-admin/internal/service/approval_service.go:258-263 | the loop gathers exactly the known names in id order |
| ApprovalService.ApproversText | switch-admin/internal/service/approval_service.go:257-265 | a form with approvers shows a bracketed list; a form without shows nothing |
| ApprovalService.BuildApprovalView | switch-admin/internal/service/approval_service.go:204-268 | no view exactly when the details do not decode for the form's type; otherwise the type label, the status label, the requester's and approver's names (or "") and the approver list |
| RuleValidator.SubPath | switch-frontend/src/utils/ruleValidator.ts:44 | a property path extends the parent path, and at the top level it is the bare name |
| RuleValidator.ChildPath | switch-frontend/src/utils/ruleValidator.ts:236 | a child's path lies below `path.children[` |
| RuleValidator.ScalarTypeErrors | switch-frontend/src/utils/ruleValidator.ts:81-124 | the array, string, number and boolean checks give at most one type error, at the config's own path |
| RuleValidator.RequiredStep | switch-frontend/src/utils/ruleValidator.ts:41-51 | the required names are checked one after another, each adding at most its own error |
| RuleValidator.PropertiesStep | switch-frontend/src/utils/ruleValidator.ts:69-78 | the declared properties are checked one after another, each adding the errors of its sub-schema |
| RuleValidator.ValidateConfigBySchema | switch-frontend/src/utils/ruleValidator.ts:24-129 | the errors pushed are exactly the reference list: none for a falsy or non-object schema, else the required errors followed by the type errors |
| RuleValidator.CheckRequiredPart | switch-frontend/src/utils/ruleValidator.ts:40-52 | the required check runs only when `required` is an array |
| RuleValidator.CheckTypePart | switch-frontend/src/utils/ruleValidator.ts:55 | the type check runs only when the schema has a type and the config is neither undefined nor null |
| RuleValidator.CheckRequired | switch-frontend/src/utils/ruleValidator.ts:41-51 | the loop pushes one fieldRequired error per missing name, in order |
| RuleValidator.CheckType | switch-frontend/src/utils/ruleValidator.ts:56-125 | the switch on the type gives the reference type errors, an object schema rejecting non-objects and arrays |
| RuleValidator.CheckProperties | switch-frontend/src/utils/ruleValidator.ts:67-79 | the recursion over the declared properties gives each sub-check's errors, in declaration order |
| RuleValidator.CheckScalarType | switch-frontend/src/utils/ruleValidator.ts:81-124 | the scalar cases push at most the one mismatch error of the reference |
| RuleValidator.FindOption | switch-frontend/src/utils/ruleValidator.ts:180 | no factor is found exactly when no id matches; a factor found is in the catalogue and has the id |
| RuleValidator.FindOptionFirst | switch-frontend/src/utils/ruleValidator.ts:180 | `find` returns the first factor with the id |
| RuleValidator.ChildrenStep | switch-frontend/src/utils/ruleValidator.ts:232-239 | the children are checked one after another under `path.children[i]` |
| RuleValidator.ValidateRuleNode | switch-frontend/src/utils/ruleValidator.ts:132-254 | the errors pushed are exactly the reference list for the node and everything below it |
| RuleValidator.ValidateGroup | switch-frontend/src/utils/ruleValidator.ts:220-241 | a group without a non-empty children array gets one error, otherwise its children's errors in order |
| RuleValidator.ValidateLeaf | switch-frontend/src/utils/ruleValidator.ts:148-217 | a leaf gets its presence errors, then, with an id and a factor name, the catalogue errors |
| RuleValidator.CheckCatalogue | switch-frontend/src/utils/ruleValidator.ts:179-216 | an unknown id or an unparsable schema is one error; otherwise the config's errors under `path.config`, named by the factor's name or the leaf's factor |
| RuleValidator.ValidateParsedRule | switch-frontend/src/utils/ruleValidator.ts:257-267 | the result lists the tree's errors from `root` and is valid exactly when there are none |
| RuleValidator.FormatValidationErrors | switch-frontend/src/utils/ruleValidator.ts:270-284 | `formatValidationErrors`: no errors give the "validation passed" message; with errors none of whose lines holds a newline, splitting the text at newlines gives back exactly one line per error, in order |
| RuleValidator.ErrorLineEndsWithPath | switch-frontend/src/utils/ruleValidator.ts:279-282 | every error line ends with the error's path in parentheses |
| RuleValidator.ErrorLineNamesFactor | switch-frontend/src/utils/ruleValidator.ts:279 | a line starts with the factor name in brackets when the error has one, and with the translated message otherwise |
| RuleValidator.RequiredErrorsSound | switch-frontend/src/utils/ruleValidator.ts:41-51 | every required-field error is the error of a missing name |
| RuleValidator.RequiredErrorsComplete | switch-frontend/src/utils/ruleValidator.ts:41-51 | every missing name is reported |
| RuleValidator.RequiredErrorsExactly | switch-frontend/src/utils/ruleValidator.ts:40-52 | an error is among the required errors if and only if it is the error of a missing name |
| RuleValidator.RequiredErrorsShape | switch-frontend/src/utils/ruleValidator.ts:43-49 | required errors are all fieldRequired errors below the config's path |
| RuleValidator.FalsyConfigMissesAll | switch-frontend/src/utils/ruleValidator.ts:42 | a falsy config misses every required name |
| RuleValidator.ConfigErrorsShape | switch-frontend/src/utils/ruleValidator.ts:24-129 | a config check reports only required-field and type errors, all at or below its starting path |
| RuleValidator.RequiredPartShape | switch-frontend/src/utils/ruleValidator.ts:40-52 | the required part reports only config keys below the path |
| RuleValidator.TypePartShape | switch-frontend/src/utils/ruleValidator.ts:55-126 | the type part reports only config keys below the path |
| RuleValidator.TypeErrorsShape | switch-frontend/src/utils/ruleValidator.ts:56-125 | the type switch reports only config keys below the path |
| RuleValidator.PropertiesShape | switch-frontend/src/utils/ruleValidator.ts:69-78 | the property recursion reports only config keys below the path |
| RuleValidator.CatalogueErrorsShape | switch-frontend/src/utils/ruleValidator.ts:179-216 | the catalogue check reports only catalogue and config keys, at or below the leaf's path |
| RuleValidator.NodeErrorPaths | switch-frontend/src/utils/ruleValidator.ts:132-254 | every error of a tree lies at or below the path it was checked from |
| RuleValidator.LeafErrorPaths | switch-frontend/src/utils/ruleValidator.ts:148-217 | every error of a leaf lies at or below its path |
| RuleValidator.ChildErrorPaths | switch-frontend/src/utils/ruleValidator.ts:232-239 | every error of a group's children lies below `path.children[` |
| RuleValidator.FalsyNodeValid | switch-frontend/src/utils/ruleValidator.ts:139-141 | a falsy node has no errors |
| RuleValidator.BasicLeafKeys | switch-frontend/src/utils/ruleValidator.ts:150-175 | the presence checks report an id, a name or a config error exactly when that part is missing |
| RuleValidator.LeafPresenceErrors | switch-frontend/src/utils/ruleValidator.ts:148-217 | a leaf reports an id error exactly when the id is missing or 0, a name error exactly when the factor is missing or empty, a config error exactly when the config is undefined, null or empty, and these come first |
| RuleValidator.LeafStartsWithPresence | switch-frontend/src/utils/ruleValidator.ts:148-179 | a leaf's errors start with its presence errors |
| RuleValidator.CatalogueKeysOnly | switch-frontend/src/utils/ruleValidator.ts:179-216 | keys the catalogue check never reports come only from the presence checks |
| RuleValidator.UnknownFactorStops | switch-frontend/src/utils/ruleValidator.ts:180-191 | a leaf whose id is not in the catalogue ends with factorNotFound, after at most the config error, and its schema is never used |
| RuleValidator.ChildlessGroup | switch-frontend/src/utils/ruleValidator.ts:222-229 | a group without a non-empty children array gets exactly the one groupNodeChildrenRequired error |
| RuleValidator.GroupReportsChildren | switch-frontend/src/utils/ruleValidator.ts:230-240 | a group reports every error of each child under `path.children[i]`, and nothing outside `path.children[` |
| RuleValidator.ChildrenContain | switch-frontend/src/utils/ruleValidator.ts:232-239 | the errors of each child are among the children's errors |
| RuleValidator.UnknownNodeType | switch-frontend/src/utils/ruleValidator.ts:244-251 | a node type other than AND and OR gives exactly one invalidNodeType error |
| RuleValidator.ObjectRejectsArray | switch-frontend/src/utils/ruleValidator.ts:57-66 | an object schema rejects an array config with actual type "array" |
| RuleValidator.ObjectTypeErrors | switch-frontend/src/utils/ruleValidator.ts:67-79 | an object config under an object schema with properties is checked property by property |
| RuleValidator.ObjectChecksProperties | switch-frontend/src/utils/ruleValidator.ts:67-79 | every declared property's errors under `path.key` are among the object's errors |
| RuleValidator.PropertiesContain | switch-frontend/src/utils/ruleValidator.ts:69-78 | the errors of each declared property are among the properties' errors |
| RuleBuilder.AssignProps | switch-frontend/src/pages/switch/components/RuleBuilder.tsx:476-478 | a spread copy `{...node, [key]: value}` has the new value at `key`, every other property unchanged, and the same property names when `key` was already there |
| RuleBuilder.ChildList | switch-frontend/src/pages/switch/components/RuleBuilder.tsx:197-198 | copying the children (an empty list when they are falsy) fails exactly when the children are truthy but neither an array nor a string |
| RuleBuilder.AddFactorAppends | switch-frontend/src/pages/switch/components/RuleBuilder.tsx:191-203 | adding a leaf appends exactly one `{id: 0, factor: '', config: ''}` after the existing children and changes no other property |
| RuleBuilder.AddGroupAppends | switch-frontend/src/pages/switch/components/RuleBuilder.tsx:205-217 | adding a group appends exactly one empty AND group and changes no other property |
| RuleBuilder.UpdateChildReplacesOne | switch-frontend/src/pages/switch/components/RuleBuilder.tsx:219-223 | updating child `i` in range replaces that child only, keeping the number of children and every other property |
| RuleBuilder.SetElementPastEnd | switch-frontend/src/pages/switch/components/RuleBuilder.tsx:221 | an index past the end grows the children to `index + 1` with holes before the new child |
| RuleBuilder.SpliceOneRemoves | switch-frontend/src/pages/switch/components/RuleBuilder.tsx:227 | `splice(i, 1)` in range removes one element and keeps the others in order; past the end it removes nothing; a negative index counts from the end |
| RuleBuilder.DeleteChildRemovesOne | switch-frontend/src/pages/switch/components/RuleBuilder.tsx:225-229 | deleting child `i` in range leaves the other children in their order and every other property unchanged |
| RuleBuilder.ToggleOperator | switch-frontend/src/pages/switch/components/RuleBuilder.tsx:231-248 | `toggleOperator` on a group always leaves AND or OR, gives OR exactly when the node was AND, and changes nothing but the node type |
| RuleBuilder.ToggleTwice | switch-frontend/src/pages/switch/components/RuleBuilder.tsx:231-248 | toggling an AND or OR group twice gives back the same node |
| RuleBuilder.SelectFactorSets | switch-frontend/src/pages/switch/components/RuleBuilder.tsx:521-530 | choosing a factor sets the id, the key of the first catalogue entry with that id (or '' when none has it), clears the config, and keeps every other property |
| RuleBuilder.ChildrenValue | switch-frontend/src/pages/switch/components/RuleBuilder.tsx:41-43 | the children of the spread copy are the node's own children |
| RuleBuilder.ParseConfigSucceeds | switch-frontend/src/pages/switch/components/RuleBuilder.tsx:27-46 | `parseConfigToJson` (the member ParseConfigToJson, mutually recursive with ParseChildren, so stated here): parsing a tree fails exactly when some truthy `children` in it is not an array |
| RuleBuilder.ParseChildrenSucceeds | switch-frontend/src/pages/switch/components/RuleBuilder.tsx:41-43 | mapping the children succeeds exactly when every child's tree does, and keeps their number |
| RuleBuilder.ParseChildrenElementwise | switch-frontend/src/pages/switch/components/RuleBuilder.tsx:41-43 | each mapped child is the parse of the child at the same place |
| RuleBuilder.ParseConfigValue | switch-frontend/src/pages/switch/components/RuleBuilder.tsx:31-38 | a truthy string config that parses is replaced by its value; unparsable text and non-string configs are kept |
| RuleBuilder.ParseConfigKeepsOthers | switch-frontend/src/pages/switch/components/RuleBuilder.tsx:28 | every property but config and children is copied unchanged |
| RuleBuilder.ParseConfigChildren | switch-frontend/src/pages/switch/components/RuleBuilder.tsx:41-43 | array children are parsed one by one, in place, keeping their number |
| RuleBuilder.InitialGroupNeedsChildren | switch-frontend/src/pages/switch/components/RuleBuilder.tsx:78-85 | a rule just created is an empty AND group, which the validator rejects with groupNodeChildrenRequired alone |
| RuleBuilder.NewFactorIncomplete | switch-frontend/src/pages/switch/components/RuleBuilder.tsx:191-196 | a leaf just added gets exactly the factorIdRequired, factorNameRequired and factorConfigRequired errors |
| UniversalFormRenderer.EffectiveSchemaValid | switch-frontend/src/pages/switch/components/UniversalFormRenderer.tsx:71-91 | the schema rendered is always valid, and is the input itself when that is valid, else the string fallback; choosing twice changes nothing |
| UniversalFormRenderer.IsValidSchema | switch-frontend/src/pages/switch/components/UniversalFormRenderer.tsx:71-75 | `isValidSchema` holds only of an object literal with some property: `typeof` also admits arrays and null, but neither carries a `type`, `properties`, `$schema`, `items` or `enum` |
| UniversalFormRenderer.DefaultValueTyped | switch-frontend/src/pages/switch/components/UniversalFormRenderer.tsx:93-115 | without a default, the default value has the schema's type and is its empty value: "" for a string, 0 for a number, false for a boolean, {} for an object, [] for an array; an unknown type gives undefined |
| UniversalFormRenderer.ExplicitDefaultWins | switch-frontend/src/pages/switch/components/UniversalFormRenderer.tsx:94-96 | a default that is present is used whatever the type says |
| UniversalFormRenderer.FormDataCases | switch-frontend/src/pages/switch/components/UniversalFormRenderer.tsx:117-140 | non-text values are used as they are; undefined or empty text is the default; other text is parsed, falling back to the default when parsing fails |
| UniversalFormRenderer.FormDataReadsEmitted | switch-frontend/src/pages/switch/components/UniversalFormRenderer.tsx:117-140 | text the editor emitted for a structured schema reads back as the value it held when the JSON text round-trips |
| UniversalFormRenderer.Read | switch-frontend/src/pages/switch/components/UniversalFormRenderer.tsx:158-164 | reading a step throws exactly on undefined or null, and otherwise gives the property |
| UniversalFormRenderer.Write | switch-frontend/src/pages/switch/components/UniversalFormRenderer.tsx:162-168 | writing a step sets an object property or an array element and throws on every primitive |
| UniversalFormRenderer.Fresh | switch-frontend/src/pages/switch/components/UniversalFormRenderer.tsx:159-163 | a missing step becomes an array exactly when the next key is all digits, else an object |
| UniversalFormRenderer.SetPathLands | switch-frontend/src/pages/switch/components/UniversalFormRenderer.tsx:153-168 | where every step is writable, the write succeeds and reading the path back gives the new value |
| UniversalFormRenderer.GetPath | switch-frontend/src/pages/switch/components/UniversalFormRenderer.tsx:157-168 | reading a path one key at a time, as the walk `current = current[key]` does, is reading the path without its last key and then that key (the `finalKey` step) |
| UniversalFormRenderer.SetPathInObject | switch-frontend/src/pages/switch/components/UniversalFormRenderer.tsx:153-168 | a write through an object changes only the property walked into, loses no property, and that property is the write of the rest of the path |
| UniversalFormRenderer.SetPathCreates | switch-frontend/src/pages/switch/components/UniversalFormRenderer.tsx:159-163 | a falsy step ends up an array exactly when the next key is numeric, else an object |
| UniversalFormRenderer.SetPathPrimitiveFails | switch-frontend/src/pages/switch/components/UniversalFormRenderer.tsx:162-168 | writing below a number, boolean, string, null or undefined always throws |
| UniversalFormRenderer.Descend | switch-frontend/src/pages/switch/components/UniversalFormRenderer.tsx:157-165 | the descending loop records the containers it passes and fails exactly when the walk throws |
| UniversalFormRenderer.Ascend | switch-frontend/src/pages/switch/components/UniversalFormRenderer.tsx:153-168 | storing back up the frames equals the rebuild of the updated value |
| UniversalFormRenderer.UpdatePath | switch-frontend/src/pages/switch/components/UniversalFormRenderer.tsx:153-168 | the loop's updated data equals the path write SetPath |
| UniversalFormRenderer.RootChange | switch-frontend/src/pages/switch/components/UniversalFormRenderer.tsx:143-150 | at the root a primitive schema or non-text value hands the new value on, and a structured schema given text re-stringifies it |
| UniversalFormRenderer.HandleChange | switch-frontend/src/pages/switch/components/UniversalFormRenderer.tsx:142-172 | the value handed to onChange equals ChangeResult, None when the copy or the walk throws |
| UniversalFormRenderer.CopyChange | switch-frontend/src/pages/switch/components/UniversalFormRenderer.tsx:153 | the deep copy and write equal CopyAndChange |
| UniversalFormRenderer.ApplyChange | switch-frontend/src/pages/switch/components/UniversalFormRenderer.tsx:153-171 | the write into the copy and the hand-off equal NestedChange |
| UniversalFormRenderer.ChangeKeepsForm | switch-frontend/src/pages/switch/components/UniversalFormRenderer.tsx:170 | below the root the edit goes out as text exactly when the editor was given text |
| UniversalFormRenderer.ChangeLandsValue | switch-frontend/src/pages/switch/components/UniversalFormRenderer.tsx:153-171 | an edit of round-tripping form data along writable steps lands the new value at the path, and text goes out as the updated data's text |
| UniversalFormRenderer.RootPrimitiveChange | switch-frontend/src/pages/switch/components/UniversalFormRenderer.tsx:143-145 | at the root a string, number or boolean schema hands the new value on untouched |
| UniversalFormRenderer.AddArrayItem | switch-frontend/src/pages/switch/components/UniversalFormRenderer.tsx:452-455 | the add button appends exactly one element and keeps the others |
| UniversalFormRenderer.NewItemIsDefault | switch-frontend/src/pages/switch/components/UniversalFormRenderer.tsx:452 | the appended item is the default of an object or string item schema without its own default |
| SwitchFactorSchema.SchemaValidation | switch-frontend/src/pages/switch-factor/components/CreateUpdateForm.tsx:21-128 | blank text, unparsable text and a null schema each give one error; otherwise the errors are the rules' findings, and the schema is valid exactly when there are none |
| SwitchFactorSchema.ValidateJsonSchema | switch-frontend/src/pages/switch-factor/components/CreateUpdateForm.tsx:21-128 | the error pushes of validateJsonSchema produce exactly SchemaValidation |
| SwitchFactorSchema.CheckHead | switch-frontend/src/pages/switch-factor/components/CreateUpdateForm.tsx:31-43 | the base checks push exactly the object, type-name and properties errors |
| SwitchFactorSchema.CheckRequiredItems | switch-frontend/src/pages/switch-factor/components/CreateUpdateForm.tsx:51-55 | the loop over required reports exactly the non-string elements, by index |
| SwitchFactorSchema.CheckRequiredNames | switch-frontend/src/pages/switch-factor/components/CreateUpdateForm.tsx:58-63 | the loop over required reports exactly the string names with no own property |
| SwitchFactorSchema.CheckRequired | switch-frontend/src/pages/switch-factor/components/CreateUpdateForm.tsx:46-68 | the checks on required push exactly RequiredErrors |
| SwitchFactorSchema.CheckBounds | switch-frontend/src/pages/switch-factor/components/CreateUpdateForm.tsx:71-87 | the items and bound-type checks push exactly their errors, in order |
| SwitchFactorSchema.CheckRanges | switch-frontend/src/pages/switch-factor/components/CreateUpdateForm.tsx:90-96 | the range checks push exactly their errors, in order |
| SwitchFactorSchema.CheckTypeRules | switch-frontend/src/pages/switch-factor/components/CreateUpdateForm.tsx:99-109 | the object and array type rules push exactly their errors |
| SwitchFactorSchema.CheckApplicability | switch-frontend/src/pages/switch-factor/components/CreateUpdateForm.tsx:112-122 | the constraint-applicability checks push exactly their errors |
| SwitchFactorSchema.CheckTail | switch-frontend/src/pages/switch-factor/components/CreateUpdateForm.tsx:71-122 | every check after required pushes exactly TailErrors |
| SwitchFactorSchema.RequiredItemErrors | switch-frontend/src/pages/switch-factor/components/CreateUpdateForm.tsx:51-55 | every error reported is a non-string-element error whose index lies inside required |
| SwitchFactorSchema.RequiredNameErrors | switch-frontend/src/pages/switch-factor/components/CreateUpdateForm.tsx:58-63 | every error reported is a name-not-in-properties error |
| SwitchFactorSchema.GreaterOnNumbers | switch-frontend/src/pages/switch-factor/components/CreateUpdateForm.tsx:90 | between numbers, the comparison is the order of the integers |
| SwitchFactorSchema.BlankRejected | switch-frontend/src/pages/switch-factor/components/CreateUpdateForm.tsx:22-24 | text made only of whitespace is rejected with exactly the request for content |
| SwitchFactorSchema.SyntaxErrorRejected | switch-frontend/src/pages/switch-factor/components/CreateUpdateForm.tsx:125-127 | unparsable text is rejected with exactly one syntax error carrying the parser's message |
| SwitchFactorSchema.ParsedJudgedByRules | switch-frontend/src/pages/switch-factor/components/CreateUpdateForm.tsx:26-124 | text that parses to anything but null is judged by the rules alone, and is valid exactly when they find nothing |
| SwitchFactorSchema.UnsupportedTypeExactly | switch-frontend/src/pages/switch-factor/components/CreateUpdateForm.tsx:36-38 | a type is reported unsupported exactly when it is truthy and not one of the seven names, shown as its text |
| SwitchFactorSchema.HeadUnsupported | switch-frontend/src/pages/switch-factor/components/CreateUpdateForm.tsx:36-38 | among the base rules only the type rule reports an unsupported type |
| SwitchFactorSchema.TailOwnKinds | switch-frontend/src/pages/switch-factor/components/CreateUpdateForm.tsx:71-122 | the rules after required never report a type or a required element |
| SwitchFactorSchema.RequiredNameReported | switch-frontend/src/pages/switch-factor/components/CreateUpdateForm.tsx:58-63 | with an array required and an object properties, a name is reported exactly when required lists it and properties lacks it |
| SwitchFactorSchema.RequiredItemReported | switch-frontend/src/pages/switch-factor/components/CreateUpdateForm.tsx:51-55 | with an array required, element i is reported exactly when it is not a string |
| SwitchFactorSchema.RequiredItemExactly | switch-frontend/src/pages/switch-factor/components/CreateUpdateForm.tsx:51-55 | the element loop reports index i exactly when element i is not a string |
| SwitchFactorSchema.RequiredNameExactly | switch-frontend/src/pages/switch-factor/components/CreateUpdateForm.tsx:58-63 | the name loop reports a name exactly when a string element is that name and properties lacks it |
| SwitchFactorSchema.MinAboveMaxReported | switch-frontend/src/pages/switch-factor/components/CreateUpdateForm.tsx:90-92 | a numeric minimum above the maximum is always reported |
| SwitchFactorSchema.MinLengthAboveMaxLengthReported | switch-frontend/src/pages/switch-factor/components/CreateUpdateForm.tsx:94-96 | a minimum length above the maximum length is always reported |
| SwitchFactorSchema.ArrayWithoutItemsReported | switch-frontend/src/pages/switch-factor/components/CreateUpdateForm.tsx:105-109 | an array schema without items is always reported |
| SwitchFactorSchema.OrderedStringSchemaAccepted | switch-frontend/src/pages/switch-factor/components/CreateUpdateForm.tsx:21-124 | a string schema with only type, minLength and maxLength, in order, has no errors |
| SwitchFactorEditor.ProcessShape | switch-frontend/src/pages/switch-factor/components/CreateUpdateForm.tsx:168-199 | `processSchema` (the member ProcessSchema, mutually recursive with its helpers, so stated here and in the rows below): a value that is not an object, or is null, comes back unchanged; an object or array comes back as an object |
| SwitchFactorEditor.ProcessType | switch-frontend/src/pages/switch-factor/components/CreateUpdateForm.tsx:173-177 | the processed type is "string" exactly when format or pattern is truthy and type is not; otherwise the original type |
| SwitchFactorEditor.ProcessInfersString | switch-frontend/src/pages/switch-factor/components/CreateUpdateForm.tsx:168-177 | a schema with a format or pattern and no type is typed "string" |
| SwitchFactorEditor.ProcessKeepsType | switch-frontend/src/pages/switch-factor/components/CreateUpdateForm.tsx:175-177 | a truthy type is never replaced |
| SwitchFactorEditor.ProcessCombinatorElements | switch-frontend/src/pages/switch-factor/components/CreateUpdateForm.tsx:179-184 | an anyOf, oneOf or allOf array keeps its length and each element is processed recursively |
| SwitchFactorEditor.ProcessNestedFields | switch-frontend/src/pages/switch-factor/components/CreateUpdateForm.tsx:186-196 | truthy items are processed recursively; each property of an object properties is processed recursively under its own name |
| SwitchFactorEditor.ProcessKeepsOthers | switch-frontend/src/pages/switch-factor/components/CreateUpdateForm.tsx:173-198 | every field other than type, the combinators, items and properties is copied unchanged |
| SwitchFactorEditor.ProcessItemsElementwise | switch-frontend/src/pages/switch-factor/components/CreateUpdateForm.tsx:182 | the mapped array has the processed element at each position |
| SwitchFactorEditor.ProcessEntriesLookup | switch-frontend/src/pages/switch-factor/components/CreateUpdateForm.tsx:190-195 | the rebuilt properties hold the processed schema under every original name |
| SwitchFactorEditor.ProcessEntries | switch-frontend/src/pages/switch-factor/components/CreateUpdateForm.tsx:190-195 | the rebuilt properties have the same names in the same order |
| SwitchFactorEditor.AvailableProperties | switch-frontend/src/pages/switch-factor/components/CreateUpdateForm.tsx:220-238 | every type offers the common fields |
| SwitchFactorEditor.Unowned | switch-frontend/src/pages/switch-factor/components/CreateUpdateForm.tsx:537 | a name is kept exactly when it is listed and the schema does not own it |
| SwitchFactorEditor.UnusedProperties | switch-frontend/src/pages/switch-factor/components/CreateUpdateForm.tsx:535-537 | the add menu never offers a field the schema already owns |
| SwitchFactorEditor.WithProperty | switch-frontend/src/pages/switch-factor/components/CreateUpdateForm.tsx:240-271 | the added field is present and every other field is as in the copy |
| SwitchFactorEditor.AddedNotOffered | switch-frontend/src/pages/switch-factor/components/CreateUpdateForm.tsx:240-271 | a field just added is no longer offered by the add menu |
| SwitchFactorEditor.AddKeepsPresentContainer | switch-frontend/src/pages/switch-factor/components/CreateUpdateForm.tsx:243-248 | adding properties or required when already truthy keeps the existing value |
| SwitchFactorEditor.WithoutProperty | switch-frontend/src/pages/switch-factor/components/CreateUpdateForm.tsx:273-277 | the removed field is absent and every other field is as in the copy |
| SwitchFactorEditor.KeepAvailable | switch-frontend/src/pages/switch-factor/components/CreateUpdateForm.tsx:284-290 | a field is kept exactly when it was present and is type or offered; kept fields keep their values |
| SwitchFactorEditor.TypeChangeKeepsOffered | switch-frontend/src/pages/switch-factor/components/CreateUpdateForm.tsx:280-294 | after a type change every field is type or offered by the new type, type holds the new value, offered fields keep their values |
| SwitchFactorEditor.UpdateSetsField | switch-frontend/src/pages/switch-factor/components/CreateUpdateForm.tsx:280-283 | any other update sets that field and leaves the others |
| SwitchFactorEditor.DropSeenStep | switch-frontend/src/pages/switch-factor/components/CreateUpdateForm.tsx:286-290 | one pass of the loop deletes the key when it neither is type nor is offered, otherwise keeps everything |
| SwitchFactorEditor.DropSeenAll | switch-frontend/src/pages/switch-factor/components/CreateUpdateForm.tsx:286-290 | having visited every key the loop leaves exactly the surviving fields |
| SwitchFactorEditor.DropEach | switch-frontend/src/pages/switch-factor/components/CreateUpdateForm.tsx:286-290 | the loop's result is the fields left after deleting each visited key that does not survive |
| SwitchFactorEditor.DropUnavailable | switch-frontend/src/pages/switch-factor/components/CreateUpdateForm.tsx:284-290 | the forEach over Object.keys leaves exactly the surviving fields, in order |
| SwitchFactorEditor.SchemaEditor.Load | switch-frontend/src/pages/switch-factor/components/CreateUpdateForm.tsx:201-211 | non-empty text that parses replaces the schema; empty text or a parse error keeps it |
| SwitchFactorEditor.SchemaEditor.UpdateSchema | switch-frontend/src/pages/switch-factor/components/CreateUpdateForm.tsx:213-217 | read-only changes nothing; otherwise the schema is stored and its text appended to what onChange received |
| SwitchFactorEditor.SchemaEditor.AddProperty | switch-frontend/src/pages/switch-factor/components/CreateUpdateForm.tsx:240-271 | the new schema is the copy with the field added and its text is handed on; read-only changes nothing |
| SwitchFactorEditor.SchemaEditor.RemoveProperty | switch-frontend/src/pages/switch-factor/components/CreateUpdateForm.tsx:273-277 | the new schema is the copy without the field; read-only changes nothing |
| SwitchFactorEditor.SchemaEditor.UpdateProperty | switch-frontend/src/pages/switch-factor/components/CreateUpdateForm.tsx:280-294 | the new schema is the copy with the field set and, for a type change, only surviving fields; read-only changes nothing |
| Factors.ContainsString | switch-sdk-core/factor/factors.go:55-63 | true exactly when the value occurs in the slice |
| Factors.SomeItemIs | switch-sdk-core/factor/factors.go:73-80 | true exactly when some item of the `[]interface{}` value has the given string form |
| Factors.MatchValue | switch-sdk-core/factor/factors.go:65-91 | a nil context or config value never matches; a string config matches on the context's string form; a list config when some item's string form equals the context's; a string slice when it holds it; a bool config on the context's bool conversion; any other type on equal string forms |
| Factors.MatchNumbers | switch-sdk-core/factor/factors.go:83-84 | integer and decoded-JSON-number values match exactly when the numbers are equal |
| Factors.MatchStringInList | switch-sdk-core/factor/factors.go:73-80 | a string context value matches a list of strings exactly when the list holds it |
| FactorFilter.AggregatingTypes | switch-sdk-go/core/filter/factor_filter.go:33-46 | AND and OR are recognised case-insensitively, only on non-empty node types, and AND is checked first |
| FactorFilter.Calculate | switch-sdk-go/core/filter/factor_filter.go:80-113 | a leaf without a factor name is false and dispatches nothing; otherwise its value is the dispatcher's answer for its factor and config, with that one leaf dispatched |
| FactorFilter.AndFromAll | switch-sdk-go/core/filter/factor_filter.go:56-62 | the AND loop is true exactly when every remaining child is true |
| FactorFilter.OrFromAny | switch-sdk-go/core/filter/factor_filter.go:67-73 | the OR loop is true exactly when some remaining child is true |
| FactorFilter.AggregateMeaning | switch-sdk-go/core/filter/factor_filter.go:49-78 | an AND node is true iff all children are true (so true with none); an OR node iff it has no children or some child is true; every other node is evaluated as a leaf |
| FactorFilter.AndStopsAtFirstFalse | switch-sdk-go/core/filter/factor_filter.go:56-61 | AND stops at its first false child: the result is false and only the leaves of the children up to that one are dispatched |
| FactorFilter.OrStopsAtFirstTrue | switch-sdk-go/core/filter/factor_filter.go:67-72 | OR stops at its first true child: the result is true and only the leaves of the children up to that one are dispatched |
| FactorFilter.Aggregate | switch-sdk-go/core/filter/factor_filter.go:49-113 | `aggregation`: through any nesting of AND and OR, only leaves with a factor name ever reach the dispatcher (its truth value is stated by AggregateMeaning) |
| FactorFilter.Filter | switch-sdk-go/core/filter/factor_filter.go:28-78 | `Filter`: the switch is on for an AND root exactly when every child subtree is on, for an OR root exactly when it has no children or some subtree is on, and for any other root exactly when its factor is named and the dispatcher answers true |
| FactorCache.Lookup | switch-sdk-go/core/cache/factor_cache.go:47-61 | a hit exactly when the (switch, factor) key is stored with a condition equal to the rule's config, and then the stored result; a miss answers false |
| FactorCache.SetThenGet | switch-sdk-go/core/cache/factor_cache.go:39-61 | after Set, a Get with the same config hits with the stored result and one with another config misses |
| FactorCache.SetOtherKey | switch-sdk-go/core/cache/factor_cache.go:39-45 | Set changes the answer for no other (switch, factor) key |
| FactorCache.Cache.constructor | switch-sdk-go/core/cache/factor_cache.go:32-37 | a new cache is empty |
| FactorCache.Cache.Set | switch-sdk-go/core/cache/factor_cache.go:39-45 | the entry of that key becomes the new condition and result, and nothing else changes |
| FactorCache.Cache.Get | switch-sdk-go/core/cache/factor_cache.go:47-61 | answers what Lookup answers for the stored map |
| SwitchRule.Register | switch-sdk-go/core/switch/switch_rule.go:36-44 | a new name is inserted; an existing one is replaced only by a strictly greater version; other names are unchanged |
| SwitchRule.RegisterMonotone | switch-sdk-go/core/switch/switch_rule.go:36-44 | registering never lowers or loses the version stored under any name |
| SwitchRule.MaxVersion | switch-sdk-go/core/switch/switch_rule.go:41 | the greatest of a start version and a list of versions, attained by one of them |
| SwitchRule.RegisterAllKeepsMax | switch-sdk-go/core/switch/switch_rule.go:36-44 | after any sequence of registrations under one name, that name holds the greatest version seen, whatever the arrival order; other names are untouched |
| SwitchRule.RuleRegistry.constructor | switch-sdk-go/core/switch/switch_rule.go:11-14 | the container starts empty |
| SwitchRule.RuleRegistry.GetRule | switch-sdk-go/core/switch/switch_rule.go:16-21 | found exactly when the name is stored, with its model |
| SwitchRule.RuleRegistry.UnregisterRule | switch-sdk-go/core/switch/switch_rule.go:23-27 | removes that name and only that name |
| SwitchRule.RuleRegistry.ClearAllRules | switch-sdk-go/core/switch/switch_rule.go:29-34 | the container becomes empty |
| SwitchRule.RuleRegistry.RegisterRule | switch-sdk-go/core/switch/switch_rule.go:36-44 | the container becomes Register of its old value |
| SwitchFactor.ExecuteMatchFactor | switch-sdk-go/core/factor/switch_factor.go:176-191 | an empty key or a nil configured value is an error (key checked first); otherwise true exactly when the context holds a non-nil value that matches |
| SwitchFactor.ExecuteStringMatchFactor | switch-sdk-go/core/factor/switch_factor.go:159-174 | an empty key or an empty value list is an error; otherwise true exactly when the context value's string form is in the list |
| SwitchFactor.ListActuator | switch-sdk-go/core/factor/switch_factor.go:29-46 | a nil config is an error; a failing match passes its error on; otherwise the match, inverted for a blacklist |
| SwitchFactor.BlacklistInverts | switch-sdk-go/core/factor/switch_factor.go:106-121 | a blacklist rule and the whitelist rule with the same key and value always give opposite answers |
| SwitchFactor.KvActuator | switch-sdk-go/core/factor/switch_factor.go:48-70 | a nil config is an error; otherwise the plain match of its key and value |
| SwitchFactor.TimeRangeActuator | switch-sdk-go/core/factor/switch_factor.go:72-88 | nil config, an unparsable start and an unparsable end are errors, in that order; true exactly when both bounds parse as int64 and now lies between them inclusive |
| SwitchFactor.SingleActuator | switch-sdk-go/core/factor/switch_factor.go:90-96 | a nil config is an error; otherwise the configured flag |
| SwitchFactor.CustomArbitrarily | switch-sdk-go/core/factor/switch_factor.go:123-139 | a nil or empty list is an error; otherwise true exactly when some entry matches without error (failing entries are skipped) |
| SwitchFactor.CustomWhole | switch-sdk-go/core/factor/switch_factor.go:141-157 | a nil or empty list is an error; true exactly when every entry matches; otherwise the answer is that of the first entry that does not match (its error or false) |
| DriverDefine.SupportedTypesExactly | switch-components/drivers/define.go:5-12 | the supported driver types are the producer and the consumer of kafka, webhook and polling: six entries |
| DriverDefine.RetryConfigEqualMeaning | switch-components/drivers/define.go:20-31 | two nil settings are equal, exactly one nil is not, otherwise count and backoff are compared; so the comparator is equality, reflexive and symmetric |
| Val.ToString | switch-sdk-core/tool/val.go:88-122 | nil is empty text, a string is itself, a slice gives JSON text between brackets, and a one-string slice is that string quoted with json.Marshal's escapes |
| Val.EscapeRoundTrip | switch-sdk-core/tool/val.go:88-122 | the escaped text of any string reads back as that string under JSON string unescaping |
| Val.EscapeHtmlSafe | switch-sdk-core/tool/val.go:88-122 | the escaped text holds no control character, no <, > or &, and no U+2028 or U+2029 |
| Val.ToStringEscapesHtml | switch-sdk-core/tool/val.go:88-122 | the slice ["a<b"] gives ["a\u003cb"] |
| Val.ToStringIntInjective | switch-sdk-core/tool/val.go:98-103 | integers and integral floats have the same text exactly when they are equal |
| Val.ToBool | switch-sdk-core/tool/val.go:381-398 | nil is false; a bool is itself; a string is true exactly for "true", "1" and "yes"; an integer exactly when non-zero |
| Val.ParseInt64 | switch-sdk-core/tool/val.go:348 | a parsed number always lies in the int64 range |
| Val.ParseIntToString | switch-sdk-core/tool/val.go:99-101 | the decimal text of any int64 parses back to the same number |
| Val.ParseDigits | switch-sdk-core/tool/val.go:348 | plain digits parse to their value exactly when it fits in int64 |
| Val.ParseNegative | switch-sdk-core/tool/val.go:348 | a minus sign before digits parses to the negated value exactly when it fits in int64 |
| Val.ToInt | switch-sdk-core/tool/val.go:312-379 | nil is an error; the empty string is 0; another string converts exactly when it parses as a decimal int64, and otherwise fails with the text of strconv.Atoi naming the Go-quoted input and "invalid syntax" or "value out of range" |
| Val.Atoi | switch-sdk-core/tool/val.go:348 | `strconv.Atoi` succeeds exactly where ParseInt64 does and with its value; its error is `strconv.Atoi: parsing ` + the Go-quoted input + `: ` + the reason |
| Val.AtoiReason | switch-sdk-core/tool/val.go:348 | an empty run of digits is invalid syntax; digits alone that fail are out of range; otherwise the value agrees with ParseInt64 |
| Val.ScanUint64 | switch-sdk-core/tool/val.go:348 | the digit loop of `strconv.ParseUint` fails only with invalid syntax or value out of range |
| Val.ScanUint64Value | switch-sdk-core/tool/val.go:348 | the digit loop succeeds exactly on digits worth at most 2^64-1, yields their value, and on digits alone never reports syntax |
| Val.ScanUint64Syntax | switch-sdk-core/tool/val.go:348 | a non-digit reached while the value still fits in uint64 is reported as invalid syntax |
| Val.ScanUint64Range | switch-sdk-core/tool/val.go:348 | digits that exceed 2^64-1 before any non-digit is reached are reported as out of range |
| Val.AtoiSyntax | switch-sdk-core/tool/val.go:348 | `strconv.Atoi` reports invalid syntax for a non-digit met before the value overflows |
| Val.AtoiRange | switch-sdk-core/tool/val.go:348 | `strconv.Atoi` reports out of range for digits overflowing uint64 before any non-digit |
| Val.AtoiRangeBeforeSyntax | switch-sdk-core/tool/val.go:348 | 2^64 followed by a letter is out of range, not invalid syntax, since digits are read left to right |
| Val.AtoiLetters | switch-sdk-core/tool/val.go:348 | `strconv.Atoi("abc")` fails with `strconv.Atoi: parsing "abc": invalid syntax` |
| Val.AtoiQuotesGoStyle | switch-sdk-core/tool/val.go:348 | `strconv.Atoi("a<b")` quotes the input Go-style, keeping `<` |
| Val.ToIntLetters | switch-sdk-core/tool/val.go:344-348 | `ToInt("abc")` passes on the strconv.Atoi error unchanged |
| Val.GoQuote | switch-sdk-core/tool/val.go:348 | `strconv.Quote` wraps its text in double quotes |
| Val.GoQuoteChar | switch-sdk-core/tool/val.go:348 | a printable character other than the quote and the backslash is written as itself, and every other one as an escape starting with a backslash |
| Val.GoQuotePlain | switch-sdk-core/tool/val.go:348 | text of printable characters without quote or backslash is quoted as it stands |
| Val.GoQuoteKeepsAngle | switch-sdk-core/tool/val.go:348 | `strconv.Quote("a<b")` keeps `<`, unlike the JSON encoder |
| StrUtil.TrimSpace | switch-components/drivers/polling_producer_driver.go:337-346 | `strings.TrimSpace` gives a slice of its input that starts and ends with non-space characters, and is empty exactly when every character was Unicode whitespace |
| StrUtil.TrimSpaceLower | switch-components/drivers/webhook_same_config.go:143 | trimming commutes with ASCII lower-casing, so normalising a URL may do either first |
| Val.ToIntWithDefault | switch-sdk-core/tool/val.go:400-407 | the default exactly when ToInt fails, otherwise ToInt's value |
| Val.InArray | switch-sdk-core/tool/val.go:137-147 | true exactly when the target occurs in the slice (false on an empty one) |
| Val.Trim | switch-sdk-core/tool/val.go:149-151 | the result is the input with a run of cut characters dropped at each end, starts and ends with no cut character, and text without cut characters is unchanged |
| Val.RandInt64 | switch-sdk-core/tool/val.go:153-159 | max itself on degenerate bounds (min >= max or either is zero); otherwise a panic (None) exactly when max - min overflows int64, and else a value in [min, max) |
| Val.Wrap64 | switch-sdk-core/tool/val.go:153-159 | int64 wrap-around: the result is in the int64 range, equals the input inside it, and is the input minus 2^64 just above it |
| Val.RandInt64WideBoundsPanic | switch-sdk-core/tool/val.go:153-159 | the bounds -6e18 and 6e18 make the wrapped difference negative, so the call panics |
| Val.String2Bytes | switch-sdk-core/tool/val.go:161-166 | the empty string gives a nil slice, any other string its bytes |
| Val.Bytes2String | switch-sdk-core/tool/val.go:168-173 | a nil slice gives the empty string, any other slice its text |
| Val.StringBytesRoundTrip | switch-sdk-core/tool/val.go:161-173 | string to bytes and back is the identity |
| Val.BytesStringRoundTrip | switch-sdk-core/tool/val.go:161-173 | bytes to string and back is the identity, except that an empty non-nil slice comes back nil |
| ConfigCache.Newer | switch-components/drivers/config_cache.go:124-129 | the entries newer than a version, in cache order, all taken from the cache |
| ConfigCache.NewerNone | switch-components/drivers/config_cache.go:100-103 | no entry is newer than a version at least as large as every cached one |
| ConfigCache.NewerAfter | switch-components/drivers/config_cache.go:112-121 | in a sorted cache, the entries after a cached version are exactly the entries newer than it |
| ConfigCache.DropExpired | switch-components/drivers/config_cache.go:152-155 | the expiry loop never grows the cache |
| ConfigCache.DropExpiredShape | switch-components/drivers/config_cache.go:152-155 | what survives expiry is a suffix that starts with an unexpired entry, and every dropped entry had expired |
| ConfigCache.CleanupSuffix | switch-components/drivers/config_cache.go:147-162 | cleanup only removes entries from the head and leaves at most maxVersions |
| ConfigCache.CleanupKeepsNewest | switch-components/drivers/config_cache.go:147-162 | the newest entry survives cleanup unless it has expired or the bound is 0 |
| ConfigCache.SuffixSorted | switch-components/drivers/config_cache.go:153-161 | dropping head entries keeps versions sorted and bounded by the counter |
| ConfigCache.CleanupOrdered | switch-components/drivers/config_cache.go:147-162 | cleanup keeps a sorted, bounded cache sorted and bounded, within maxVersions entries |
| ConfigCache.CleanupLoop | switch-components/drivers/config_cache.go:147-162 | the two trimming loops compute Cleanup of the entries |
| ConfigCache.CollectNewer | switch-components/drivers/config_cache.go:124-129 | the fallback loop collects exactly the newer entries |
| ConfigCache.ConfigCache.constructor | switch-components/drivers/config_cache.go:31-43 | an empty cache with a zero counter and the given bounds |
| ConfigCache.ConfigCache.CleanupAt | switch-components/drivers/config_cache.go:147-162 | the entries become Cleanup of the old ones at the cutoff now - maxAge, and the cache invariant holds |
| ConfigCache.ConfigCache.AddConfig | switch-components/drivers/config_cache.go:45-66 | the new entry gets counter + 1, is appended at the tail and then cleanup runs; the returned version is the new counter; sorted versions are kept |
| ConfigCache.ConfigCache.GetVersion | switch-components/drivers/config_cache.go:68-80 | found exactly when an entry has that version, and then that entry |
| ConfigCache.ConfigCache.GetLatestConfig | switch-components/drivers/config_cache.go:87-98 | none exactly when the cache is empty, otherwise the tail entry, which has the greatest version |
| ConfigCache.ConfigCache.HasNewerVersion | switch-components/drivers/config_cache.go:100-103 | true exactly when the counter exceeds the client's version; when false nothing newer is cached |
| ConfigCache.ConfigCache.GetVersionsSince | switch-components/drivers/config_cache.go:105-132 | the entries after the client's version when it is cached, and in every case exactly the newer entries |
| ConfigCache.ConfigCache.GetOldestCachedVersion | switch-components/drivers/config_cache.go:134-145 | 0 for an empty cache, else the head's version, which is the smallest |
| ConfigCache.ConfigCache.Clear | switch-components/drivers/config_cache.go:179-186 | the cache is empty and the counter is 0 |
| ConfigCache.AddTwice | switch-components/drivers/config_cache.go:45-66 | two consecutive additions return strictly increasing versions, the second being the latest |
| Driver.Find | switch-sdk-core/driver/driver_manager.go:123-134 | found exactly when the type and the name are filed, with the entry's (possibly nil) driver; otherwise the "driver not found" error |
| Driver.CloseEach | switch-sdk-core/driver/driver_manager.go:171-179 | no error exactly when every held driver of the type closes cleanly; each error names an entry whose driver failed to close, with its message |
| Driver.KeyedUpdate | switch-sdk-core/driver/driver_manager.go:16-21 | filing a map whose wrappers carry their own names keeps every wrapper under its own name |
| Driver.UpdatesKeepKeyed | switch-sdk-core/driver/driver_manager.go:84-99 | registration, renaming, removal and replacement keep every wrapper filed under its own name |
| Driver.RegisterThenFind | switch-sdk-core/driver/driver_manager.go:46-101 | after Register the entry holds the returned driver; a failed run-once creation leaves an entry without a driver; a failed direct creation leaves the entry as it was; nothing else changes |
| Driver.RegisterIdempotent | switch-sdk-core/driver/driver_manager.go:54-59 | once a driver is registered, registering the name again returns that driver and changes nothing, whatever the creator would do |
| Driver.FailedCreationRetried | switch-sdk-core/driver/driver_manager.go:55-59 | an entry left without a driver by a failed run-once creation does not block a later registration |
| Driver.RenameMoves | switch-sdk-core/driver/driver_manager.go:214-246 | a successful rename moves the wrapper and its driver to the new name; a taken new name or a failure leaves the registry as it was |
| Driver.RenameRoundTrip | switch-sdk-core/driver/driver_manager.go:238-245 | renaming back restores the registry |
| Driver.CloseByNameRemoves | switch-sdk-core/driver/driver_manager.go:202-203 | after CloseByName the entry is gone, whether or not its driver closed, and every other entry is as it was |
| Driver.CloseKeepsOthers | switch-sdk-core/driver/driver_manager.go:193-203 | closing one entry leaves the other entries of its type as they were |
| Driver.ReplaceThenFind | switch-sdk-core/driver/driver_manager.go:277-288 | after a replacement the entry holds the new driver and every other entry is as it was |
| Driver.CloseEveryType | switch-sdk-core/driver/driver_manager.go:296-305 | no error exactly when every driver of every type closes cleanly |
| Driver.DriverManager.constructor | switch-sdk-core/driver/driver_manager.go:38-43 | a manager with no drivers |
| Driver.DriverManager.Register | switch-sdk-core/driver/driver_manager.go:45-113 | returns RegisterResult and leaves AfterRegister: an existing driver is handed back; otherwise the creator's driver is filed, a creation error is wrapped, and with the run-once creator the entry is filed first |
| Driver.DriverManager.CloseByType | switch-sdk-core/driver/driver_manager.go:166-186 | every held driver of the type is closed and the type is dropped even on errors; success exactly when all closed cleanly, otherwise a "close drivers error: [" message |
| Driver.DriverManager.CloseByName | switch-sdk-core/driver/driver_manager.go:188-212 | an unknown entry is "driver not found"; otherwise its driver is closed and the entry removed in either case, an error on close being reported as the "(driver already removed)" message |
| Driver.DriverManager.RenameDriver | switch-sdk-core/driver/driver_manager.go:214-246 | an unknown type or source name is an error; a taken target name is a no-op success; otherwise the entry moves and takes the new name; no driver is closed |
| Driver.DriverManager.ReplaceDriverWithInstance | switch-sdk-core/driver/driver_manager.go:248-289 | an old driver is closed first; if that fails the registry is unchanged and the error names the entry; otherwise the new driver is filed under the name |
| Driver.DriverManager.Close | switch-sdk-core/driver/driver_manager.go:291-312 | every held driver is closed and the registry emptied; success exactly when every driver closed cleanly, otherwise a "close drivers error: [" message |
| DynamicIPPool.NonEmptyMeaning | switch-components/drivers/dynamic_ip_pool.go:164-167 | the addresses a list contributes are exactly its non-empty ones |
| DynamicIPPool.NonEmptyAppend | switch-components/drivers/dynamic_ip_pool.go:164-167 | one more address contributes itself unless it is empty |
| DynamicIPPool.NewIPsMeaning | switch-components/drivers/dynamic_ip_pool.go:159-199 | the reported new addresses are exactly the non-empty ones not already pooled, none twice |
| DynamicIPPool.AddedPool | switch-components/drivers/dynamic_ip_pool.go:168-175 | the pool gains exactly the non-empty addresses |
| DynamicIPPool.AddTwiceNothingNew | switch-components/drivers/dynamic_ip_pool.go:159-199 | adding the same addresses again reports nothing new and changes nothing |
| DynamicIPPool.AddToPool | switch-components/drivers/dynamic_ip_pool.go:162-177 | one pool's loop leaves AddedPool and reports NewIPs: existing entries untouched, each new address unchecked and unreachable |
| DynamicIPPool.RemovedPool | switch-components/drivers/dynamic_ip_pool.go:205-217 | the listed non-empty addresses leave the pool; every other entry is as it was |
| DynamicIPPool.DeletedIsOverlap | switch-components/drivers/dynamic_ip_pool.go:211-215 | the deletions counted while walking the list equal the number of distinct listed addresses that were pooled |
| DynamicIPPool.OverlapStep | switch-components/drivers/dynamic_ip_pool.go:211-215 | a listed address adds one to the overlap exactly when it is pooled and not seen before |
| DynamicIPPool.RemoveFromPool | switch-components/drivers/dynamic_ip_pool.go:205-217 | one pool's loop leaves RemovedPool and counts the distinct pooled addresses it removed |
| DynamicIPPool.ListedStep | switch-components/drivers/dynamic_ip_pool.go:207-216 | the addresses seen grow by the next one unless it is empty |
| DynamicIPPool.DeletedStep | switch-components/drivers/dynamic_ip_pool.go:207-216 | the deletion count of a prefix grows as the loop walks the list |
| DynamicIPPool.RemoveOne | switch-components/drivers/dynamic_ip_pool.go:211-213 | deleting a present address from a pool is the same as removing one more listed address |
| DynamicIPPool.AddThenRemove | switch-components/drivers/dynamic_ip_pool.go:159-236 | removing freshly added addresses restores the pool |
| DynamicIPPool.RemoveTwiceNothingMore | switch-components/drivers/dynamic_ip_pool.go:202-236 | removing the same addresses again removes nothing more |
| DynamicIPPool.Marked | switch-components/drivers/dynamic_ip_pool.go:443-457 | marking never adds or drops an address |
| DynamicIPPool.MarkedStep | switch-components/drivers/dynamic_ip_pool.go:443-457 | marking one more address updates its entry only when it is present |
| DynamicIPPool.Collect | switch-components/drivers/dynamic_ip_pool.go:261-266 | a listing loop lists exactly the pooled addresses whose status is selected, each once |
| DynamicIPPool.IPPoolManager.constructor | switch-components/drivers/dynamic_ip_pool.go:115-129 | two empty pools |
| DynamicIPPool.IPPoolManager.AddIPs | switch-components/drivers/dynamic_ip_pool.go:157-199 | both pools gain their non-empty addresses; the result is the new public addresses followed by the new internal ones |
| DynamicIPPool.IPPoolManager.RemoveIPs | switch-components/drivers/dynamic_ip_pool.go:201-236 | both pools lose their listed addresses; the count is the number of distinct pooled addresses removed from each |
| DynamicIPPool.IPPoolManager.GetAllIPs | switch-components/drivers/dynamic_ip_pool.go:238-255 | every address of either pool, and nothing else |
| DynamicIPPool.IPPoolManager.GetReachableIPs | switch-components/drivers/dynamic_ip_pool.go:257-278 | exactly the addresses marked reachable in either pool |
| DynamicIPPool.IPPoolManager.GetUnreachableIPs | switch-components/drivers/dynamic_ip_pool.go:280-301 | exactly the addresses checked and found unreachable; never-checked ones are in neither list |
| DynamicIPPool.IPPoolManager.DueIPs | switch-components/drivers/dynamic_ip_pool.go:354-378 | exactly the addresses never checked or checked at least one interval ago |
| DynamicIPPool.IPPoolManager.UpdateIPStatus | switch-components/drivers/dynamic_ip_pool.go:438-475 | the reachable addresses are marked reachable, then the unreachable ones unreachable, both at now; absent addresses are not added |
| DynamicIPPool.IPPoolManager.CheckIPsConnectivity | switch-components/drivers/dynamic_ip_pool.go:387-436 | an empty list changes nothing; otherwise each listed address in the public pool and in the internal pool records the probe's answer at now, and all other entries of both are unchanged |
| DynamicIPPool.UpdateChangesOnlyPresent | switch-components/drivers/dynamic_ip_pool.go:438-475 | an update touches only pooled addresses; an address in both lists ends unreachable |
| Kafka.ParseRequiredAcks | switch-components/drivers/kafka.go:32-44 | "one" and "none" map to their levels, and every other value, unknown ones included, to all replicas |
| Kafka.ParseCompression | switch-components/drivers/kafka.go:101-115 | the codec number is 1-4 exactly for gzip, snappy, lz4 and zstd, in that order, and 0 for anything else |
| Kafka.DurationOr | switch-components/drivers/kafka.go:47-52 | a duration that parses is used as it is, else the default |
| Kafka.NonZeroOr | switch-components/drivers/kafka.go:63-68 | a non-zero count is used as it is, else the default, so the result is never zero |
| Kafka.ProducerDurationDefaults | switch-components/drivers/kafka.go:46-131 | unparsable producer durations fall back to 5s, 1s, 100ms, 1s, 10s and 10s |
| Kafka.ProducerCountDefaults | switch-components/drivers/kafka.go:62-84 | zero batch bytes, batch size and retries fall back to 1048576, 50 and 3; non-zero values are kept |
| Kafka.ProducerCountDefaultsIdempotent | switch-components/drivers/kafka.go:62-84 | writing the defaulted counts back changes no getter's answer |
| Kafka.ConsumerGroupId | switch-components/drivers/kafka.go:276-282 | the configured group, else "switch-consumer-" followed by the topic; never empty |
| Kafka.ConsumerAutoOffsetReset | switch-components/drivers/kafka.go:284-290 | the configured reset, else "latest" |
| Kafka.ConsumerDurationDefaults | switch-components/drivers/kafka.go:297-335 | unparsable consumer durations fall back to 1s, 10s, 10s, 30s and 5s |
| Kafka.ConsumerRetry | switch-components/drivers/kafka.go:352-361 | the configured retry setting, else count 5 with backoff "3s" |
| Kafka.ConsumerMaxRetries | switch-components/drivers/kafka.go:363-369 | a non-zero configured count, else 5; never zero |
| Kafka.ConsumerBackoff | switch-components/drivers/kafka.go:371-379 | the retry backoff when it is set and parses, else 3s |
| Kafka.DefaultBackoff | switch-components/drivers/kafka.go:352-379 | without a retry setting the consumer waits 3s between at most 5 retries |
| Kafka.ValidateBrokerAddress | switch-components/drivers/kafka.go:484-510 | passes exactly for a non-empty address holding a colon that splits into a non-empty host and port |
| Kafka.CheckBrokersAll | switch-components/drivers/kafka.go:174-182 | the broker loop passes exactly when every broker is a valid address |
| Kafka.CheckDurations | switch-components/drivers/kafka.go:204-239 | the optional duration settings pass exactly when each is empty or parses |
| Kafka.ProducerValidateBase | switch-components/drivers/kafka.go:167-242 | producer base validation passes exactly for a config with brokers, all valid, a topic, known acks and compression when set, and parsable durations; missing brokers and a missing topic get their own messages |
| Kafka.ConsumerValidateBase | switch-components/drivers/kafka.go:400-473 | consumer base validation passes exactly for a config with valid brokers, a topic, a known offset reset when set, parsable durations, a non-negative retry count and a parsable backoff |
| Kafka.ValidateSASL | switch-components/drivers/kafka.go:558-583 | passes exactly when SASL is absent, disabled, or names no mechanism or a supported one |
| Kafka.ValidateTLS | switch-components/drivers/kafka.go:585-604 | passes exactly when TLS is absent, disabled, or has both or neither of cert and key |
| Kafka.ValidateSecurityConfig | switch-components/drivers/kafka.go:535-556 | no security passes; otherwise passes exactly when both SASL and TLS pass |
| Kafka.DisabledTLSPasses | switch-components/drivers/kafka.go:549-553 | a disabled TLS setting is never rejected, whatever its files |
| Kafka.ProducerIsValid | switch-components/drivers/kafka.go:148-165 | passes exactly for a present config whose base and security checks pass |
| Kafka.ConsumerIsValid | switch-components/drivers/kafka.go:381-398 | passes exactly for a present config whose base and security checks pass |
| Kafka.ContainsStr | switch-components/drivers/kafka.go:606-614 | true exactly when the item is in the slice |
| KafkaSameConfig.BuildCounts | switch-components/drivers/kafka_same_config.go:248-257 | the counting loop maps each string to its number of occurrences, and holds no other key |
| KafkaSameConfig.SameCounts | switch-components/drivers/kafka_same_config.go:259-269 | two count maps agree, same size and every count matched, exactly when the slices are the same multiset |
| KafkaSameConfig.SubsetOfSameSize | switch-components/drivers/kafka_same_config.go:259-261 | a subset of the same size is the whole set |
| KafkaSameConfig.SameMultisetSameKeys | switch-components/drivers/kafka_same_config.go:259-261 | equal multisets give count maps with the same keys |
| KafkaSameConfig.StringSliceEqualKafka | switch-components/drivers/kafka_same_config.go:242-270 | true exactly when the slices hold the same strings, each as often, in any order |
| KafkaSameConfig.StringSliceEqualKafkaOrdered | switch-components/drivers/kafka_same_config.go:272-285 | true exactly when the slices are equal element by element |
| KafkaSameConfig.CompareBrokers | switch-components/drivers/kafka_same_config.go:130-135 | the comparison the options choose is BrokersEqual: in order when strict, as a multiset otherwise |
| KafkaSameConfig.SecurityEqualMeaning | switch-components/drivers/kafka_same_config.go:189-240 | every SASL and TLS field takes part, so the security comparison is plain equality |
| KafkaSameConfig.EffectiveOptions | switch-components/drivers/kafka_same_config.go:34-39 | the first option given, else broker order does not matter |
| KafkaSameConfig.ComparatorNilAndMismatch | switch-components/drivers/kafka_same_config.go:25-32 | drivers of another kind never compare equal; two nil configs do; exactly one nil does not |
| KafkaSameConfig.ConsumerConfigEqualReflexiveSymmetric | switch-components/drivers/kafka_same_config.go:69-99 | the consumer comparison is reflexive and symmetric |
| KafkaSameConfig.ConsumerIgnoresConnectAndValidate | switch-components/drivers/kafka_same_config.go:128-174 | consumer configs differing only in the connect and validate timeouts compare equal |
| KafkaSameConfig.ProducerIgnoresConnectAndValidate | switch-components/drivers/kafka_same_config.go:152-187 | producer configs differing only in the connect and validate timeouts compare equal |
| KafkaSameConfig.BrokerOrderMatters | switch-components/drivers/kafka_same_config.go:129-135 | reordered brokers compare equal by default and unequal with strict broker order |
| KafkaSameConfig.ConsumerNoticesTopic | switch-components/drivers/kafka_same_config.go:141-149 | a different topic or read timeout makes consumer configs unequal |
| Webhook.BuildWebhookUrlInjective | switch-components/drivers/webhook.go:15-17 | for colon-free IPs the webhook URL determines both the IP and the port |
| Webhook.IsIPBlacklisted | switch-components/drivers/webhook.go:28-35 | an IP is blacklisted exactly when it is one of the blacklist entries |
| Webhook.GetPort | switch-components/drivers/webhook.go:57-62 | an empty port becomes 20002 and any other port is kept |
| Webhook.ProducerTimeOut | switch-components/drivers/webhook.go:68-73 | the timeout is the parsed duration when it parses and 10 seconds otherwise |
| Webhook.GetRetry | switch-components/drivers/webhook.go:75-83 | a missing retry block becomes 5 retries with 3s backoff |
| Webhook.MaxRetries | switch-components/drivers/webhook.go:96-101 | the retry count, or 5 when the block is missing or its count is 0 |
| Webhook.BackoffDuration | switch-components/drivers/webhook.go:86-93 | the parsed backoff when it is given and parses, otherwise 3 seconds |
| Webhook.LeadingDigits | switch-components/drivers/webhook.go:198-201 | the digit prefix that a %d scan consumes, stopping at the first non-digit |
| Webhook.SscanfInt | switch-components/drivers/webhook.go:198-201 | a scanned number always fits a 64-bit integer |
| Webhook.SscanfDigits | switch-components/drivers/webhook.go:198-201 | on all-digit text the scan is the 64-bit parse of the digits |
| Webhook.ScanToken | switch-components/drivers/webhook.go:198-201 | text that starts with a digit scans as its leading digits |
| Webhook.DigitsPrefix | switch-components/drivers/webhook.go:198-201 | all-digit text is its own digit prefix |
| Webhook.ValidateWebhookPortAsWritten | switch-components/drivers/webhook.go:193-209 | as written the port passes when it is non-empty and its scanned leading number is in 1..65535 |
| Webhook.WebhookPortAcceptsTrailingText | switch-components/drivers/webhook.go:193-209 | as written the port 80abc passes |
| Webhook.ValidateWebhookPort | switch-components/drivers/webhook.go:193-209 | the intended check: the port passes exactly when it is all digits with value in 1..65535 |
| Webhook.WebhookPortRejectsTrailingText | switch-components/drivers/webhook.go:193-209 | the intended check rejects 80abc |
| Webhook.WebhookPortCorrectedStricter | switch-components/drivers/webhook.go:193-209 | every port the intended check accepts is also accepted as written |
| Webhook.WebhookPortAgreesOnDigits | switch-components/drivers/webhook.go:193-209 | on all-digit ports the two checks agree |
| Webhook.DefaultPortValid | switch-components/drivers/webhook.go:57-62 | the default port passes the port check |
| Webhook.ValidateRetry | switch-components/drivers/webhook.go:142-151 | a retry block passes exactly when its count is not negative and its backoff is empty or parses |
| Webhook.ProducerValidateBase | switch-components/drivers/webhook.go:130-153 | the producer base passes exactly when the defaulted port, the timeout and the retry pass |
| Webhook.ConsumerValidateBase | switch-components/drivers/webhook.go:274-293 | the consumer must give a port, and passes exactly when that port and the retry pass |
| Webhook.CheckBlacklistAll | switch-components/drivers/webhook.go:160-169 | the blacklist loop from index i passes exactly when every later entry is non-blank and an IP |
| Webhook.ValidateBlacklistIPs | switch-components/drivers/webhook.go:155-172 | `isValidBlacklistIPs` passes exactly when every entry is a non-blank IP address; an empty blacklist passes |
| Webhook.ValidateSecurity | switch-components/drivers/webhook.go:175-190 | the security block passes exactly when it is missing, its secret is empty, or the secret has 8 to 256 characters |
| Webhook.ProducerIsValid | switch-components/drivers/webhook.go:109-127 | a producer config passes exactly when it exists and its base, blacklist and security pass |
| Webhook.ConsumerIsValid | switch-components/drivers/webhook.go:253-271 | a consumer config passes exactly when it exists and its base, blacklist and security pass |
| Webhook.EmptyProducerValid | switch-components/drivers/webhook.go:50-101 | a producer config with every field left empty is valid |
| WebhookSameConfig.NormalizeUrl | switch-components/drivers/webhook_same_config.go:141-154 | a normalised URL always carries an http or https scheme, adding http:// when the trimmed lower-case text lacks one |
| WebhookSameConfig.NormalizeIgnoresCase | switch-components/drivers/webhook_same_config.go:141-154 | normalising ignores letter case |
| WebhookSameConfig.NormalizeIgnoresLeadingSpace | switch-components/drivers/webhook_same_config.go:141-154 | normalising ignores leading white space |
| WebhookSameConfig.NormalizeScheme | switch-components/drivers/webhook_same_config.go:148-151 | a URL keeps its scheme when it has one and otherwise gets http:// in front |
| WebhookSameConfig.NormalizeAll | switch-components/drivers/webhook_same_config.go:116-124 | each URL of the list normalised in place |
| WebhookSameConfig.StringSliceEqual | switch-components/drivers/webhook_same_config.go:107-138 | the count-map comparison answers true exactly when both lists hold the same normalised URLs equally often |
| WebhookSameConfig.BlacklistIgnoresOrder | switch-components/drivers/webhook_same_config.go:106-138 | swapping two blacklist entries never makes the lists differ |
| WebhookSameConfig.SwapSameMultiset | switch-components/drivers/webhook_same_config.go:106-138 | swapping two entries keeps the multiset of a list |
| WebhookSameConfig.BlacklistIgnoresCase | switch-components/drivers/webhook_same_config.go:141-143 | lower-casing one blacklist entry never makes the lists differ |
| WebhookSameConfig.SecurityEqualMeaning | switch-components/drivers/webhook_same_config.go:157-165 | the security comparison is plain equality of the optional blocks |
| WebhookSameConfig.ComparatorNilAndMismatch | switch-components/drivers/webhook_same_config.go:11-43 | drivers of another kind never compare equal, two nil configs do and exactly one nil config does not |
| WebhookSameConfig.ProducerConfigEqualReflexiveSymmetric | switch-components/drivers/webhook_same_config.go:37-72 | producer config equality is reflexive and symmetric |
| WebhookSameConfig.PortComparedAsWritten | switch-components/drivers/webhook_same_config.go:50-53 | an unset port and the explicit default port compare unequal although they listen on the same port |
| WebhookSameConfig.ConsumerConfigEqualMeaning | switch-components/drivers/webhook_same_config.go:75-104 | two consumer configs are equal exactly when their blacklists agree after normalisation and every other field is equal |
| Polling.LastColon | switch-components/drivers/polling.go:255-262 | the position of the last colon of the host, with no colon after it, or -1 |
| Polling.SplitUrlHost | switch-components/drivers/polling.go:255-262 | the port split off the URL host is empty or all digits |
| Polling.Port | switch-components/drivers/polling.go:261-263 | the port read from a parsed URL is empty or all digits |
| Polling.SplitHostAndPort | switch-components/drivers/polling.go:255-262 | a plain host name joined to a numeric port by a colon splits back into the two |
| Polling.LastColonAt | switch-components/drivers/polling.go:255-262 | a colon with no colon after it is the last colon |
| Polling.NoColonNoPort | switch-components/drivers/polling.go:261-263 | a host without a colon has no port |
| Polling.ValidatePortAsWritten | switch-components/drivers/polling.go:276-292 | as written the port passes when it is non-empty and its scanned leading number is in 1..65535 |
| Polling.PollingPortAcceptsTrailingText | switch-components/drivers/polling.go:276-292 | as written the port 80abc passes |
| Polling.ValidatePort | switch-components/drivers/polling.go:276-292 | the intended check: the port passes exactly when it is all digits with value in 1..65535 |
| Polling.PortCheckCorrected | switch-components/drivers/polling.go:276-292 | the intended check rejects 80abc, accepts only ports the written check accepts, and agrees with it on every port read from a URL |
| Polling.ValidateToken | switch-components/drivers/polling.go:525-544 | a token passes exactly when it is not blank, has 8 to 512 characters and holds no space, tab, newline or carriage return |
| Polling.ValidateDomainOrIP | switch-components/drivers/polling.go:295-321 | a host passes exactly when it is non-empty and either an IP address or a name without //, without a leading or trailing dot and of at most 253 characters |
| Polling.CheckUrlShape | switch-components/drivers/polling.go:229-259 | the trimmed URL passes the shape checks exactly when it parses with an http or https scheme, a host, no path beyond / and a non-empty host name |
| Polling.ValidateSingleUrl | switch-components/drivers/polling.go:229-273 | a URL passes exactly when its shape, its explicit port and its host name pass |
| Polling.UrlWithoutPortRejected | switch-components/drivers/polling.go:261-265 | a URL whose host has no port never passes |
| Polling.GetValidUrl | switch-components/drivers/polling.go:51-89 | the trimmed URL is returned exactly when its shape and host name pass, without looking at the port |
| Polling.ValidUrlIsUsable | switch-components/drivers/polling.go:51-89 | a URL that passes validation is returned by the URL getter, trimmed |
| Polling.DurationOr30s | switch-components/drivers/polling.go:92-105 | the poll interval and request timeout are the parsed value or 30 seconds |
| Polling.GetHeader | switch-components/drivers/polling.go:108-113 | a nil header map reads as an empty map |
| Polling.GetUserAgent | switch-components/drivers/polling.go:116-121 | the user agent is never empty and a configured one is kept |
| Polling.ConsumerRetryDefaults | switch-components/drivers/polling.go:134-160 | a missing retry block means 5 retries 3 seconds apart, and a zero count also means 5 |
| Polling.ConsumerValidateBase | switch-components/drivers/polling.go:187-203 | the consumer base passes exactly when a URL is set and the retry count is not negative and its backoff parses |
| Polling.ConsumerValidateSecurity | switch-components/drivers/polling.go:211-226 | the consumer security passes exactly when it is missing, its token is empty, or the token passes the token check |
| Polling.ConsumerIsValid | switch-components/drivers/polling.go:163-184 | a consumer config passes exactly when it exists and its base, URL and security pass |
| Polling.ValidConsumerHasUrl | switch-components/drivers/polling.go:163-208 | a valid consumer config has a URL and the URL getter returns it trimmed |
| Polling.ProducerPort | switch-components/drivers/polling.go:355-360 | an empty producer port becomes 10002 and any other is kept |
| Polling.ProducerTimeoutDefaults | switch-components/drivers/polling.go:363-392 | the default server timeouts are 60 s long poll, 90 s read, 70 s write and 120 s idle, so reads and writes outlast the long poll |
| Polling.ProducerBackoff | switch-components/drivers/polling.go:400-412 | without a retry block the producer backs off 3 seconds, and a configured backoff that parses is used |
| Polling.ProducerMaxRetries | switch-components/drivers/polling.go:415-420 | the producer retries the configured count unless it is missing or 0, and then 5 times |
| Polling.ProducerValidateBase | switch-components/drivers/polling.go:442-497 | the producer base passes exactly when the port, the set timeouts, the positive write timeout, the read and write timeouts beyond the long poll and the retry all pass, with an unparsable write timeout not reported |
| Polling.DefaultPollingPortValid | switch-components/drivers/polling.go:12 | the default polling port passes the port check |
| Polling.EmptyProducerBaseValid | switch-components/drivers/polling.go:442-497 | a producer config with every setting left empty passes the base check |
| Polling.CheckTokensAll | switch-components/drivers/polling.go:508-514 | the token loop from index i passes exactly when every later token is well formed |
| Polling.CheckTokensSound | switch-components/drivers/polling.go:508-514 | a passing token loop saw only well-formed tokens |
| Polling.CheckTokensComplete | switch-components/drivers/polling.go:508-514 | a list of well-formed tokens passes the token loop |
| Polling.ValidateHttps | switch-components/drivers/polling.go:547-563 | the HTTPS block passes exactly when the certificate file and the key file are both set or both unset |
| Polling.ProducerSecurityMeaning | switch-components/drivers/polling.go:500-522 | the producer security passes exactly when every accepted token is well formed and the certificate and key files are set together |
| Polling.ProducerIsValid | switch-components/drivers/polling.go:423-439 | a producer config passes exactly when it exists and its base and security pass |
| Polling.ValidProducerTimeoutsOrdered | switch-components/drivers/polling.go:476-483 | in a valid producer config the read and write timeouts both exceed the long poll timeout and the port is numeric |
| PollingSameConfig.StringMapEqual | switch-components/drivers/polling_same_config.go:169-188 | the header comparison answers true exactly when both maps are nil or both are the same map |
| PollingSameConfig.SameSizeSubmap | switch-components/drivers/polling_same_config.go:176-187 | two maps of the same size where every entry of the first is in the second are equal |
| PollingSameConfig.TokenSliceEqual | switch-components/drivers/polling_same_config.go:191-203 | the token comparison answers true exactly when the two lists are equal in order |
| PollingSameConfig.ComparatorMismatch | switch-components/drivers/polling_same_config.go:9-32 | drivers of another kind never compare equal |
| PollingSameConfig.ConfigEqualIsEquality | switch-components/drivers/polling_same_config.go:35-166 | consumer and producer config comparisons are plain equality of the optional configs |
| PollingSameConfig.NilHeadersDifferFromEmpty | switch-components/drivers/polling_same_config.go:169-175 | a nil header map and an empty one compare unequal although both read as no headers |
| PollingSameConfig.TokenOrderMatters | switch-components/drivers/polling_same_config.go:191-203 | swapping two distinct accepted tokens makes producer configs differ |
| PollingProducerDriver.ValidateClientToken | switch-components/drivers/polling_producer_driver.go:659-691 | with no accepted tokens every request passes, otherwise exactly a Bearer header followed by a non-empty listed token passes |
| PollingProducerDriver.ClientTokenCases | switch-components/drivers/polling_producer_driver.go:666-691 | once tokens are configured a missing header, a bare Bearer prefix and any other scheme are refused, and Bearer plus a token passes exactly when the token is listed |
| PollingProducerDriver.ParseUint64 | switch-components/drivers/polling_producer_driver.go:317 | the unsigned parse succeeds exactly on non-empty decimal digits within 64 bits and gives their value |
| PollingProducerDriver.ClientVersion | switch-components/drivers/polling_producer_driver.go:314-320 | the client version is the parsed version query, and 0 when it is absent or invalid |
| PollingProducerDriver.ClientVersionRoundTrip | switch-components/drivers/polling_producer_driver.go:314-320 | a version written in decimal is read back as that version |
| PollingProducerDriver.ParseIPHeader | switch-components/drivers/polling_producer_driver.go:331-347 | an empty IP header gives no addresses, otherwise each comma-separated piece trimmed |
| PollingProducerDriver.IPHeaderPieces | switch-components/drivers/polling_producer_driver.go:331-347 | no parsed address holds a comma, and a header without commas gives its one trimmed address |
| PollingProducerDriver.SplitWithoutSeparator | switch-components/drivers/polling_producer_driver.go:337 | text without the separator splits into itself |
| PollingProducerDriver.SendConfigResponse | switch-components/drivers/polling_producer_driver.go:635-656 | an empty list answers 204, a failed encoding answers 500 Internal server error, otherwise 200 with the encoded list |
| PollingProducerDriver.LongPollEnd | switch-components/drivers/polling_producer_driver.go:380-391 | a parked poll answers 204 exactly when its timeout ran out |
| PollingProducerDriver.PollingProducer.constructor | switch-components/drivers/polling_producer_driver.go:58-66 | a new producer is not running, has no pending connections, an empty queue and no failures |
| PollingProducerDriver.PollingProducer.Start | switch-components/drivers/polling_producer_driver.go:115-139 | starting while running fails with the already-running error, otherwise the producer is running and nothing else changes |
| PollingProducerDriver.PollingProducer.Close | switch-components/drivers/polling_producer_driver.go:568-611 | closing a stopped producer changes nothing, closing a running one drops every pending connection and the queue, and the producer is stopped after either |
| PollingProducerDriver.PollingProducer.PushRawMessage | switch-components/drivers/polling_producer_driver.go:285-297 | a stopped producer refuses the message, a running one queues it unless the queue is full or closed |
| PollingProducerDriver.PollingProducer.PushMessage | switch-components/drivers/polling_producer_driver.go:252-277 | the message is cached under the next version and the batch queued holds just that new config |
| PollingProducerDriver.PollingProducer.HandleLongPoll | switch-components/drivers/polling_producer_driver.go:300-370 | non-GET requests get 405, bad tokens 401, a client behind the cache gets every newer config at once, and any other client is parked under its id with its reported addresses |
| PollingProducerDriver.PollingProducer.RemovePendingConnection | switch-components/drivers/polling_producer_driver.go:472-481 | the connection is removed if present and nothing else changes |
| PollingProducerDriver.PollingProducer.DispatchMessage | switch-components/drivers/polling_producer_driver.go:420-453 | a batch that does not decode changes nothing, otherwise every pending connection leaves the map and the live ones are the send targets |
| PollingProducerDriver.PollingProducer.CleanExpiredConnections | switch-components/drivers/polling_producer_driver.go:512-543 | exactly the connections whose context is done or that waited longer than the long-poll timeout plus 10 seconds are dropped |
| PollingProducerDriver.PollingProducer.OnServerError | switch-components/drivers/polling_producer_driver.go:150-178 | each server failure is counted and the producer gives up and closes exactly when the count reaches the maximum retries |
| PollingProducerDriver.PollingProducer.OnCancelled | switch-components/drivers/polling_producer_driver.go:200-217 | on cancellation the producer is closed and its failure count reset |
| PollingProducerDriver.CollectLive | switch-components/drivers/polling_producer_driver.go:431-440 | the collected ids are exactly the walked ids whose context is still live |
| PollingProducerDriver.NothingNewerThanLatest | switch-components/drivers/polling_producer_driver.go:262-263 | nothing is cached after the newest version |
| PollingProducerDriver.BelowNext | switch-components/drivers/polling_producer_driver.go:254 | every cached version is below the next version |
| PollingProducerDriver.AddedIsUnique | switch-components/drivers/polling_producer_driver.go:254-257 | after adding a config newer than all cached ones, the only cached entry with its version is that config |
| PollingConsumerDriver.ClassifyRequestError | switch-components/drivers/polling_consumer_driver.go:381-406 | a request error is a timeout exactly when the response was 204, the error is a network timeout, it wraps a context deadline, or it is a URL error around a network timeout, and needs a retry otherwise |
| PollingConsumerDriver.Poll | switch-components/drivers/polling_consumer_driver.go:334-378 | a request that cannot be built needs a retry, a 204 response is a timeout, and any other response succeeds whatever its handling did |
| PollingConsumerDriver.PollUrl | switch-components/drivers/polling_consumer_driver.go:257-309 | the poll loop stops at the first poll that needs a retry, with no earlier one, and otherwise runs until cancelled |
| PollingConsumerDriver.RequestUrl | switch-components/drivers/polling_consumer_driver.go:409-411 | the request URL is the base URL followed by ?version= |
| PollingConsumerDriver.RequestUrlCarriesVersion | switch-components/drivers/polling_consumer_driver.go:409-411 | the text after ?version= is the client version, so different versions give different URLs |
| PollingConsumerDriver.MaxVersion | switch-components/drivers/polling_consumer_driver.go:478-497 | the largest version of a batch, bounding every version and carried by one of them, or 0 for an empty batch |
| PollingConsumerDriver.MaxVersionStep | switch-components/drivers/polling_consumer_driver.go:494-496 | the running maximum after one more config is the larger of the two |
| PollingConsumerDriver.DeliverBatch | switch-components/drivers/polling_consumer_driver.go:479-497 | the delivery loop reports no failure exactly when every config was handled, and then the largest version of the batch |
| PollingConsumerDriver.AdvancedVersion | switch-components/drivers/polling_consumer_driver.go:499-511 | the compare-and-swap loop leaves the larger of the client version and the batch maximum |
| PollingConsumerDriver.PollingConsumer.constructor | switch-components/drivers/polling_consumer_driver.go:52-89 | a new consumer is not running, has no failures and sends version 0 |
| PollingConsumerDriver.PollingConsumer.Start | switch-components/drivers/polling_consumer_driver.go:136-155 | starting while running fails with the already-running error, otherwise the consumer is running |
| PollingConsumerDriver.PollingConsumer.Close | switch-components/drivers/polling_consumer_driver.go:158-177 | after closing the consumer is not running and its counters are kept |
| PollingConsumerDriver.PollingConsumer.OnPollingError | switch-components/drivers/polling_consumer_driver.go:224-252 | each polling failure is counted and the consumer gives up and closes exactly when the count reaches the maximum retries |
| PollingConsumerDriver.PollingConsumer.OnCancelled | switch-components/drivers/polling_consumer_driver.go:205-222 | on cancellation the consumer is closed and its failure count reset |
| PollingConsumerDriver.PollingConsumer.ProcessMessage | switch-components/drivers/polling_consumer_driver.go:464-515 | a body that does not decode fails, a handler error stops the batch without moving the version and passes only when exceptions are ignored, and a fully handled batch moves the version to its maximum and never back |
| SafetyDriverReplace.ValidateDriverType | switch-sdk-core/driver/safety_driver_replace.go:246-254 | a type passes exactly when no supported types are given or it is listed as supported, and fails with the unsupported-type message |
| SafetyDriverReplace.ValidateConfig | switch-sdk-core/driver/safety_driver_replace.go:257-277 | a config passes exactly when it names a driver of a supported type, and then a non-positive validation timeout becomes 30 s and a negative stability period 3 s with every other field kept |
| SafetyDriverReplace.ValidateConfigIdempotent | switch-sdk-core/driver/safety_driver_replace.go:257-277 | a checked config has a positive timeout and a non-negative period, and checking it again changes nothing |
| SafetyDriverReplace.TempName | switch-sdk-core/driver/safety_driver_replace.go:171-174 | the temporary name is the driver name followed by _temp_ and the clock reading |
| SafetyDriverReplace.TempNamesDiffer | switch-sdk-core/driver/safety_driver_replace.go:171-174 | different clock readings give different temporary names, and none equals the original name |
| SafetyDriverReplace.ValidateDriver | switch-sdk-core/driver/safety_driver_replace.go:177-193 | validation gives the driver's own answer, or a timeout error when none comes in time |
| SafetyDriverReplace.ReplaceDriver | switch-sdk-core/driver/safety_driver_replace.go:49-168 | the registry before and after are related by Replaced: an invalid config or a failed factory fails with the registry untouched; a same-config skip keeps the old driver and closes the new one; a driver failing validation is closed and reported as "driver validation failed: " + the reason, with the registry unchanged; past validation the call succeeds exactly when it returns the new driver, a failed start always fails, a failure never returns a driver, and a success leaves the new driver under the real name |
| SafetyDriverReplace.SwapIn | switch-sdk-core/driver/safety_driver_replace.go:88-167 | the new driver is filed under the temporary name, the old one closed, the new one started and renamed; a failed start always fails, and on success the new driver is found under the real name |
| SafetyDriverReplace.RollBack | switch-sdk-core/driver/safety_driver_replace.go:111-129 | a start failure always fails, names the missing old driver when there is none, and otherwise files the recreated old driver under the real name again |
| SafetyDriverReplace.Restore | switch-sdk-core/driver/safety_driver_replace.go:116-127 | a rollback whose recreation succeeds files the old driver under the real name and still reports the start failure |
| SafetyDriverReplace.SerialOutcomeMeaning | switch-sdk-core/driver/safety_driver_replace.go:342-374 | with errors ignored a serial batch succeeds, otherwise it fails exactly when some replacement failed, with the first failure wrapped with its driver name |
| SafetyDriverReplace.Names | switch-sdk-core/driver/safety_driver_replace.go:350 | the names of the batch in order |
| SafetyDriverReplace.BatchReplaceSerial | switch-sdk-core/driver/safety_driver_replace.go:342-374 | the batch runs every replacement when errors are ignored, stops right after the first failure otherwise, every outcome before the last one having passed, reports the serial outcome, and the registry passes through one state per call, each step related to the next by Replaced (Steps) with that call's config, factory, driver behaviour, timestamp and outcome |
| SafetyDriverReplace.StepsExtend | switch-sdk-core/driver/safety_driver_replace.go:352-373 | a run of replacement steps each related by Replaced stays so when one more replacement related by Replaced is appended |
| SafetyDriverReplace.SerialThroughFirstFailure | switch-sdk-core/driver/safety_driver_replace.go:352-359 | a run of passes ended by one failure reports that failure |
| SafetyDriverReplace.ParallelArgumentCheck | switch-sdk-core/driver/safety_driver_replace.go:281-283 | the parallel batch starts exactly when there are as many factories as configs |
| SwitchService.TagIndex | switch-admin/internal/service/switch_service.go:787-794 | the index of the first environment with the tag, or -1 exactly when no environment has it |
| SwitchService.NextIndexCases | switch-admin/internal/service/switch_service.go:776-808 | no environments give -1; an empty or unlisted current tag gives 0; the last environment gives -1; any other listed environment gives the index after it |
| SwitchService.CalculateNextEnvIndex | switch-admin/internal/service/switch_service.go:776-808 | the loop finds the index the next environment has, as defined by the promotion order |
| SwitchService.GetNextEnvTag | switch-admin/internal/service/switch_service.go:812-818 | the next environment's tag, and the current tag when there is no next environment |
| SwitchService.PromotionWalk | switch-admin/internal/service/switch_service.go:776-818 | with distinct tags, a new switch goes to the first environment, each environment leads to the one after it and the last leads to itself |
| SwitchService.NoOpExactlyAtEnd | switch-admin/internal/service/switch_service.go:812-818 | with distinct tags, the next tag equals the current one exactly when the switch is at the last environment |
| SwitchService.ButtonSuffix | switch-admin/internal/service/switch_service.go:355-368 | the button text suffix for the pending, approved and rejected statuses, and none for any other status |
| SwitchService.CalculateNextEnvInfo | switch-admin/internal/service/switch_service.go:331-371 | no information exactly when there is no next environment; otherwise the next environment's tag and name, the switch's approval status, the button text and a button disabled exactly while approval is pending |
| SwitchService.ValidateJsonSchema | switch-admin/internal/service/switch_service.go:374-406 | a schema passes exactly when it is non-blank JSON of an object whose type is one of the seven JSON Schema type names; blank text, a decoding error, a value that is not a map, a missing type, a non-text type and an unknown type name each fail with their own message |
| SwitchService.NullSchemaHasNoType | switch-admin/internal/service/switch_service.go:379-386 | the text null decodes but is refused, because its map has no type field |
| SwitchService.CheckApprovers | switch-admin/internal/service/switch_service.go:140-157 | a request passes exactly when it names no approvers or the namespace's approvers are readable, non-empty and include every requested id; the two failure messages are told apart |
| SwitchService.CheckOutcome | switch-admin/internal/service/switch_service.go:140-157 | the approver check as a value, passing under exactly the same condition |
| SwitchService.Edited | switch-admin/internal/service/switch_service.go:177-191 | the edited switch has the next version, no current environment and no approval status, the new description and rules only when given, the request's cache flag, the editor as updater and its identity fields unchanged |
| SwitchService.EditRestartsPromotion | switch-admin/internal/service/switch_service.go:183-191 | an edited switch is promoted again from the first environment |
| SwitchService.RequestedRules | switch-admin/internal/service/switch_service.go:200-214 | one approval rule per requested environment, in request order, with its approvers and author |
| SwitchService.AuthorEditDropsApprovers | switch-admin/internal/service/switch_service.go:197-231 | as written, an edit by the switch's creator deletes every approval rule and creates none, while anyone else's edit replaces them with the requested ones |
| SwitchService.AuthorEditExample | switch-admin/internal/service/switch_service.go:197-231 | a creator who asks for an approver on an environment ends with no approval rule at all |
| SwitchService.RulesAfterEdit | switch-admin/internal/service/switch_service.go:197 | corrected, only the creator's edit changes the approval rules, and it sets exactly the requested approvers per environment; others leave the rules as they were |
| SwitchService.UpdateSwitch | switch-admin/internal/service/switch_service.go:162-239 | an unreadable or empty environment list stops the edit unchanged; otherwise the switch is edited, and the save, the deletion of rules and the creation of the rules built each fail with their own message, or all writes are committed in order |
| SwitchService.Created | switch-admin/internal/service/switch_service.go:251-266 | a new switch at version 1, nowhere yet and without approval status, created and updated by the requester with the request's fields |
| SwitchService.InitialConfigs | switch-admin/internal/service/switch_service.go:271-281 | one pending configuration per environment at version 1, holding the switch's rules |
| SwitchService.OneConfigPerEnv | switch-admin/internal/service/switch_service.go:271-281 | with distinct environment tags, exactly one initial configuration belongs to each environment |
| SwitchService.NewSwitch | switch-admin/internal/service/switch_service.go:240-327 | an unreadable or empty environment list stops the creation; otherwise the switch, its configurations and the requested rules are created in order, each step able to fail with its own message and then nothing is committed |
| SwitchService.CreateSwitch | switch-admin/internal/service/switch_service.go:138-328 | a failed approver check stops everything; a request naming a switch edits the one fetched, or fails when it cannot be fetched; a request naming no switch creates one at version 1 |
| SwitchService.PushGate | switch-admin/internal/service/switch_service.go:541-565 | a push that proceeds targets an environment of the namespace with the requested tag |
| SwitchService.PushMovesOneStep | switch-admin/internal/service/switch_service.go:555-565 | with distinct tags, a push proceeds exactly when the target is the next environment and differs from the current one; it moves a new switch to the first environment and every other switch one environment along; a switch at the last environment never moves |
| SwitchService.RouteCases | switch-admin/internal/service/switch_service.go:593-629 | a pending switch is refused, an approved one is published, a rejected or unset one is submitted when its rule has approvers and published when there is no rule |
| SwitchService.EmptyApproverListStillSubmits | switch-admin/internal/service/switch_service.go:620 | a stored rule whose approver text is an empty JSON array still has non-empty text and so sends the push for approval |
| SwitchService.Published | switch-admin/internal/service/switch_service.go:699-708 | the published configuration is at the target environment, published, at the switch's version and with its rules, updated by the pusher |
| SwitchService.ExecuteInitialPush | switch-admin/internal/service/switch_service.go:693-773 | without a user nothing changes; otherwise the switch moves to the environment, the configuration is published, and the snapshot, configuration update, switch update and notification are committed only when all of them succeed |
| SwitchService.ExecuteRejectedResubmit | switch-admin/internal/service/switch_service.go:633-690 | without a user nothing changes; otherwise an approval form is created when the rule has approvers and the switch becomes pending, and a failing step commits nothing |
| SwitchService.HandleApprovalFlow | switch-admin/internal/service/switch_service.go:609-630 | a rule lookup error stops the push; a rule with approvers submits it with the resubmission or submission text; no rule or an empty rule publishes it; on the non-pending, non-approved statuses it follows the route |
| SwitchService.FollowRoute | switch-admin/internal/service/switch_service.go:592-605 | the approval status and the rule decide the route, its text, its outcome and how the switch changes |
| SwitchService.ProceedPush | switch-admin/internal/service/switch_service.go:567-605 | a configuration lookup error or a failed creation of the missing configuration stops the push; otherwise the created configuration is committed first and the route decides the rest |
| SwitchService.PushSwitchChange | switch-admin/internal/service/switch_service.go:522-606 | a switch that cannot be found or a namespace without readable environments fails; then a missing target fails, a switch with nowhere to go reports success without change, a stale target asks for a refresh, and a push to the next environment proceeds |
| ApprovalUtils.ParseApproverUsers | switch-frontend/src/utils/approvalUtils.ts:4-25 | a falsy value gives no ids and an array is returned unchanged |
| ApprovalUtils.ParseText | switch-frontend/src/utils/approvalUtils.ts:14-24 | non-empty text that parses to an array gives its elements; text that fails to parse or parses to anything else gives no ids |
| ApprovalUtils.StringifyApproverUsers | switch-frontend/src/utils/approvalUtils.ts:30-40 | text is kept as it is and a value that is neither text nor an array becomes the empty JSON array |
| ApprovalUtils.StringifyThenParse | switch-frontend/src/utils/approvalUtils.ts:4-40 | ids serialised for the back end and parsed back for the form are the same ids, when the parser reads back what the serialiser writes |
| ApprovalUtils.ParseThenStringify | switch-frontend/src/utils/approvalUtils.ts:4-40 | the serialised text of an id array, parsed for the form and serialised again, is the same text |
| ApprovalUtils.WithApproverUsers | switch-frontend/src/utils/approvalUtils.ts:46-49 | the copy of an approval has the new ids and every other field of the original; reading the field of null or undefined fails |
| ApprovalUtils.ForFormAll | switch-frontend/src/utils/approvalUtils.ts:45-50 | the form conversion of a list keeps its length |
| ApprovalUtils.ForSubmitAll | switch-frontend/src/utils/approvalUtils.ts:55-60 | the submit conversion of a list keeps its length |
| ApprovalUtils.ForFormEach | switch-frontend/src/utils/approvalUtils.ts:45-50 | the form conversion fails only when some approval is null or undefined, and otherwise gives each approval its parsed ids as an array |
| ApprovalUtils.ForSubmitEach | switch-frontend/src/utils/approvalUtils.ts:55-60 | the submit conversion gives each approval its ids as text |
| ApprovalUtils.ConversionsDefined | switch-frontend/src/utils/approvalUtils.ts:45-60 | neither conversion fails on a list without null or undefined approvals |
| ApprovalUtils.ApprovalRoundTrip | switch-frontend/src/utils/approvalUtils.ts:45-60 | an approval prepared for the form, then for submission, then for the form again holds the same ids |
| ApproverConfig.MatchingApprovers | switch-frontend/src/pages/switch/components/ApproverConfig.tsx:85-87 | the approvers kept are exactly those whose user name contains the search text, ignoring case |
| ApproverConfig.FilteredApprovers | switch-frontend/src/pages/switch/components/ApproverConfig.tsx:83-88 | a row lists exactly the approvers matching its search text, and a row without one the approvers matching the empty text |
| ApproverConfig.EmptyMatchesAll | switch-frontend/src/pages/switch/components/ApproverConfig.tsx:84-86 | every approver matches the empty search text |
| ApproverConfig.NoSearchListsAll | switch-frontend/src/pages/switch/components/ApproverConfig.tsx:83-88 | a row without a search text lists every approver, in order |
| ApproverConfig.FindApprover | switch-frontend/src/pages/switch/components/ApproverConfig.tsx:109 | no approver is found exactly when no loaded user has the id, and one found is a loaded user with the id |
| ApproverConfig.FindApproverFirst | switch-frontend/src/pages/switch/components/ApproverConfig.tsx:109 | the approver found is the first loaded user with the id, as `.find` returns the first match |
| ApproverConfig.AddedIds | switch-frontend/src/pages/switch/components/ApproverConfig.tsx:120-123 | after adding, the row's ids include the approver and every other row is unchanged |
| ApproverConfig.AddAppends | switch-frontend/src/pages/switch/components/ApproverConfig.tsx:121-122 | an approver not yet in the row is appended after the ids already there |
| ApproverConfig.WithoutId | switch-frontend/src/pages/switch/components/ApproverConfig.tsx:136 | the ids kept are exactly the row's ids other than the one removed |
| ApproverConfig.WithoutAbsentId | switch-frontend/src/pages/switch/components/ApproverConfig.tsx:136 | removing an id that is not in the row leaves it as it was |
| ApproverConfig.ChosenTags | switch-frontend/src/pages/switch/components/ApproverConfig.tsx:151-154 | the tags chosen are exactly the set environment tags of the rows other than the one skipped |
| ApproverConfig.AvailableExactly | switch-frontend/src/pages/switch/components/ApproverConfig.tsx:150-157 | an environment is offered to a row exactly when it is an option and no other row has chosen its tag |
| ApproverConfig.OwnTagOffered | switch-frontend/src/pages/switch/components/ApproverConfig.tsx:150-157 | a row's own environment stays on offer to it when no other row chose it |
| ApproverConfig.FewerRowsCanAdd | switch-frontend/src/pages/switch/components/ApproverConfig.tsx:334-338 | with fewer rows than environments the add button is enabled |
| ApproverConfig.ApproverSection.constructor | switch-frontend/src/pages/switch/components/ApproverConfig.tsx:56-80 | the component starts with the loaded users, no search texts, the form's fields and no warnings |
| ApproverConfig.ApproverSection.UpdateSearchText | switch-frontend/src/pages/switch/components/ApproverConfig.tsx:91-96 | the row's search text becomes the value and nothing else changes |
| ApproverConfig.ApproverSection.CleanupSearchText | switch-frontend/src/pages/switch/components/ApproverConfig.tsx:141-147 | the row's search text is removed and nothing else changes |
| ApproverConfig.ApproverSection.AddApprover | switch-frontend/src/pages/switch/components/ApproverConfig.tsx:106-125 | nothing happens when disabled or the user is unknown; a user without the approve permission is warned about; otherwise the id joins the row once and the row's search text is cleared |
| ApproverConfig.ApproverSection.RemoveApprover | switch-frontend/src/pages/switch/components/ApproverConfig.tsx:133-138 | the row keeps every id but the one removed and nothing else changes |
| ApproverConfig.RemovedGone | switch-frontend/src/pages/switch/components/ApproverConfig.tsx:133-138 | a removed approver is gone from the row and every other approver stays |
| DriverConfiguration.WithoutDriver | switch-frontend/src/pages/env/components/DriverConfiguration.tsx:778-781 | the list after deleting keeps exactly the drivers whose id differs from the one deleted |
| DriverConfiguration.DeleteAbsent | switch-frontend/src/pages/env/components/DriverConfiguration.tsx:779 | deleting an id no driver has leaves the list unchanged |
| DriverConfiguration.ReplaceById | switch-frontend/src/pages/env/components/DriverConfiguration.tsx:811 | the list keeps its length and every driver with the id is replaced by the new one, the others staying in place |
| DriverConfiguration.UpsertStores | switch-frontend/src/pages/env/components/DriverConfiguration.tsx:808-814 | after saving, the driver is in the list and is every entry with its id; a known id keeps the length, an unknown id appends the driver; every other driver stays in place |
| DriverConfiguration.UpsertTwice | switch-frontend/src/pages/env/components/DriverConfiguration.tsx:808-814 | saving the same driver twice gives the list saving it once gives |
| DriverConfiguration.NewDriverFields | switch-frontend/src/pages/env/components/DriverConfiguration.tsx:803-806 | the saved driver takes each field from the form when the form has it and otherwise from the driver being edited |
| DriverConfiguration.ForUsage | switch-frontend/src/pages/env/components/DriverConfiguration.tsx:825 | a tab lists exactly the drivers with its usage |
| DriverConfiguration.TabsPartition | switch-frontend/src/pages/env/components/DriverConfiguration.tsx:821-825 | no driver is on both tabs, and every producer or consumer driver is on one of them |
| DriverConfiguration.ExampleConfigText | switch-frontend/src/pages/env/components/DriverConfiguration.tsx:659-685 | the six known driver type and usage pairs get their example, and every other pair an empty JSON object or empty YAML text |
| DriverConfiguration.DriverList.constructor | switch-frontend/src/pages/env/components/DriverConfiguration.tsx:730-736 | the component starts with the counter at zero, nothing being edited, the drawer closed, in create mode, on the producer tab and with nothing handed on |
| DriverConfiguration.DriverList.NewTempId | switch-frontend/src/pages/env/components/DriverConfiguration.tsx:739-742 | the new id is one below the last, negative and never given out before, and nothing else changes |
| DriverConfiguration.DriverList.HandleAdd | switch-frontend/src/pages/env/components/DriverConfiguration.tsx:765-770 | a new driver with a fresh negative id and the active tab's usage is edited in an open create drawer |
| DriverConfiguration.DriverList.HandleEdit | switch-frontend/src/pages/env/components/DriverConfiguration.tsx:772-776 | the driver given is edited in an open drawer and nothing else changes |
| DriverConfiguration.DriverList.HandleDelete | switch-frontend/src/pages/env/components/DriverConfiguration.tsx:778-781 | the list without the drivers of that id is handed on and nothing else changes |
| DriverConfiguration.DriverList.OnDrawerClose | switch-frontend/src/pages/env/components/DriverConfiguration.tsx:783-787 | the drawer closes and nothing is being edited |
| DriverConfiguration.DriverList.OnFormFinish | switch-frontend/src/pages/env/components/DriverConfiguration.tsx:797-819 | the form merged over the edited driver is saved into the list by id, the list is handed on and the drawer closes |
| DriverConfiguration.DriverList.SetActiveTab | switch-frontend/src/pages/env/components/DriverConfiguration.tsx:754-756 | the active tab becomes the key and nothing else changes |
| DriverConfiguration.DriverList.SetIsCreate | switch-frontend/src/pages/env/components/DriverConfiguration.tsx:757-759 | the create flag becomes the value given and nothing else changes |
| DriverConfiguration.NewDriverAppended | switch-frontend/src/pages/env/components/DriverConfiguration.tsx:765-814 | a driver added and saved is appended to a list of stored drivers, because its temporary id is negative |
| EnvForm.NormalisedDriver | switch-frontend/src/pages/env/components/CreateUpdateForm.tsx:165-175 | a driver with a negative id gets id 0, any other driver is copied as it is, and every other field is kept |
| EnvForm.NormalisedDrivers | switch-frontend/src/pages/env/components/CreateUpdateForm.tsx:165-175 | every driver is normalised, in order |
| EnvForm.NoTempIdsSubmitted | switch-frontend/src/pages/env/components/CreateUpdateForm.tsx:164-175 | no driver leaves the form with a negative id, and a driver without one keeps its id |
| EnvForm.FinalValues | switch-frontend/src/pages/env/components/CreateUpdateForm.tsx:176-180 | the submitted values carry the normalised drivers |
| EnvForm.FinalValuesFields | switch-frontend/src/pages/env/components/CreateUpdateForm.tsx:176-180 | every other field comes from the form when it has it and otherwise from the environment being edited |
| EnvForm.Suffixed | switch-frontend/src/pages/env/components/CreateUpdateForm.tsx:45-48 | a driver is sent with its type suffixed by an underscore and its usage, and reading the fields of null or undefined fails |
| EnvForm.SuffixedAll | switch-frontend/src/pages/env/components/CreateUpdateForm.tsx:45-48 | the mapped driver list keeps its length |
| EnvForm.SuffixedEach | switch-frontend/src/pages/env/components/CreateUpdateForm.tsx:45-48 | each driver sent has its type suffixed by its usage |
| EnvForm.TextFieldsSuffixed | switch-frontend/src/pages/env/components/CreateUpdateForm.tsx:47 | a driver whose type and usage are text is sent with the type joined to the usage by an underscore |
| EnvForm.RequestParams | switch-frontend/src/pages/env/components/CreateUpdateForm.tsx:39-49 | a selected namespace is attached, and a falsy drivers field is passed on unchanged |
| EnvForm.ValidateDriversOnTab | switch-frontend/src/pages/env/components/CreateUpdateForm.tsx:302-339 | on either tab the drivers pass exactly when there is a producer and a consumer; the current tab's usage is complained about first, and a complaint about the other usage switches to the other tab |
| EnvForm.ValidateDriversElsewhere | switch-frontend/src/pages/env/components/CreateUpdateForm.tsx:310-313 | without the tab handle, or on another tab, the drivers pass |
| BusinessGenerator.BusinessGenerator.constructor | switch-components/snowflake/business_generator.go:13-24 | a generator made after the node check keeps the business type and prefix of its configuration and has drawn no id yet |
| BusinessManager.BusinessManager.constructor | switch-components/snowflake/business_manager.go:43-47 | a new manager holds no generators and keeps its invariant |
| ConfigFactory.ConfigFactory.constructor | switch-sdk-core/config/config_factory.go:25-32 | the factory starts with no creators |
| ConfigManager.ConfigManager.constructor | switch-sdk-core/config/config_manager.go:19-23 | the manager starts with no configurations |
| PcClientConfig.ReconnectState.constructor | switch-components/pc/client_config.go:85-90 | a reconnect state starts with no attempts, no last attempt and no delay |
| PcServer.Server.constructor | switch-components/pc/server.go:52-64 | a new server has no connections, none trusted, is not running and keeps its connection limit |
| RpcConfig.ServerConfig.constructor | switch-sdk-core/invoke/rpc/config.go:64 | a new server configuration has every field at its zero value |
| WsSwitchCache.SwitchCache.constructor | switch-admin/internal/ws/switch_cache.go:38-47 | a new cache is empty, keeps its time to live and is neither started nor stopped |
| SwitchFactorEditor.SchemaEditor.constructor | switch-frontend/src/pages/switch-factor/components/CreateUpdateForm.tsx:137 | the editor starts on an empty schema and has sent nothing |
| Val.BoolRef.constructor | switch-sdk-core/tool/val.go:409-411 | the cell holds the flag it was made with |
| Val.Bool | switch-sdk-core/tool/val.go:409-411 | the pointer returned is to a new cell holding the flag |

## Left out

- Concurrency is not modelled. That covers goroutines, channels, mutexes, atomics, wait groups and contexts. Every operation runs alone, start to finish.
- Networking is not modelled: the HTTP, gRPC and WebSocket servers and clients, the Kafka clients, ping and TCP probes, and TLS loading. Where the core branches on the result of I/O, that result is an input.
- Databases are not modelled: repositories, transactions and queries. Their answers are inputs, and a failed transaction is modelled as committing no write.
- Clocks are not modelled. The current time is a parameter, in nanoseconds or Unix seconds, and timestamps stored in records are dropped.
- Foreign libraries are parameters: encoding/json, `JSON.parse` and `JSON.stringify`, YAML and mapstructure decoding, `url.Parse`, `net.ParseIP` and `time.ParseDuration`. Their error text is passed through as given, except for the two duration messages named below.
- Floating point is not modelled. JSON numbers and float64 values are integers in the model; `Val.Float` holds only integral values, and `ToFloat64`, `ToInt64` and `GetFloat` are not modelled.
- Go measures string length in bytes; the model counts characters. There is no UTF-8 or UTF-16 encoding, and `toLowerCase` and `strings.ToLower` change only ASCII letters.
- JavaScript object spreads are modelled on ordered association lists. Prototypes, getters and key-order details beyond first occurrence are not modelled.
- `intl.formatMessage` and other translated text are not modelled. A warning or error keeps only its kind and the values it names.
- React rendering is not modelled: render functions, tabs, modals, drawers and effects. The six driver configuration examples of `getExampleConfigText` are one parameter `demo`.
- Plain field getters add nothing to the model and read the model's record fields directly. These are `getBrokers`, `getTopic`, `getSecurity`, `getIgnoreExceptions`, `hasURL`, `GetVersion`, `GetConfig`, `IsRunning`, `GetConnectionCount`, `GetClientCount`, `GetDriverName`, `GetDriverType`, `SetDriverMeta` and `SetFailureCallback`.
- switch_service.go: `SwitchList`, `CreateUpdateSwitchFactor`, `SwitchFactorList`, `SwitchFactorLike` and `GetSwitchDetails` are not modelled; they are repository queries and pagination. The JSON encodings of approver ids, approval forms and snapshots are held as the values they encode.
- SwitchService.CreateSwitch: a switch lookup that finds no record and reports no error would make the Go code dereference nil; the model's lookup yields either a switch or an error.
- approval_service.go: `ApplyToJoin`, `buildUserMapping`, `processApprovals`, `GetRequestsByRequester` and `GetAllRequests` are not modelled; they are queries and pagination.
- ws/switch_cache.go: the minute ticker that runs `doCleanup` is not modelled. Neither are `GetStats` and the process-wide `StartSwitchCache`, `GetSwitchCache` and `StopSwitchCache`.
- yaml_config_parse.go: `Unmarshal` is not modelled. It re-encodes the configuration with `yaml.Marshal`, decodes that text into a caller's Go value with `yaml.Unmarshal` (reflection over an arbitrary struct) and, on a `yaml.TypeError`, formats a report from the decoder's messages and the encoded lines; the YAML encoder, the decoder and the decoder's message texts are a foreign library.
- config_cache.go: `GetCacheStats` is statistics only and is not modelled.
- ConfigCache.ConfigCache.AddConfig: the uint64 version counter is unbounded in the model and never wraps.
- ConfigCache.ConfigCache.constructor: it takes the size and age limits as parameters instead of the constants 3000 and one hour of `NewConfigCache`.
- dynamic_ip_pool.go: `StartIPPoolManager`, `StopIPPoolManager`, `GetIPPoolManager`, `AddClientIPsToPool`, `RemoveClientIPsFromPool` and the process-wide `GetReachableIPs`, `GetUnreachableIPs` and `GetAllIPs` are not modelled. Neither are the worker pool, the periodic checker and its queue. `isIPReachable` is a parameter, and the order of concurrent probes is not modelled.
- val.go: `ConvertToAny`, `ConvertToVal`, `ConvertToMap`, `ConvertToMapS` and `getValueFromStructpb` are not modelled; they are protobuf conversions. `ToJSONString` is not modelled either; it is JSON encoding.
- factor_filter.go: statistics, timers and the middleware chain around `Filter` are not modelled.
- switch_factor.go: the `init` registration of the actuators is not modelled; the actuators are called directly.
- factor_cache.go: `UseCache` and `FromContext` are not modelled; they only carry the cache in a context.
- driver_manager.go: `GetManager`, `GetDriversByType` and `GetOrCreate` are not modelled. Neither are the drivers' failure callbacks and metadata. `getDriver` is not modelled either; `GetDriver` reads the wrapper's driver without calling it.
- safety_driver_replace.go: `BatchReplaceParallel` is modelled only up to its argument check, because its replacements run concurrently; `waitForStability` always succeeds, so the rollback after it is unreachable and not modelled.
- SafetyDriverReplace.BatchReplaceSerial: it requires at least as many factories and timestamps as configurations, where the Go code would index out of range.
- polling_producer_driver.go: the HTTP server, `handleHealth`, `Notify`'s encoding, `GetCacheStats`, the dispatcher and cleaner goroutines are not modelled. Client ids built from the clock are inputs.
- polling_consumer_driver.go: `initNetworkInfo`, `setAuthHeaders`, the header assembly of `createRequest` and the ticker of `startPolling` are not modelled. The process-wide version atomic is a field of the consumer.
- pc/server.go: the read and write loops, `run`, the HTTP handlers, `checkClientHealth` and the broadcast and reliable-message senders are not modelled.
- pc/client_config.go: `CalculateNextDelay` is not modelled; it uses floating-point powers and jitter.
- rpc/config.go: `ServerConfig.String` is not modelled; it is formatting only.
- logger.go: everything but `convertDateFormat` is not modelled; it wraps zap and lumberjack.
- snowflake: the bwmarrin node is a stream of ids given as a parameter, and the process-wide `RegisterGlobalBusiness` and `GenerateGlobal*` wrappers are not modelled.
- EnvForm.FinalValues: the form's `drivers` value is taken to be an array; the code's `formValues.drivers.map` would throw on anything else.
- DriverConfiguration.DriverList: `getActiveTab` only reads the active tab, and the model reads the field directly.
- Kafka.CheckDurations: the message is `invalid <name> format '<text>'` and omits the `: ` and the parser's own error text that the Go code appends.
- Polling.DurationError: it is always `time: invalid duration "<text>"`; `time.ParseDuration` also reports other texts, such as a missing or unknown unit, which the model does not distinguish.
- Polling.ProducerValidateBase: it checks the port with the corrected `Polling.ValidatePort` of the Findings table, so a port such as "80abc" fails here where the Go code lets it pass.
- Polling.ProducerIsValid: it builds on `Polling.ProducerValidateBase` and so on the corrected port check.
- Webhook.ProducerValidateBase: it checks the port with the corrected `Webhook.ValidateWebhookPort` of the Findings table, so a port such as "80abc" fails here where the Go code lets it pass.
- Webhook.ConsumerValidateBase: it uses the corrected port check in the same way.
- Webhook.ProducerIsValid: it builds on `Webhook.ProducerValidateBase` and so on the corrected port check.
- Webhook.ConsumerIsValid: it builds on `Webhook.ConsumerValidateBase` and so on the corrected port check.
- Val.JsonText: a `[]byte` inside a slice is written as a quoted string of its text, where `encoding/json` writes it in base64; an `Other` value inside a slice is written as the quoted text it holds, where `encoding/json` would use the value's own encoding.
- Val.EscapeChar: backspace and form feed are written `\b` and `\f`, as recent Go versions do; older versions write them as `\u0008` and `\u000c`.
- Val.GoQuoteChar: `strconv.IsPrint` is approximated; the C0 and C1 controls, DEL, U+00A0, U+00AD, U+FEFF and the Unicode space, line and paragraph separators are escaped, but other non-printable non-ASCII characters (unassigned code points, other format characters) are kept as they are, where Go escapes them as `\u` or `\U` sequences.
- JsonValue.Put: a new key always goes last. JavaScript objects list integer-like keys first in ascending order, and the model does not.
- SwitchFactorSchema.NumberOfText: only empty text and optionally signed decimal digits are numbers; `Number` also reads forms such as "0x10", "1e3", "1.5" and "Infinity", which the model treats as `NaN`.
- SwitchFactorEditor.Spread: spreading a string gives no properties in the model, where JavaScript gives one property per character.
- WsSwitchCache.SwitchCache.Stop: a second `Stop` after a restart closes an already closed channel and panics in Go; the model only records that the cache was stopped.
- ApprovalService.ApproveRequest: a form whose switch is missing makes the Go code panic on a nil pointer; the model returns `Fail(NilSwitch)` instead.
- YamlConfig.YamlConfig.GetStringMap: Go returns the configuration's own map, so a caller's writes change the configuration; the model returns a copy and does not model that aliasing.

## Findings

| source | as written | input that shows it | evidently intended | confidence | as-written member | corrected member |
|---|---|---|---|---|---|---|
| switch-components/drivers/webhook.go:193-209 | the port check scans a leading number with `fmt.Sscanf("%d")`, so text after the digits is ignored | the port "80abc" passes | a port is all digits with value 1..65535 | medium, not executed | Webhook.ValidateWebhookPortAsWritten (Webhook.WebhookPortAcceptsTrailingText) | Webhook.ValidateWebhookPort (Webhook.WebhookPortRejectsTrailingText, Webhook.WebhookPortCorrectedStricter, Webhook.WebhookPortAgreesOnDigits) |
| switch-components/drivers/polling.go:276-292 | the same `Sscanf` prefix scan in `validatePort` | the port "80abc" passes | a port is all digits with value 1..65535 | medium, not executed | Polling.ValidatePortAsWritten (Polling.PollingPortAcceptsTrailingText) | Polling.ValidatePort (Polling.PortCheckCorrected) |
| switch-components/logging/logger.go:254-258 | the ten replacements run one after another over the result so far, in Go's unspecified map iteration order | "%%Z" becomes "04ST" when "%Z" is visited before "%M" and "%MST" otherwise | every placeholder replaced once in a single pass over the format, whatever the order | medium, not executed | Logging.ConvertDateFormatAsWritten (Logging.OrderDependent, Logging.ZBeforeM, Logging.MBeforeZ) | Logging.ConvertDateFormat (Logging.AnyOrderAgrees, Logging.SinglePassPercentZ) |
| switch-sdk-core/resp/message.go:71-78 | each placeholder found becomes one replacer pair, and the replacer applies the first pair whose old text matches, so equal placeholders all take the first parameter | template "{} and {}" with 1 and 2 builds "1 and 1" | the i-th placeholder takes the i-th parameter | medium, not executed | Message.MessageBuilder.Build (Message.RepeatedPlaceholderTakesFirstValue) | Message.Positional (Message.PositionalFillsInOrder, Message.PositionalRepeated) |
| switch-admin/internal/service/switch_service.go:197-231 | approval rules are built only when the editor is not the switch's creator, yet every edit deletes all rules | the creator edits a switch asking for an approver on an environment, and ends with no approval rule at all | only the creator's edit changes the approvers, and it sets the ones requested | medium, not executed | SwitchService.RulesAfterEditAsWritten (SwitchService.AuthorEditDropsApprovers, SwitchService.AuthorEditExample) | SwitchService.RulesAfterEdit |
