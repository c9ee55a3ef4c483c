# fty-metric-composite, modelled in Dafny

The repository computes composite metrics. A sensor reports temperature or
humidity. A composite metric is the average of several such sensors, for
example the inlet temperature of a rack. The repository has two agents:

* **The composite-metric server** (`fty_metric_composite_server`) is an actor.
  - It reads one descriptor: a list of input topics and a Lua script.
  - It subscribes to each input topic with an anchored, escaped
    regular expression.
  - It keeps a cache of the last value of every input, each with a validity
    deadline.
  - On every incoming metric it updates the cache and hands the still-valid
    values to the script.
  - It splits the script's result topic at its last `@` and publishes the
    result with a five-minute TTL.
* **The configurator** (`fty_metric_composite_configurator_server`) generates
  those descriptors, one per asset and quantity.
  - On every regeneration it removes every `.cfg` file in its output
    directory, and stops and disables the service of the same name.
  - It fills a JSON/Lua template for each rack (input and output sensors) and
    for each other asset.
  - For each template it writes the file, then enables and starts the service.
  - It reports the metrics that were produced before and are no longer
    produced.
* **The settings record** (`c_metric_conf`) holds the configurator's name, its
  output directory and the propagation flag.

The modules follow the source files:

| file | module | source |
|---|---|---|
| `wrappers.dfy` | `Wrappers` | the `Option` type |
| `topic_grammar.dfy` | `TopicGrammar` | `escape_regex`, the subscription pattern, the split at the last `@` |
| `composite_server.dfy` | `CompositeServer`, `CompositeServerScenario` | the actor: cache, snapshot, evaluation, command handling; its selftest |
| `configurator_naming.dfy` | `ConfiguratorNaming` | topics, file and service names, the template and its placeholder replacement, teardown names |
| `configurator_server.dfy` | `ConfiguratorServer`, `ConfiguratorServerScenario` | `s_remove_and_stop`, `s_generate_and_start`, `s_regenerate`; the unavailable-metrics selftest |
| `metric_conf.dfy` | `MetricConf` | the settings record |

## How the model treats the outside world

* **The actor** is the class `CompositeServer.CompositeActor`.
  - `phase`, `cache` and `luaCode` are the actor function's local variables.
  - `subscriptions` stands for the consumer patterns registered with the bus
    (`mlm_client_set_consumer`), in registration order.
* **Its event loop** is `Run`, over a sequence of wake-ups. A wake-up is a
  pipe command or the bus reporting a message. The messages themselves wait
  in a queue, `inbox`, until the loop receives them.
* **`Replay`** is the loop as a function: the state, the number of messages
  received and the outcomes after a sequence of wake-ups.
* **The Lua interpreter** is a function parameter `eval`. It takes the
  snapshot table `mt` and the script, and returns an error or the values the
  script returned.
* **The clock** (`time (NULL)`) is a parameter `now`.
* **The configurator's side effects** form a log of `Action`s:
  `systemctl stop/disable/enable/start`, file removal and file write.
* **The directory listing** is a `Listing` value.
* **Whether a file write succeeds** is an oracle `writeOk` on the file's full
  path.
* **The asset database** (`data_t`) is not part of this model. Regeneration
  receives each asset as an `AssetView`, after sensor reassignment:
  - the asset's name;
  - its aux attributes;
  - its input, output and plain sensor lists, each optional. A missing list
    is the source's NULL list.
* **The settings record** is the class `MetricConf.MetricConf`.
  - Whether the directory exists and is writable are parameters of
    `SetCfgdir`.
  - Destroying the record is `MetricConf.Destroy` on a nullable handle.

## Behaviour of the code worth knowing

* **CONNECT** sets the phase back to 1 even after a CONFIG.
* **Bus messages wait for CONFIG.** Below phase 2 a bus wake-up logs "DATA
  before CONFIG" and does not receive the message. The message stays queued,
  and the first bus wake-up after the next CONFIG receives it and applies it
  (`CompositeServer.DeferredMetricApplied`).
* **A second CONFIG** is accepted. It adds subscriptions, resets the listed
  inputs to expired slots, and replaces the script.
* **`lua_pcall (L, 0, 3, 0)`** always leaves exactly three values, so the
  "not enough valid data" branch cannot be reached through the interpreter.
  `Evaluate` still models the count check as the code writes it.
* **The clock is read twice** in the code: for the snapshot, and again for
  the published metric's time. The model uses one `now` for both.
* **`escape_regex`** looks characters up with `strchr`, which also matches
  the string terminator. `NeedsEscape` therefore includes NUL.
* **C strings end at the first NUL.** The subscription pattern is handed to
  the bus as `buff.c_str ()`, and the result topic goes through `strrchr`,
  `strdup` and `"%s"`. For a topic holding NUL the code uses only the text
  before it. The model keeps whole strings (see "## Left out").
* **An asset name with `@`.** A result topic ends in `@<asset name>`, and the
  server splits it at its last `@`. For an asset named `a@b` the server
  publishes type `average.<quantity>[-<function>]@a` and name `b`.
* **A missing placeholder.** `std::string::replace` at `npos` throws. The model
  leaves the text unchanged in that case. With the fixed template, every
  placeholder is present.
* **Topics are quoted but not escaped** in the template's `"in"` list. A
  topic containing `"`, `\` or a control character gives a descriptor that
  does not parse, or one whose JSON reader decodes a different topic. The
  round trip `ConfiguratorNaming.InTextRoundTrip` therefore needs topics
  without these characters (`JsonPlain`).
* **Later replaces can hit inserted text.** A replacement that itself
  contains a later placeholder text (a `#`) would be hit by that later
  replace. `ConfiguratorNaming.ContentsLayout` therefore assumes that no
  inserted text contains `#`.

## Model

| member | source | states |
|---|---|---|
| TopicGrammar.EscapeRegex | src/fty_metric_composite_server.cc:52-65 | the output is the input with a backslash before every regex metacharacter (and NUL), characters kept in order |
| TopicGrammar.EscapedSnoc | src/fty_metric_composite_server.cc:52-65 | escaping one more character appends that character's escape to the escaped prefix (the loop step) |
| TopicGrammar.EscapedLength | src/fty_metric_composite_server.cc:52-65 | the escaped text is longer than the input by exactly the number of escaped characters |
| TopicGrammar.UnescapeEscaped | src/fty_metric_composite_server.cc:52-65 | dropping the inserted backslashes gives back the original topic: escaping loses nothing |
| TopicGrammar.FilterRoundTrip | src/fty_metric_composite_server.cc:132-139 | the pattern `^escaped$` registered for an input accepts exactly that input topic as a literal |
| TopicGrammar.FilterInjective | src/fty_metric_composite_server.cc:132-139 | two different input topics never get the same subscription pattern |
| TopicGrammar.LastIndexOf | src/fty_metric_composite_server.cc:216-224 | `strrchr`: None iff the character is absent; otherwise an index holding it with no later occurrence |
| TopicGrammar.SplitTopic | src/fty_metric_composite_server.cc:216-226 | None iff the topic has no `@`; otherwise type + "@" + name is the topic and the name has no `@` |
| TopicGrammar.JoinSplit | src/fty_metric_composite_server.cc:220-226 | splitting type@name gives back type and name when the name has no `@` |
| CompositeServer.DigitText | src/fty_metric_composite_server.cc:216 | the decimal text of a number is made of digits only |
| CompositeServer.NumberText | src/fty_metric_composite_server.cc:216 | a numeric result converted to text contains no `@` |
| CompositeServer.Evaluate | src/fty_metric_composite_server.cc:208-239 | a script error is reported with its message; a result count other than three is "not enough data"; a first value without `@` is an invalid topic; otherwise the metric is published under the first value, with the name after the last `@`, the type before it, value and unit from the second and third values, TTL 300 and time now |
| CompositeServer.EvaluatePublishes | src/fty_metric_composite_server.cc:215-232 | a script returning (type@name, v, unit) publishes exactly metric (type, name, v, unit, 300, now) under type@name |
| CompositeServer.Snapshot | src/fty_metric_composite_server.cc:193-205 | the table given to the script holds exactly the cached topics whose deadline is not before now, with their cached values |
| CompositeServer.ExpireInputsSpec | src/fty_metric_composite_server.cc:132-139 | after CONFIG every listed topic has an expired slot (duplicates share one), and every other cache entry is kept as it was |
| CompositeServer.Filters | src/fty_metric_composite_server.cc:132-139 | one subscription pattern per listed input, in order, each the escaped anchored pattern of its topic |
| CompositeServer.FreshInputsNotInSnapshot | src/fty_metric_composite_server.cc:132-139 | right after CONFIG no listed input is visible to the script (its slot expired at time 0) |
| CompositeServer.Stored | src/fty_metric_composite_server.cc:170-182 | storing a metric inserts or overwrites its subject with value and deadline timestamp + ttl and keeps every other entry |
| CompositeServer.RedeliveryIdempotent | src/fty_metric_composite_server.cc:170-182 | receiving the same metric twice leaves the same cache and snapshot as receiving it once |
| CompositeServer.StoredVisibleUntilDeadline | src/fty_metric_composite_server.cc:175-200 | a stored value is seen by the script exactly while now <= timestamp + ttl, with the stored value |
| CompositeServer.CompositeActor.constructor | src/fty_metric_composite_server.cc:68-72 | a new actor is in phase 0 with an empty cache, no script and no subscriptions |
| CompositeServer.CompositeActor.Terminate | src/fty_metric_composite_server.cc:90-95 | `$TERM` ends the actor |
| CompositeServer.CompositeActor.Connect | src/fty_metric_composite_server.cc:97-106 | CONNECT sets the phase to 1 and changes nothing else |
| CompositeServer.CompositeActor.Configure | src/fty_metric_composite_server.cc:108-149 | CONFIG before CONNECT is ignored; an unreadable descriptor ends the actor (changes made before the failure are not modelled); otherwise the script is replaced, the inputs' slots expired, one pattern per input subscribed, and the phase becomes 2 |
| CompositeServer.CompositeActor.ExpireAndSubscribe | src/fty_metric_composite_server.cc:132-139 | the CONFIG loop: the cache becomes `ExpireInputs` of the listed topics and one escaped, anchored pattern per topic is appended in order |
| CompositeServer.CompositeActor.HandleCommand | src/fty_metric_composite_server.cc:85-150 | dispatch of a pipe command: `$TERM` exits, CONNECT and CONFIG as above, any other command is ignored with the state unchanged |
| CompositeServer.CompositeActor.BuildSnapshot | src/fty_metric_composite_server.cc:193-205 | the loop over the cache builds exactly `Snapshot(cache, now)` |
| CompositeServer.CompositeActor.OnMetric | src/fty_metric_composite_server.cc:156-239 | before CONFIG the bus is not read: the message stays queued, the outcome is "data before CONFIG" and the cache is unchanged; from phase 2 on a missing or undecodable message is ignored; otherwise the cache becomes `Stored(...)` and the outcome is `Evaluate` of the script on the snapshot; a metric on a subscribed topic adds no cache key |
| CompositeServer.CompositeActor.Run | src/fty_metric_composite_server.cc:82-243 | the final state, the number of queued messages received and the outcomes are those of `Replay` over the wake-ups consumed; the loop stops right after a `$TERM` or a CONFIG after CONNECT whose descriptor cannot be loaded, and at no earlier wake-up; otherwise it consumes every wake-up |
| CompositeServer.CompositeActor.WakeOnBus | src/fty_metric_composite_server.cc:156-239 | one bus wake-up of the loop moves the state, the queue position and the outcomes exactly as `Step` does |
| CompositeServer.ReplayCounts | src/fty_metric_composite_server.cc:156-164 | every bus wake-up yields one outcome, and the queued messages are received at most once each, at most one per wake-up |
| CompositeServer.NothingReceivedBeforeConfig | src/fty_metric_composite_server.cc:156-159 | from a state below phase 2, wake-ups without a CONFIG receive no message, keep the cache and the phase below 2, and every bus wake-up reports "data before CONFIG" |
| CompositeServer.DeferredMetricApplied | src/fty_metric_composite_server.cc:97-182 | a metric queued between CONNECT and CONFIG is received by the first bus wake-up after CONFIG, stored over the expired slots and evaluated by the new script |
| CompositeServerScenario.ScenarioSingleInput | src/fty_metric_composite_server.cc:300-322 | with the averaging script, one reading 40 of TH1 publishes 40 on temperature@world |
| CompositeServerScenario.ScenarioTwoInputs | src/fty_metric_composite_server.cc:325-346 | readings 40 and 100 publish their average 70 |
| CompositeServerScenario.ScenarioUpdate | src/fty_metric_composite_server.cc:349-368 | replacing TH1 by 70 publishes 85 |
| CompositeServerScenario.ScenarioAllStale | src/fty_metric_composite_configurator_server.cc:206-209 | when every input is past its deadline the averaging script fails with "all sensors lost" |
| CompositeServerScenario.ConfiguredCache | src/fty_metric_composite_server.cc:132-139 | CONFIG on an empty cache with TH1 and TH2 leaves exactly two expired slots |
| CompositeServerScenario.NewConfiguredActor | src/fty_metric_composite_server.cc:291-297 | CONNECT then CONFIG yields a configured actor in phase 2 with the two expired inputs |
| CompositeServerScenario.Selftest | src/fty_metric_composite_server.cc:300-368 | the three messages of the selftest publish 40, 70 and 85 on temperature@world with TTL 300 |
| ConfiguratorNaming.Topics | src/fty_metric_composite_configurator_server.cc:173-184 | one input topic per sensor, in list order: `<quantity>.<port>@<parent_name.1>`, "(unknown)" for a missing attribute |
| ConfiguratorNaming.JoinQuotedSnoc | src/fty_metric_composite_configurator_server.cc:166-178 | appending a topic adds `, ` before it except for the first (the `first` flag) |
| ConfiguratorNaming.OffsetLinesAppend | src/fty_metric_composite_configurator_server.cc:187-188 | the offset lines of two sensor lists in sequence are the lines of their concatenation |
| ConfiguratorNaming.OffsetLineOf | src/fty_metric_composite_configurator_server.cc:160-188 | the offsets text holds, after the header, the line of every sensor k in position k |
| ConfiguratorNaming.FindChar | src/fty_metric_composite_configurator_server.cc:178 | the first position of a character, or the end when absent |
| ConfiguratorNaming.QuotedItemsSkip | src/fty_metric_composite_configurator_server.cc:178 | text without quotes contributes no items when reading a quoted list |
| ConfiguratorNaming.QuotedItemsRead | src/fty_metric_composite_configurator_server.cc:178 | a quoted topic is read back as that topic |
| ConfiguratorNaming.QuoteFreeRoundTrip | src/fty_metric_composite_configurator_server.cc:166-185 | scanning for quotes reads back the quoted, comma-separated list as exactly the items written, when no item contains `"` |
| ConfiguratorNaming.JoinQuotedRoundTrip | src/fty_metric_composite_configurator_server.cc:166-185 | reading back the quoted, comma-separated list gives exactly the topics written, when every topic is one JSON carries unescaped (no `"`, `\` or control character) |
| ConfiguratorNaming.InTextRoundTrip | src/fty_metric_composite_configurator_server.cc:158-196 | the `"in"` text generated for a sensor list lists exactly the sensors' input topics, in order, when every topic is one JSON carries unescaped |
| ConfiguratorNaming.ResultTopicSplit | src/fty_metric_composite_configurator_server.cc:217-226 | for an asset name without `@`, the composite server splits a generated result topic into type `average.<quantity>[-<function>]` and the asset's name |
| ConfiguratorNaming.AtJoinInjective | src/fty_metric_composite_configurator_server.cc:217-226 | two texts `p@a` and `p'@b` with `@`-free prefixes are equal only when `p == p'` and `a == b`, whatever `a` and `b` hold |
| ConfiguratorNaming.SelftestRack01File | src/fty_metric_composite_configurator_server.cc:1036 | the descriptor of Rack01's input temperature is `Rack01-input-temperature.cfg`, as the selftest expects |
| ConfiguratorNaming.SelftestRack02File | src/fty_metric_composite_configurator_server.cc:1043 | the descriptor of Rack02's output humidity is `Rack02-output-humidity.cfg` |
| ConfiguratorNaming.SelftestRack02Topic | src/fty_metric_composite_configurator_server.cc:1326 | Rack02's input humidity average is published as `average.humidity-input@Rack02` |
| ConfiguratorNaming.SelftestCurieTopic | src/fty_metric_composite_configurator_server.cc:217-226 | a non-rack asset's temperature average has no function qualifier: `average.temperature@Curie.Row02` (the selftest block that expects this name is disabled) |
| ConfiguratorNaming.FindFrom | src/fty_metric_composite_configurator_server.cc:215 | the first occurrence at or after a position, or None when there is none |
| ConfiguratorNaming.FindFirst | src/fty_metric_composite_configurator_server.cc:215 | `std::string::find`: the first occurrence of the placeholder, or None when it does not occur |
| ConfiguratorNaming.ReplaceFromFind | src/fty_metric_composite_configurator_server.cc:215-227 | replacing substitutes exactly the occurrence `find` reports, and nothing when there is none |
| ConfiguratorNaming.ReplaceAfterPlain | src/fty_metric_composite_configurator_server.cc:215-227 | a placeholder preceded by `#`-free text is replaced where it stands |
| ConfiguratorNaming.FillFour | src/fty_metric_composite_configurator_server.cc:215-227 | filling the four placeholders is the four replaces in source order |
| ConfiguratorNaming.TemplatePlain | src/fty_metric_composite_configurator_server.cc:198-212 | the five fixed parts of the template, around its four placeholders, contain no `#` |
| ConfiguratorNaming.FillStep | src/fty_metric_composite_configurator_server.cc:215-227 | one replace step on the template's shape puts the inserted text where the placeholder stood |
| ConfiguratorNaming.FillTemplate | src/fty_metric_composite_configurator_server.cc:198-227 | the four replaces on the template's shape put each text in its placeholder's place |
| ConfiguratorNaming.ContentsLayout | src/fty_metric_composite_configurator_server.cc:198-227 | the generated descriptor is the template with the `"in"` list, the offsets block, the result topic and the unit in the placeholders' places |
| ConfiguratorNaming.CfgNameRoundTrip | src/fty_metric_composite_configurator_server.cc:78-86 | a name with `.cfg` appended matches the teardown pattern, and teardown stops the service of that name |
| ConfiguratorNaming.GeneratedFileTornDown | src/fty_metric_composite_configurator_server.cc:230-244 | every generated descriptor's file name is one teardown recognises, and it maps back to the service that was started for it |
| ConfiguratorServer.TeardownActionsSpec | src/fty_metric_composite_configurator_server.cc:78-93 | teardown removes exactly the `.cfg` files of the listing, stops and disables the service of each, and stops, disables or removes nothing else |
| ConfiguratorServer.RemoveAndStop | src/fty_metric_composite_configurator_server.cc:60-97 | a directory that cannot be opened or listed gives 1 and no actions; otherwise 0 and the teardown of every `.cfg` file in listing order |
| ConfiguratorServer.TeardownStopsGenerated | src/fty_metric_composite_configurator_server.cc:78-89 | a descriptor generated earlier is removed, and its service stopped and disabled, by the next teardown |
| ConfiguratorServer.GeneratedMembers | src/fty_metric_composite_configurator_server.cc:246-298 | a result topic is generated iff the sensor list is non-empty and the descriptor for its quantity was written |
| ConfiguratorServer.QuantityNamesDiffer | src/fty_metric_composite_configurator_server.cc:230-244 | the temperature and humidity descriptors of one asset have different files and services |
| ConfiguratorServer.QuantityStarts | src/fty_metric_composite_configurator_server.cc:246-255 | a service is started iff its descriptor was written, and only that service |
| ConfiguratorServer.StartedIffGenerated | src/fty_metric_composite_configurator_server.cc:246-298 | a quantity's service is started iff its result topic is added to the generated set |
| ConfiguratorServer.StartedAfterWrite | src/fty_metric_composite_configurator_server.cc:246-255 | a started service's descriptor was written, with the filled template, to its `.cfg` path |
| ConfiguratorServer.ResultTopicsDiffer | src/fty_metric_composite_configurator_server.cc:217-226 | the temperature and humidity result topics of one asset differ |
| ConfiguratorServer.InTextSnoc | src/fty_metric_composite_configurator_server.cc:166-185 | one more sensor extends the open `"in"` list as the loop does |
| ConfiguratorServer.OffsetsTextSnoc | src/fty_metric_composite_configurator_server.cc:187-188 | one more sensor appends its offset line |
| ConfiguratorServer.AppendSensor | src/fty_metric_composite_configurator_server.cc:166-188 | one sensor extends a quantity's `"in"` list (with `, ` unless it is the first) and its offsets block exactly as appending it to the sensor list does |
| ConfiguratorServer.BuildInputs | src/fty_metric_composite_configurator_server.cc:158-196 | the loop builds the `"in"` lists and offsets blocks of both quantities for the whole sensor list |
| ConfiguratorServer.WriteDescriptor | src/fty_metric_composite_configurator_server.cc:214-255 | one quantity: fill the template, write it, and enable and start its service iff the write succeeded |
| ConfiguratorServer.GenerateAndStart | src/fty_metric_composite_configurator_server.cc:138-300 | an empty sensor list does nothing; otherwise both quantities in order, adding the result topic of each written descriptor to the generated set |
| ConfiguratorServer.AssetGeneratedSound | src/fty_metric_composite_configurator_server.cc:330-353 | every topic generated for one asset is its result topic, with function input or output for a rack and none otherwise |
| ConfiguratorServer.AvailableSound | src/fty_metric_composite_configurator_server.cc:328-355 | every available metric is a result topic of one of the assets: with function input or output for a rack, none otherwise |
| ConfiguratorServer.AvailableComplete | src/fty_metric_composite_configurator_server.cc:328-355 | everything generated for any asset is available |
| ConfiguratorServer.GenerateForAsset | src/fty_metric_composite_configurator_server.cc:330-353 | a rack gets its input then its output averages, any other asset a plain one; each only when its sensor list exists |
| ConfiguratorServer.PlanSnoc | src/fty_metric_composite_configurator_server.cc:328-355 | processing one more asset appends its actions and adds its generated topics |
| ConfiguratorServer.GenerateAll | src/fty_metric_composite_configurator_server.cc:328-355 | the asset loop yields exactly the available metrics and the actions of every asset, in order |
| ConfiguratorServer.Regenerate | src/fty_metric_composite_configurator_server.cc:302-362 | a failed teardown generates nothing and reports every produced metric unavailable; no asset list after teardown likewise; otherwise the produced set becomes the available set and the unavailable set is the old produced set minus it |
| ConfiguratorServer.ResultTopicAssetUnique | src/fty_metric_composite_configurator_server.cc:217-226 | two result topics with function none, input or output are equal only for the same asset name, whatever characters the names hold |
| ConfiguratorServer.DroppedAssetUnavailable | src/fty_metric_composite_configurator_server.cc:356-358 | a metric (function none, input or output) of an asset no longer in the asset list is reported unavailable, for any asset names |
| ConfiguratorServerScenario.Rack02Topics | src/fty_metric_composite_configurator_server.cc:1326-1329 | the four unavailable topics the selftest expects for Rack02 are its input and output averages |
| ConfiguratorServerScenario.RackTopicsDisjoint | src/fty_metric_composite_configurator_server.cc:217-226 | two racks with different names share no result topic |
| ConfiguratorServerScenario.SelftestUnavailable | src/fty_metric_composite_configurator_server.cc:1299-1329 | with Rack01 holding input and output sensors and Rack02 still an asset but without sensor lists, Rack01 keeps its four metrics and exactly Rack02's four become unavailable |
| MetricConf.Initial | src/c_metric_conf.cc:57-61 | a new record has the given name, an empty directory, propagation on and verbose off |
| MetricConf.SetCfgdirResult | src/c_metric_conf.cc:181-200 | 0 iff the directory exists and is writable, then the directory is the new one; otherwise -1 and the settings unchanged |
| MetricConf.FailedSetKeepsDir | src/c_metric_conf.cc:181-200 | a refused set after a successful one keeps the first directory and returns -1 |
| MetricConf.SetCfgdirKeepsOthers | src/c_metric_conf.cc:181-200 | setting the directory touches neither the name, the propagation flag nor the verbose flag |
| MetricConf.MetricConf.constructor | src/c_metric_conf.cc:47-66 | `c_metric_conf_new`: the settings are `Initial(name)` |
| MetricConf.MetricConf.SetPropagation | src/c_metric_conf.cc:158-163 | the flag becomes the argument and nothing else changes |
| MetricConf.MetricConf.SetCfgdir | src/c_metric_conf.cc:181-200 | the new settings and return code are `SetCfgdirResult` of the old ones |
| MetricConf.Destroy | src/c_metric_conf.cc:71-86 | the handle is cleared, also when it was already cleared |
| MetricConf.Selftest | src/c_metric_conf.cc:224-257 | the test's values: an empty initial directory, 0 and "/tmp" after setting "/tmp", -1 and still "/tmp" after a refused set, a cleared handle after two destroys |

## Left out

- The Lua interpreter is a parameter. The model does not run the script; the averaging script of the tests is written out as a function in `CompositeServerScenario`.
- The message bus (Malamute/ZeroMQ), the poller, shared-memory publication (`fty::shm::write_metric`) and producer/consumer registration are I/O. The model keeps what they change (the phase, subscriptions, outcomes) and leaves out the sending.
- Values are `int` rather than `double`, and the `%.2f` formatting of the published value is left out. `NumberOf` does not convert text to a number the way `lua_tonumber` does.
- CompositeServer.CompositeActor.OnMetric: the clock is read once (`now`), not twice as in the code.
- CompositeServer.CompositeActor.OnMetric: `uint32_t` TTL and `uint64_t` timestamp wrap-around is not modelled. Both are natural numbers.
- A `nil` or non-string first result of the script is not modelled. It is taken as the text of the value.
- Reading and parsing the descriptor file is reduced to a `DescriptorLoad` value: the file cannot be opened, it does not parse, or it gives the inputs and the script.
- CompositeServer.CompositeActor.Configure: a descriptor that fails while it is being read ends the actor with the state as it was. The code may already have stored the script, and expired and subscribed some inputs, before the failure; the actor ends either way.
- ConfiguratorNaming.QuotedItems: the reader of the `"in"` array does not decode JSON escape sequences. It agrees with the JSON reader only on `JsonPlain` topics.
- JoinQuotedRoundTrip (`ConfiguratorNaming.JoinQuotedRoundTrip`): stated only for `JsonPlain` topics (no `"`, `\` or control character). The generator writes topics unescaped, so other topics do not round-trip (see "Behaviour of the code worth knowing").
- InTextRoundTrip (`ConfiguratorNaming.InTextRoundTrip`): stated only for `JsonPlain` input topics, for the same reason as `JoinQuotedRoundTrip`.
- TopicGrammar.FilterRoundTrip: states that the whole `^escaped$` pattern accepts exactly the topic. For a topic holding NUL the code registers only the pattern text before the NUL (`c_str ()`), which the model does not cut.
- CompositeServer.Filters: the patterns are whole strings; the cut of a pattern at its first NUL when handed to the bus is not modelled.
- TopicGrammar.LastIndexOf: searches the whole string; `strrchr` stops at the first NUL.
- TopicGrammar.SplitTopic: splits the whole string; the code sees only the text before the first NUL.
- CompositeServer.Evaluate: takes the whole first result as the topic. The code's `strrchr`, `strdup` and `"%s"` use only the text before its first NUL, so for such a topic the split and the published subject differ.
- CompositeServer.EvaluatePublishes: stated for whole strings; a type, name or unit holding NUL is cut at it in the code.
- Allocation failures (`strdup`, `asprintf`, `fty_proto_new`) are not modelled.
- ConfiguratorNaming.ReplaceFirst: `std::string::replace` at `npos` throws. The model leaves the text unchanged. With the fixed template this cannot happen.
- `s_write_file` is reduced to the `writeOk` oracle on the path, and `s_bits_systemctl` to the actions logged.
- The asset database (`data_t`: asset names, `data_reassign_sensors`, `data_get_assigned_sensors`, produced-metric bookkeeping) is not part of this model. Regeneration receives assets after reassignment as `AssetView`s.
- ConfiguratorServer.GenerateAndStart: the generated set is extended once, after both writes. The source inserts each topic just after its write; no observer sees the difference.
- The configurator actor's main loop, its timer and its command handling (`fty_metric_composite_configurator_server` beyond `s_regenerate`) are not modelled.
- The settings record's bus client and asset data (`c_metric_conf_client`, `c_metric_conf_data`, `c_metric_conf_get_data`, `c_metric_conf_set_data`) are handles to the bus and the asset database, which are not part of this model. The getters of the name, the directory and the propagation flag are the class's fields.
- CompositeServer.CompositeActor.Run: the bus queue is a fixed `inbox` given up front, and the wake-ups are given as a sequence. Which of the pipe and the bus the poller reports first when both are ready is decided by that sequence, not by `zpoller_wait`. An interrupted `zpoller_wait` (`zsys_interrupted`) is not modelled.
