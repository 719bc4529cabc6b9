# serverless-plugin-canary-deployments, modelled in Dafny

This project models the part of `serverless-plugin-canary-deployments` that rewrites
the compiled CloudFormation template. It runs after the Serverless framework has
packaged the service. The pass applies to every function that declares
`deploymentSettings`, provided the current stage is enabled. For each such function it:

- adds a CodeDeploy deployment group;
- adds a Lambda alias that shifts traffic through that group;
- copies the function's Lambda permissions and its event resources, rewritten so
  that they invoke the alias instead of the function (for example, an API Gateway
  method, an S3 bucket notification, a log subscription filter or an IoT topic rule).

It also adds one CodeDeploy application, the CodeDeploy service role and the
extended execution role. It merges all of these into `Resources` with
`Object.assign`: a generated resource overwrites one of the same logical id, and
every other resource is kept.

The model is organised as follows:

- `wrappers.dfy` (`Wrappers`): `Option`.
- `json.dfy` (`Json`): JSON values, lodash `get` and lodash/fp `set` over a path of
  keys and indices, and the leaf values that the `flat` library spreads an object into.
  It proves that `set` writes its path and changes nothing apart from it, and that a
  second `set` on the same path wins.
- `template.dfy` (`Template`): the template's `Resources` as an ordered list of
  (logical id, resource) entries. It defines:
  - `Object.assign` of one and of many sources;
  - `pickBy` and `findKey`;
  - the frame, lookup and id lemmas about them.
- `api_gateway.dfy`, `s3.dfy`, `cloud_watch_logs.dfy`, `iot.dfy`: the four rewriters
  that point one resource at an alias.
- `code_deploy.dfy` (`CodeDeploy`): the CodeDeploy application and deployment-group
  builders, as their tests pin them down.
- `plugin_settings.dfy` (`PluginSettings`): which functions ask for gradual
  deployment, the stage gate, and the merge of global and per-function settings.
- `plugin_naming.dfy` (`PluginNaming`): the ids and names of the generated
  resources, including how a template literal prints the `alias` setting.
- `plugin_locators.dfy` (`PluginLocators`): the eleven per-type locators, the
  `Type`-keyed dispatch table, and the permission and version lookups.
- `plugin.dfy` (`Plugin`): one function's resources, the shared resources, the
  trigger flag, and the class `CanaryDeployments`. Its method
  `AddCanaryDeploymentResources` updates the template's resources in place.

## Model

| member | source | states |
|---|---|---|
| Json.GetSetSame | lib/CfTemplateGenerators/ApiGateway.js:29 | after `fp.set(path, v, j)` on a path that can be written, `get(path)` is `v` |
| Json.GetSetOther | lib/CfTemplateGenerators/ApiGateway.js:35 | `fp.set` leaves every path that is neither a prefix nor an extension of the written path as it was |
| Json.SetOnlyChanges | lib/CfTemplateGenerators/ApiGateway.js:41 | `fp.set` writes its value and only the written path (and its ancestors) differ afterwards |
| Json.SetSetSame | lib/CfTemplateGenerators/Iot.js:4-8 | two `fp.set`s on one path equal the second alone |
| Json.GetSetBelow | lib/CfTemplateGenerators/S3.js:10 | a write below an existing node is the same as a write into that node |
| Json.CanSetBelow | lib/CfTemplateGenerators/S3.js:10 | a path that can be written below an existing node can be written from the root |
| Json.GetAppend | lib/CfTemplateGenerators/S3.js:4 | `get` of a concatenated path is `get` of the tail from the node the head reaches, or absent |
| Json.Put | lib/CfTemplateGenerators/S3.js:10 | writing index `i` of an array stores the value there, keeps every other element and pads the length to `i + 1` |
| Json.LeavesReachable | serverless-plugin-canary-deployments.js:259-263 | every value `flattenObject` produces is a leaf found at some path of the object |
| Json.ReachableLeaves | serverless-plugin-canary-deployments.js:259-263 | every leaf found at some path is among the flattened values, and among the nested ones when the path is not empty |
| Json.LeavesNonEmpty | serverless-plugin-canary-deployments.js:259-263 | a nested value always contributes at least one flattened value |
| Template.LookupIds | serverless-plugin-canary-deployments.js:95 | reading `Resources[id]` finds a value exactly when `id` is a logical id of the template, and that entry is in it |
| Template.LookupUnique | serverless-plugin-canary-deployments.js:95 | with distinct logical ids, reading an entry's id yields that entry's resource |
| Template.UniqueCons | serverless-plugin-canary-deployments.js:59-65 | ids stay distinct after adding an entry exactly when the new id is fresh and the rest were distinct |
| Template.SetKeyLookup | serverless-plugin-canary-deployments.js:59-65 | after writing one key, reading that key yields the new value and every other key reads as before |
| Template.SetKeyPlaces | serverless-plugin-canary-deployments.js:59-65 | writing a key keeps every existing key in its place and every other entry equal; a new key is appended last |
| Template.SetKeyIds | serverless-plugin-canary-deployments.js:59-65 | writing a key adds exactly that id, keeps ids distinct and introduces no other entry |
| Template.AssignIds | serverless-plugin-canary-deployments.js:59-65 | `Object.assign(target, source)` has the union of both key sets, keeps keys distinct, and holds only entries of either |
| Template.AssignLookup | serverless-plugin-canary-deployments.js:59-65 | after `Object.assign`, a key of the source reads the source's last value for it; every other key reads the target's |
| Template.AssignKeepsPlaces | serverless-plugin-canary-deployments.js:59-65 | `Object.assign` keeps every target key in place and leaves target entries the source does not name untouched |
| Template.IdsAllCons | serverless-plugin-canary-deployments.js:119-122 | the keys of a list of objects are those of its head plus those of its tail |
| Template.IdsAllAppend | serverless-plugin-canary-deployments.js:119-122 | the keys of a concatenation of object lists are the union of both lists' keys |
| Template.AssignAllIds | serverless-plugin-canary-deployments.js:59-65 | assigning many sources yields the union of all keys, keeps keys distinct, and every entry comes from the target or some source |
| Template.AssignAllKeepsPlaces | serverless-plugin-canary-deployments.js:59-65 | assigning many sources keeps target keys in place and leaves untouched every target entry no source names |
| Template.AssignAllLookup | serverless-plugin-canary-deployments.js:59-65 | after assigning many sources, a key reads the last source that names it, or the target when none does |
| Template.PickBy | serverless-plugin-canary-deployments.js:265-266 | `pickBy` keeps exactly the entries whose resource satisfies the predicate, as a sub-map with distinct keys |
| Template.FindKey | serverless-plugin-canary-deployments.js:413 | `findKey` returns the key of the first entry satisfying the predicate, and nothing exactly when none does |
| Template.AssignAllKeepsDrawn | serverless-plugin-canary-deployments.js:241-254 | merging sub-maps of a template with distinct keys keeps every entry of every sub-map |
| ApiGateway.BuildUriForAlias | lib/CfTemplateGenerators/ApiGateway.js:3-12 | the REST invocation URI is an `Fn::Join` of five parts with `{ Ref: alias }` at index 3 |
| ApiGateway.BuildV2UriForAlias | lib/CfTemplateGenerators/ApiGateway.js:14-25 | the HTTP-API invocation URI is an `Fn::Join` of seven parts with the partition at index 1 and `{ Ref: alias }` at index 5 |
| ApiGateway.UriNamesAlias | lib/CfTemplateGenerators/ApiGateway.js:3-25 | the alias can be read back from either URI, so different aliases give different URIs |
| ApiGateway.ReplaceMethodUriWithAlias | lib/CfTemplateGenerators/ApiGateway.js:33-37 | `Properties.Integration.Uri` becomes the REST URI; nothing else changes, other `Integration` fields included |
| ApiGateway.ReplaceV2IntegrationUriWithAlias | lib/CfTemplateGenerators/ApiGateway.js:27-31 | `Properties.IntegrationUri` becomes the HTTP-API URI; nothing else changes |
| ApiGateway.ReplaceV2AuthorizerUriWithAlias | lib/CfTemplateGenerators/ApiGateway.js:39-43 | `Properties.AuthorizerUri` becomes the HTTP-API URI; nothing else changes |
| ApiGateway.RewritesKeepTypeAndDependsOn | lib/CfTemplateGenerators/ApiGateway.js:27-43 | all three rewrites keep `Type` and `DependsOn` |
| ApiGateway.RewritesIdempotent | lib/CfTemplateGenerators/ApiGateway.js:27-43 | rewriting twice with one alias equals rewriting once, for all three rewrites |
| ApiGateway.RewriteForgetsOldTarget | lib/CfTemplateGenerators/ApiGateway.js:33-37 | two methods that differ only in their old URI are rewritten to the same resource: the result depends on the method and the alias, not on the function it invoked |
| S3.FindIndex | lib/CfTemplateGenerators/S3.js:5-9 | the index found is the first configuration whose `Function.Fn::GetAtt[0]` names the function; none exactly when no configuration does |
| S3.ReplaceS3BucketFunctionWithAlias | lib/CfTemplateGenerators/S3.js:3-11 | absent exactly when no configuration names the function; otherwise that configuration's `Function` becomes `{ Ref: alias }`, its other fields, the other configurations, their order and count, and the rest of the bucket are unchanged |
| S3.RewriteShape | lib/CfTemplateGenerators/S3.js:10 | writing `Function` of configuration `i` keeps the length and every other configuration and changes only that field |
| S3.RewriteConsumesFirstTarget | lib/CfTemplateGenerators/S3.js:4-10 | after the rewrite the replaced configuration no longer names the function, and a further match can only be a later, untouched configuration |
| CloudWatchLogs.ReplaceCloudWatchLogsDestinationArnWithAlias | lib/CfTemplateGenerators/CloudWatchLogs.js:3-11 | when `DestinationArn.Fn::GetAtt[0]` is the function, `DestinationArn` becomes `{ Ref: alias }` and nothing else changes; otherwise the filter is returned unchanged; `Properties` must be present |
| CloudWatchLogs.RewriteFrame | lib/CfTemplateGenerators/CloudWatchLogs.js:8 | a filter whose target details exist can be written at `DestinationArn`, and the write changes only that path |
| CloudWatchLogs.RewriteIdempotent | lib/CfTemplateGenerators/CloudWatchLogs.js:5-10 | rewriting the rewritten filter again returns it unchanged |
| CloudWatchLogs.ExampleRewrite | lib/CfTemplateGenerators/CloudWatchLogs.test.js:6-35 | the library's example filter is rewritten to its expected value, keeping `LogGroupName`, `FilterPattern`, `Type` and `DependsOn` |
| Iot.ReplaceIotTopicRuleActionArnWithAlias | lib/CfTemplateGenerators/Iot.js:3-10 | with no check on the function, `Actions[0].Lambda.FunctionArn` becomes `{ Ref: alias }`; every other path, the other actions included, is unchanged |
| Iot.RewriteIdempotent | lib/CfTemplateGenerators/Iot.js:4-8 | rewriting twice with one alias equals rewriting once |
| Iot.ExampleRewrite | lib/CfTemplateGenerators/Iot.test.js:6-40 | the library's example rule is rewritten to its expected value, keeping `Sql` and `RuleDisabled` |
| CodeDeploy.BuildApplication | lib/CfTemplateGenerators/CodeDeploy.test.js:8-17 | the application is exactly `Type: AWS::CodeDeploy::Application` with `ComputePlatform: Lambda` |
| CodeDeploy.AlarmEntries | lib/CfTemplateGenerators/CodeDeploy.test.js:57-63 | one alarm entry per configured alarm, in order |
| CodeDeploy.BaseProperties | lib/CfTemplateGenerators/CodeDeploy.test.js:22-54 | the skeleton has exactly the six fixed property names |
| CodeDeploy.GroupProperties | lib/CfTemplateGenerators/CodeDeploy.test.js:56-133 | application, group name, rollback, role, config name and style as given; `AlarmConfiguration` exactly when alarms exist; `TriggerConfigurations` copied exactly when the setting is truthy |
| CodeDeploy.BuildFnDeploymentGroup | lib/CfTemplateGenerators/CodeDeploy.test.js:19-133 | the deployment group has `Type` and `Properties` only, with every property as the tests expect, including absent alarms and triggers |
| CodeDeploy.AlarmConfigurationShape | lib/CfTemplateGenerators/CodeDeploy.test.js:61-64 | a non-empty alarm list gives `Enabled: true` and one entry per alarm, in order |
| CodeDeploy.BuildMatchesExpected | lib/CfTemplateGenerators/CodeDeploy.test.js:65-70 | the builder equals the skeleton followed by the tests' chain of `fp.set`s |
| CodeDeploy.AlarmsExample | lib/CfTemplateGenerators/CodeDeploy.test.js:56-73 | alarms `Alarm1` and `{ name: Alarm2 }` become `{ Name: { Ref: Alarm1 } }` and `{ Name: Alarm2 }` with `Enabled: true` |
| PluginSettings.WithDeploymentPreferencesFns | serverless-plugin-canary-deployments.js:33-36 | the names listed are exactly those of the functions that have a `deploymentSettings` key, and there are no more of them than functions |
| PluginSettings.WithDeploymentPreferencesFnsInOrder | serverless-plugin-canary-deployments.js:33-36 | the result names, in declaration order and once each, exactly the functions that have a `deploymentSettings` key: an increasing sequence of their positions maps onto it |
| PluginSettings.GateExactly | serverless-plugin-canary-deployments.js:83-90 | the pass runs exactly when some function has `deploymentSettings` and the `stages` setting is absent, empty or includes the current stage |
| PluginSettings.StageListExcludes | serverless-plugin-canary-deployments.js:87-90 | a non-empty stage list that does not name the current stage turns the pass off |
| PluginSettings.DeploymentSettingsFor | serverless-plugin-canary-deployments.js:437-440 | the effective settings have the keys of both; a function's own key wins, and a global key it does not override survives |
| PluginSettings.SettingOf | serverless-plugin-canary-deployments.js:437-440 | reading one effective setting yields the function's own value, else the global value, else nothing |
| PluginNaming.DeploymentGroupId | serverless-plugin-canary-deployments.js:185-187 | the group id is the function's logical id followed by `DeploymentGroup` |
| PluginNaming.DeploymentGroupIdInjective | serverless-plugin-canary-deployments.js:185-187 | different functions get different deployment group ids |
| PluginNaming.DeploymentGroupName | serverless-plugin-canary-deployments.js:189-191 | the name is a prefix of `stack-id` of at most 100 characters, the whole of it when it fits and exactly 100 characters otherwise |
| PluginNaming.DeploymentGroupNameStartsWithStack | serverless-plugin-canary-deployments.js:189-191 | a stack name shorter than the limit survives the cut, followed by `-` |
| PluginNaming.HookFunctionName | serverless-plugin-canary-deployments.js:193-195 | a hook names a function's logical id exactly when it is a non-empty string |
| PluginNaming.NatText | serverless-plugin-canary-deployments.js:167 | a number prints as a non-empty string of decimal digits |
| PluginNaming.NatTextRoundTrip | serverless-plugin-canary-deployments.js:167 | the printed digits read back as the number |
| PluginNaming.AliasIdInjective | serverless-plugin-canary-deployments.js:167 | for one alias setting, different functions get different alias ids |
| PluginNaming.StringAliasId | serverless-plugin-canary-deployments.js:167 | a string alias gives `functionName + "Alias" + alias` |
| PluginLocators.OrderIndex | serverless-plugin-canary-deployments.js:241-254 | every event kind has a place in the merge order of `getEventsFor` |
| PluginLocators.Locate | serverless-plugin-canary-deployments.js:257-406 | a locator keeps exactly the template entries of its `Type` that invoke the function, unchanged, as a sub-map |
| PluginLocators.EventsAreLocated | serverless-plugin-canary-deployments.js:229-255 | every event found is an unchanged entry of the template located by some locator, with distinct ids |
| PluginLocators.LocatedAreEvents | serverless-plugin-canary-deployments.js:229-255 | in a template with distinct ids, every entry some locator finds is among the events |
| PluginLocators.StrategyForTypeName | serverless-plugin-canary-deployments.js:207-219 | the dispatch table maps the `Type` of every locator to that locator's rewrite |
| PluginLocators.StrategyForEarlyTypeName | serverless-plugin-canary-deployments.js:207-213 | the first six table rows map their `Type` to their own rewrite |
| PluginLocators.StrategyForLateTypeName | serverless-plugin-canary-deployments.js:214-218 | the last five table rows map their `Type` to their own rewrite |
| PluginLocators.DispatchTotal | serverless-plugin-canary-deployments.js:220-223 | every event found has a string `Type` that the dispatch table maps to a rewrite whose locator found it, so the lookup never misses |
| PluginLocators.LambdaPermissionsFor | serverless-plugin-canary-deployments.js:418-431 | exactly the `AWS::Lambda::Permission` entries of the function, unchanged, as a sub-map |
| PluginLocators.PermissionGetAttDecides | serverless-plugin-canary-deployments.js:420-421 | when `FunctionName.Fn::GetAtt[0]` is present it alone decides the match |
| PluginLocators.PermissionRefDecides | serverless-plugin-canary-deployments.js:422 | otherwise `FunctionName.Ref` decides it |
| PluginLocators.PermissionNeitherNotSelected | serverless-plugin-canary-deployments.js:420-423 | with neither present the permission is not selected |
| PluginLocators.VersionNameForFinds | serverless-plugin-canary-deployments.js:408-416 | a version found is the key of an `AWS::Lambda::Version` of the function; none is found exactly when no such version exists |
| Plugin.LocatedFilterCanRead | serverless-plugin-canary-deployments.js:353-365 | a subscription filter the locator finds has the `Properties` its rewrite reads unguarded |
| Plugin.EventsDispatchable | serverless-plugin-canary-deployments.js:220-223 | every event found can be rewritten by the strategy its `Type` selects |
| Plugin.BuildEventsForAlias | serverless-plugin-canary-deployments.js:206-227 | one single-key object per event found, in order, under the event's own logical id |
| Plugin.BuildPermissionsForAlias | serverless-plugin-canary-deployments.js:197-204 | one single-key object per permission found, in order, under the permission's own logical id |
| Plugin.SinglesIds | serverless-plugin-canary-deployments.js:199-203 | single-key objects made one per entry have exactly the entries' keys |
| Plugin.RewritesKeepLogicalIds | serverless-plugin-canary-deployments.js:197-227 | the rewritten permissions and events have exactly the logical ids of the ones found |
| Plugin.FunctionResourcesIds | serverless-plugin-canary-deployments.js:125-136 | one function's resources have exactly the group id, the alias id and the ids of its permissions and events |
| Plugin.BuiltIds | serverless-plugin-canary-deployments.js:135 | the keys of `[group, alias, ...permissions, ...events]` are the two ids plus the permissions' and events' keys |
| Plugin.CodeDeployRoleResource | serverless-plugin-canary-deployments.js:144-149 | no service role when the global `codeDeployRole` is set; otherwise exactly `CodeDeployServiceRole` built with the permissions boundary and the trigger flag |
| Plugin.HookGroupNames | serverless-plugin-canary-deployments.js:99-111 | the names listed are exactly the group names of the functions with a pre- or post-traffic hook, and there are no more of them than functions |
| Plugin.HookGroupNamesInOrder | serverless-plugin-canary-deployments.js:99-111 | the group names follow the functions' order, one for each function with a hook and none for the others |
| Plugin.ExecutionRoleResource | serverless-plugin-canary-deployments.js:92-116 | nothing when the template has no execution role; otherwise that role, extended with the application and the hook groups, under its own id |
| Plugin.HookGroupIsFunctionGroup | serverless-plugin-canary-deployments.js:103-111 | a hooked function's group name is granted by the execution role and is the name its deployment group carries |
| Plugin.GroupSetsTriggers | serverless-plugin-canary-deployments.js:151-162 | a function's deployment group carries `TriggerConfigurations` exactly when its settings have truthy `triggerConfigurations` |
| Plugin.TriggersInSettingsSetFlag | serverless-plugin-canary-deployments.js:69-81 | one function with trigger configurations makes the flag true for all the functions' resources |
| Plugin.MergeFrame | serverless-plugin-canary-deployments.js:59-65 | the merge adds exactly the patches' ids, keeps ids distinct, reads each patched id from the last patch naming it, and leaves every other resource in place and untouched |
| Plugin.AssignedAllNames | serverless-plugin-canary-deployments.js:59-65 | some patch supplies a value for an id exactly when some patch names it |
| Plugin.AssignedNames | serverless-plugin-canary-deployments.js:59-65 | one object supplies a value for an id exactly when it names it |
| Plugin.CanaryDeployments.constructor | serverless-plugin-canary-deployments.js:11-16 | the pass starts from the template's resources, the service and the provider's naming |
| Plugin.CanaryDeployments.AreTriggerConfigurationsSet | serverless-plugin-canary-deployments.js:69-81 | true exactly when some generated `AWS::CodeDeploy::DeploymentGroup` entry has truthy `Properties.TriggerConfigurations` |
| Plugin.CanaryDeployments.AddCanaryDeploymentResources | serverless-plugin-canary-deployments.js:53-67 | with the gate closed the resources are unchanged; otherwise they become the old resources assigned the application, the service role, the execution role and every function's resources, in that order |

## Left out

- The constructor's hook registration and the registration of the configuration schemas (serverless-plugin-canary-deployments.js:6-21, 46-51) belong to the Serverless framework and are not modelled.
- The provider's naming service (stack name, its alphanumeric form, a function's logical id, the role's logical id) and the current stage are inputs (`Naming`, `Service.stage`), not computations.
- `Iam.js`, `Lambda.js`, `Sns.js`, `CloudWatchEvents.js` and `AppSyncDataSources.js` are not part of this model. `buildAlias`, `buildExecutionRoleWithCodeDeploy`, `buildCodeDeployRole` and the permission, event-mapping, SNS, CloudWatch Events and AppSync rewrites are arbitrary functions of the right shapes (`Plugin.Generators`), so nothing is claimed about their output beyond where it lands.
- `CodeDeploy.js` is not part of this model. The builders are defined from the expected values of `CodeDeploy.test.js`.
- Numbers are integers: the template's floating-point numbers are not modelled, and a template literal prints an integer.
- Lodash `get` does not index into a string: a path through a string finds nothing. Strings are sequences of characters, not of UTF-16 code units, so the 100-character cut of a group name counts characters.
- `flat` writes nested values under dotted keys. A nested key that collides with a dotted key of the same object is not modelled, because only the set of leaf values is read.
- The module imports `lodash` but calls it in the lodash/fp argument order, and uses the generator namespaces in lower case. Both are modelled as the authors meant them: data-last, non-mutating `set`, and the generators that `index.js` exports.
- `Json.Set`: when the path's kind does not fit the value (a key into an array, an index into an object, or a scalar root), the value is returned unchanged.
- `ApiGateway.ReplaceMethodUriWithAlias`, `ApiGateway.ReplaceV2IntegrationUriWithAlias`, `ApiGateway.ReplaceV2AuthorizerUriWithAlias` and `Iot.ReplaceIotTopicRuleActionArnWithAlias` state their effect only when the target path can be written (`CanSet`). They say nothing about a resource that is not an object, an array at `Properties`, `Integration` or `TopicRulePayload`, or an object at `Actions`.
- `Json.Set`: a `null` or other scalar on the path is replaced by a fresh object or array, as a mutating lodash `set` does. lodash/fp's copying `set` boxes a non-null scalar instead, so its JSON output keeps the scalar; the model does not capture that case.
- `S3.ReplaceS3BucketFunctionWithAlias` returns nothing when no configuration names the function. Lodash would write at index `-1`, which changes no element of the array, so `Plugin.Dispatch` keeps the bucket unchanged. It does not model the `"-1"` property that lodash adds to the array object.
- `Plugin.BuildEventsForAlias` and `Plugin.BuildPermissionsForAlias` state the logical ids and count of what they build, not the rewritten resources. The rewritten resources are given by `Plugin.Dispatch` and by the rewriters' own contracts.
- The bucket locator accepts the function's name anywhere in a `Function.Fn::GetAtt` list, while the S3 rewrite compares only element 0. The model keeps both as written.
- `Plugin.CanaryDeployments.AreTriggerConfigurationsSet` does not model the exception thrown when a deployment group has no `Properties`. The groups the pass builds always have it.
- `Plugin.CanaryDeployments.AddCanaryDeploymentResources` requires that every API Gateway method, HTTP-API integration or authorizer and event source mapping of the template has the property its locator flattens, and that it is not `null` (`PluginLocators.Locatable`). The source throws otherwise; that path is not modelled.
- `PluginSettings.DeploymentSettingsFor` merges only object settings. `Object.assign` of a string or array `deploymentSettings` would copy indices as keys, which is not modelled.
- A `null` global `custom.deploymentSettings` is read as no global settings. The source would throw at `this.globalSettings.codeDeployRole`.
- A pre- or post-traffic hook that is truthy but not a string is read as no hook by `PluginNaming.HookFunctionName`.
- The order in which `findKey` visits keys is the template's entry order. Only existence and correctness of the key found are claimed.
- Hook deployment groups are listed once per hooked function, with no removal of duplicates, as the code does.
