/**
  The pass itself: for every function that asks for gradual deployment it
  builds a CodeDeploy deployment group, an alias, the function's permissions
  and events rewritten to the alias, and the shared application and roles,
  and merges all of them into the template's resources with `Object.assign`.
 */
module Plugin {
  import opened Wrappers
  import opened Json
  import opened Template
  import opened PluginSettings
  import opened PluginNaming
  import opened PluginLocators
  import CodeDeploy
  import ApiGateway
  import S3
  import CloudWatchLogs
  import Iot

  /** What an alias is told about its CodeDeploy deployment. */
  datatype TrafficShiftingSettings = TrafficShiftingSettings(
    codeDeployApp: string,
    deploymentGroup: string,
    afterHook: Option<string>,
    beforeHook: Option<string>)

  /**
    The generators of the IAM, Lambda, SNS, CloudWatch Events and AppSync
    modules, which this model does not describe: any functions of these
    shapes.
   */
  datatype Generators = Generators(
    buildAlias: (Option<Json>, string, Option<string>, TrafficShiftingSettings) -> Json,
    buildExecutionRoleWithCodeDeploy: (Json, string, seq<string>) -> Json,
    buildCodeDeployRole: (Option<Json>, bool) -> Json,
    replacePermissionFunctionWithAlias: (Json, string) -> Json,
    replaceEventMappingFunctionWithAlias: (Json, string, string) -> Json,
    replaceTopicSubscriptionFunctionWithAlias: (Json, string, string) -> Json,
    replaceSubscriptionFunctionWithAlias: (Json, string, string) -> Json,
    replaceCloudWatchEventRuleTargetWithAlias: (Json, string, string) -> Json,
    replaceAppSyncDataSourceWithAlias: (Json, string, string) -> Json)

  // ------------------------------------------------------- one function's resources

  /** `settings.<key>` of a settings object. */
  function Setting(settings: Json, key: string): Option<Json> {
    Get(settings, [Key(key)])
  }

  /** A located event of the template, which the dispatch table can rewrite. */
  predicate Dispatchable(event: Json, fnId: string) {
    && Get(event, [Key("Type")]).Some?
    && Get(event, [Key("Type")]).value.JStr?
    && StrategyFor(Get(event, [Key("Type")]).value.s).Some?
    && Located(StrategyFor(Get(event, [Key("Type")]).value.s).value, event, fnId)
  }

  /** A located subscription filter can be read by its rewrite without throwing. */
  lemma LocatedFilterCanRead(filter: Json, fnId: string)
    requires Located(LogsSubscriptionFilter, filter, fnId)
    ensures CloudWatchLogs.CanRead(filter)
  {
    GetAppend(filter, [Key("Properties")], [Key("DestinationArn"), Key("Fn::GetAtt")]);
    assert [Key("Properties")] + [Key("DestinationArn"), Key("Fn::GetAtt")] == LogsTargetPath;
  }

  /**
    `replaceAliasStrategy[type](event, functionAlias, functionName)`.  An S3
    bucket with no notification whose first `Fn::GetAtt` element names the
    function is written at index -1, which leaves its JSON unchanged.
   */
  function Dispatch(gen: Generators, kind: EventKind, event: Json, alias: string, fnId: string): Json
    requires kind.LogsSubscriptionFilter? ==> CloudWatchLogs.CanRead(event)
  {
    match kind
    case EventSourceMapping => gen.replaceEventMappingFunctionWithAlias(event, alias, fnId)
    case ApiGatewayMethod => ApiGateway.ReplaceMethodUriWithAlias(event, alias)
    case ApiGatewayV2Integration => ApiGateway.ReplaceV2IntegrationUriWithAlias(event, alias)
    case ApiGatewayV2Authorizer => ApiGateway.ReplaceV2AuthorizerUriWithAlias(event, alias)
    case SnsTopic => gen.replaceTopicSubscriptionFunctionWithAlias(event, alias, fnId)
    case SnsSubscription => gen.replaceSubscriptionFunctionWithAlias(event, alias, fnId)
    case S3Bucket => S3.ReplaceS3BucketFunctionWithAlias(event, alias, fnId).GetOr(event)
    case EventsRule => gen.replaceCloudWatchEventRuleTargetWithAlias(event, alias, fnId)
    case LogsSubscriptionFilter => CloudWatchLogs.ReplaceCloudWatchLogsDestinationArnWithAlias(event, alias, fnId)
    case IotTopicRule => Iot.ReplaceIotTopicRuleActionArnWithAlias(event, alias)
    case AppSyncDataSource => gen.replaceAppSyncDataSourceWithAlias(event, alias, fnId)
  }

  /** One event rewritten by the strategy its `Type` selects. */
  function EventWithAlias(gen: Generators, event: Json, alias: string, fnId: string): Json
    requires Dispatchable(event, fnId)
  {
    var kind := StrategyFor(Get(event, [Key("Type")]).value.s).value;
    if kind.LogsSubscriptionFilter? then
      LocatedFilterCanRead(event, fnId);
      Dispatch(gen, kind, event, alias, fnId)
    else Dispatch(gen, kind, event, alias, fnId)
  }

  /** Every event `getEventsFor` returns selects a strategy of its own kind. */
  lemma EventsDispatchable(rs: Resources, fnId: string)
    requires Locatable(rs)
    ensures forall e :: e in GetEventsFor(rs, fnId) ==> Dispatchable(e.resource, fnId)
  {
    forall e | e in GetEventsFor(rs, fnId) ensures Dispatchable(e.resource, fnId) {
      DispatchTotal(rs, fnId, e);
    }
  }

  /**
    `buildEventsForAlias`: one single-key object per event of the function,
    under the event's own logical id, holding the rewritten event.
   */
  function BuildEventsForAlias(gen: Generators, rs: Resources, fnId: string, alias: string): (r: seq<Resources>)
    requires Locatable(rs)
    ensures |r| == |GetEventsFor(rs, fnId)|
    ensures forall i :: 0 <= i < |r| ==> |r[i]| == 1 && r[i][0].id == GetEventsFor(rs, fnId)[i].id
  {
    var events := GetEventsFor(rs, fnId);
    EventsDispatchable(rs, fnId);
    seq(|events|, i requires 0 <= i < |events| => Single(events[i].id, EventWithAlias(gen, events[i].resource, alias, fnId)))
  }

  /** `buildPermissionsForAlias`: each permission of the function, rewritten, under its own logical id. */
  function BuildPermissionsForAlias(gen: Generators, rs: Resources, fnId: string, alias: string): (r: seq<Resources>)
    ensures |r| == |LambdaPermissionsFor(rs, fnId)|
    ensures forall i :: 0 <= i < |r| ==> |r[i]| == 1 && r[i][0].id == LambdaPermissionsFor(rs, fnId)[i].id
  {
    var permissions := LambdaPermissionsFor(rs, fnId);
    var r := seq(|permissions|, i requires 0 <= i < |permissions| =>
      Single(permissions[i].id, gen.replacePermissionFunctionWithAlias(permissions[i].resource, alias)));
    assert forall i :: 0 <= i < |r| ==> r[i] == Single(permissions[i].id, gen.replacePermissionFunctionWithAlias(permissions[i].resource, alias));
    r
  }

  /** The objects built from a list of one-entry objects carry exactly the logical ids of the list. */
  lemma {:induction false} SinglesIds(objects: seq<Resources>, source: Resources)
    requires |objects| == |source|
    requires forall i :: 0 <= i < |objects| ==> |objects[i]| == 1 && objects[i][0].id == source[i].id
    ensures IdsAll(objects) == Ids(source)
  {
    forall k | k in IdsAll(objects) ensures k in Ids(source) {
      var i, m :| 0 <= i < |objects| && 0 <= m < |objects[i]| && objects[i][m].id == k;
    }
    forall k | k in Ids(source) ensures k in IdsAll(objects) {
      var i :| 0 <= i < |source| && source[i].id == k;
      assert objects[i][0].id == k;
      assert k in Ids(objects[i]);
    }
  }

  /** Rewritten events and permissions keep the logical ids they have in the template. */
  lemma RewritesKeepLogicalIds(gen: Generators, rs: Resources, fnId: string, alias: string)
    requires Locatable(rs)
    ensures IdsAll(BuildEventsForAlias(gen, rs, fnId, alias)) == Ids(GetEventsFor(rs, fnId))
    ensures IdsAll(BuildPermissionsForAlias(gen, rs, fnId, alias)) == Ids(LambdaPermissionsFor(rs, fnId))
  {
    SinglesIds(BuildEventsForAlias(gen, rs, fnId, alias), GetEventsFor(rs, fnId));
    SinglesIds(BuildPermissionsForAlias(gen, rs, fnId, alias), LambdaPermissionsFor(rs, fnId));
  }

  /** `buildFunctionDeploymentGroup`: `{ <fn>DeploymentGroup: group }`. */
  function DeploymentGroupResource(naming: Naming, fnId: string, settings: Json): Resources {
    var groupId := DeploymentGroupId(fnId);
    Single(groupId, CodeDeploy.BuildFnDeploymentGroup(
      CodeDeployAppName(naming), DeploymentGroupName(naming.stackName, groupId),
      Setting(settings, "codeDeployRole"), settings))
  }

  /** `buildFunctionAlias`: `{ <fn>Alias<alias>: alias }`, shifting traffic through the function's group. */
  function AliasResource(gen: Generators, naming: Naming, rs: Resources, fnId: string, settings: Json): Resources {
    var traffic := TrafficShiftingSettings(
      CodeDeployAppName(naming),
      DeploymentGroupId(fnId),
      HookFunctionName(naming, Setting(settings, "postTrafficHook")),
      HookFunctionName(naming, Setting(settings, "preTrafficHook")));
    Single(AliasId(fnId, Setting(settings, "alias")),
      gen.buildAlias(Setting(settings, "alias"), fnId, VersionNameFor(rs, fnId), traffic))
  }

  /**
    `buildFunctionResources(name)`: the deployment group, the alias, the
    rewritten permissions and the rewritten events of one function.
   */
  function BuildFunctionResources(service: Service, naming: Naming, gen: Generators, rs: Resources, name: string): seq<Resources>
    requires Locatable(rs)
  {
    var fnId := naming.lambdaLogicalId(name);
    var settings := DeploymentSettingsFor(service, name);
    var aliasId := AliasId(fnId, Setting(settings, "alias"));
    [DeploymentGroupResource(naming, fnId, settings), AliasResource(gen, naming, rs, fnId, settings)]
      + BuildPermissionsForAlias(gen, rs, fnId, aliasId)
      + BuildEventsForAlias(gen, rs, fnId, aliasId)
  }

  /** `buildFunctionsResources`: `fp.flatMap` of `buildFunctionResources` over the gated functions. */
  function BuildFunctionsResources(service: Service, naming: Naming, gen: Generators, rs: Resources, names: seq<string>): seq<Resources>
    requires Locatable(rs)
  {
    if names == [] then []
    else
      BuildFunctionResources(service, naming, gen, rs, names[0])
        + BuildFunctionsResources(service, naming, gen, rs, names[1..])
  }

  // ------------------------------------------------------- the shared resources

  /** `buildCodeDeployApp`. */
  function CodeDeployAppResource(naming: Naming): Resources {
    Single(CodeDeployAppName(naming), CodeDeploy.BuildApplication())
  }

  /** `buildCodeDeployRole(flag)`: nothing when the global settings name a role. */
  function CodeDeployRoleResource(service: Service, gen: Generators, triggers: bool): (r: Resources)
    ensures var global := GlobalSettings(service.custom);
      && (Truthy(Setting(global, "codeDeployRole")) <==> r == [])
      && (r != [] ==> r == Single("CodeDeployServiceRole",
            gen.buildCodeDeployRole(Setting(global, "codeDeployRolePermissionsBoundary"), triggers)))
  {
    var global := GlobalSettings(service.custom);
    if Truthy(Setting(global, "codeDeployRole")) then []
    else Single("CodeDeployServiceRole", gen.buildCodeDeployRole(Setting(global, "codeDeployRolePermissionsBoundary"), triggers))
  }

  /** `settings.preTrafficHook || settings.postTrafficHook`. */
  predicate HasHook(service: Service, name: string) {
    var settings := DeploymentSettingsFor(service, name);
    Truthy(Setting(settings, "preTrafficHook")) || Truthy(Setting(settings, "postTrafficHook"))
  }

  /**
    The deployment group name the execution role lists for a function:
    `getFunctionName` turns an empty name into `null`, which the template
    literal prints.
   */
  function HookGroupName(naming: Naming, name: string): string {
    var fnId := if name != "" then naming.lambdaLogicalId(name) else "null";
    DeploymentGroupName(naming.stackName, DeploymentGroupId(fnId))
  }

  /** `fp.pipe(fp.filter(hasHook), fp.map(getDeploymentGroup))`. */
  function HookGroupNames(service: Service, naming: Naming, names: seq<string>): (r: seq<string>)
    ensures |r| <= |names|
    ensures forall g :: g in r <==> exists n :: n in names && HasHook(service, n) && g == HookGroupName(naming, n)
  {
    if names == [] then []
    else
      assert names == [names[0]] + names[1..];
      var rest := HookGroupNames(service, naming, names[1..]);
      if HasHook(service, names[0]) then [HookGroupName(naming, names[0])] + rest else rest
  }

  /**
    The hook groups follow the functions' order, one for each function with
    a hook and none for the others.
   */
  lemma {:induction false} HookGroupNamesInOrder(service: Service, naming: Naming, names: seq<string>) returns (idx: seq<nat>)
    ensures InOrderSelection(HookGroupNames(service, naming, names), names,
                             (n: string) => HasHook(service, n), (n: string) => HookGroupName(naming, n), idx)
    decreases |names|
  {
    if names == [] {
      idx := [];
    } else {
      var tail := HookGroupNamesInOrder(service, naming, names[1..]);
      idx := SelectionCons(names[0], names[1..], (n: string) => HasHook(service, n), (n: string) => HookGroupName(naming, n),
                           HookGroupNames(service, naming, names[1..]), tail);
      assert [names[0]] + names[1..] == names;
    }
  }

  /**
    `buildExecutionRole`: nothing when the template has no (or a falsy)
    execution role; otherwise the role, rebuilt to allow the deployment
    groups of the functions with hooks, under its own logical id.
   */
  function ExecutionRoleResource(service: Service, naming: Naming, gen: Generators, rs: Resources): (r: Resources)
    ensures !Truthy(Lookup(rs, naming.roleLogicalId)) <==> r == []
    ensures r != [] ==> r == Single(naming.roleLogicalId, gen.buildExecutionRoleWithCodeDeploy(
      Lookup(rs, naming.roleLogicalId).value, CodeDeployAppName(naming),
      HookGroupNames(service, naming, WithDeploymentPreferencesFns(service.functions))))
  {
    var inputRole := Lookup(rs, naming.roleLogicalId);
    if !Truthy(inputRole) then []
    else Single(naming.roleLogicalId, gen.buildExecutionRoleWithCodeDeploy(
      inputRole.value, CodeDeployAppName(naming), HookGroupNames(service, naming, WithDeploymentPreferencesFns(service.functions))))
  }

  /** The execution role allows, for a function with a hook, exactly the group built for it. */
  lemma HookGroupIsFunctionGroup(service: Service, naming: Naming, name: string)
    requires name != "" && HasHook(service, name)
    requires name in WithDeploymentPreferencesFns(service.functions)
    ensures HookGroupName(naming, name) in HookGroupNames(service, naming, WithDeploymentPreferencesFns(service.functions))
    ensures var fnId := naming.lambdaLogicalId(name);
            var group := DeploymentGroupResource(naming, fnId, DeploymentSettingsFor(service, name))[0].resource;
      CodeDeploy.Property(group, "DeploymentGroupName") == Some(JStr(HookGroupName(naming, name)))
  {
  }

  /**
    The keys one function's resources name: its deployment group, its alias,
    and the logical ids its permissions and events already have.
   */
  lemma FunctionResourcesIds(service: Service, naming: Naming, gen: Generators, rs: Resources, name: string)
    requires Locatable(rs)
    ensures var fnId := naming.lambdaLogicalId(name);
            var settings := DeploymentSettingsFor(service, name);
      IdsAll(BuildFunctionResources(service, naming, gen, rs, name)) == {DeploymentGroupId(fnId), AliasId(fnId, Setting(settings, "alias"))}
                      + Ids(LambdaPermissionsFor(rs, fnId)) + Ids(GetEventsFor(rs, fnId))
  {
    var fnId := naming.lambdaLogicalId(name);
    var settings := DeploymentSettingsFor(service, name);
    var aliasId := AliasId(fnId, Setting(settings, "alias"));
    RewritesKeepLogicalIds(gen, rs, fnId, aliasId);
    BuiltIds(DeploymentGroupResource(naming, fnId, settings)[0], AliasResource(gen, naming, rs, fnId, settings)[0],
      BuildPermissionsForAlias(gen, rs, fnId, aliasId), BuildEventsForAlias(gen, rs, fnId, aliasId));
  }

  lemma BuiltIds(group: Entry, alias: Entry, permissions: seq<Resources>, events: seq<Resources>)
    ensures IdsAll([[group], [alias]] + permissions + events) == {group.id, alias.id} + IdsAll(permissions) + IdsAll(events)
  {
    var head := [[group], [alias]];
    IdsAllAppend(head + permissions, events);
    IdsAllAppend(head, permissions);
    IdsAllCons(head);
    IdsAllCons(head[1..]);
    assert head[1..][1..] == [];
    IdsCons(group, []);
    IdsCons(alias, []);
  }

  // ------------------------------------------------------- the trigger scan

  /** `resource.Type === 'AWS::CodeDeploy::DeploymentGroup' && resource.Properties.TriggerConfigurations`. */
  predicate SetsTriggers(resource: Json) {
    HasType(resource, CodeDeploy.DeploymentGroupType)
    && Truthy(Get(resource, [Key("Properties"), Key("TriggerConfigurations")]))
  }

  /** Some entry of some built object is a deployment group with trigger configurations. */
  predicate AnyTriggerConfigurations(objects: seq<Resources>) {
    exists i, k :: 0 <= i < |objects| && 0 <= k < |objects[i]| && SetsTriggers(objects[i][k].resource)
  }

  /** A function's deployment group sets triggers exactly when its settings hold trigger configurations. */
  lemma GroupSetsTriggers(naming: Naming, fnId: string, settings: Json)
    ensures SetsTriggers(DeploymentGroupResource(naming, fnId, settings)[0].resource)
        <==> Truthy(Setting(settings, "triggerConfigurations"))
  {
  }

  /**
    A gated function whose settings hold trigger configurations makes the
    scan succeed, so the generated CodeDeploy role gets the trigger flag.
   */
  lemma {:induction false} TriggersInSettingsSetFlag(service: Service, naming: Naming, gen: Generators, rs: Resources,
                                                      names: seq<string>, name: string)
    requires Locatable(rs)
    requires name in names
    requires Truthy(Setting(DeploymentSettingsFor(service, name), "triggerConfigurations"))
    ensures AnyTriggerConfigurations(BuildFunctionsResources(service, naming, gen, rs, names))
  {
    var all := BuildFunctionsResources(service, naming, gen, rs, names);
    var own := BuildFunctionResources(service, naming, gen, rs, names[0]);
    if names[0] == name {
      GroupSetsTriggers(naming, naming.lambdaLogicalId(name), DeploymentSettingsFor(service, name));
      assert all[0] == own[0];
      assert SetsTriggers(all[0][0].resource);
    } else {
      var rest: seq<Resources> := BuildFunctionsResources(service, naming, gen, rs, names[1..]);
      TriggersInSettingsSetFlag(service, naming, gen, rs, names[1..], name);
      var i: nat, k: nat :| i < |rest| && k < |rest[i]| && SetsTriggers(rest[i][k].resource);
      assert all[|own| + i] == rest[i];
    }
  }

  // ------------------------------------------------------- the merge

  /**
    The objects `addCanaryDeploymentResources` merges into the template, in
    order: the application, the CodeDeploy role, the execution role and each
    gated function's resources.
   */
  function Patches(service: Service, naming: Naming, gen: Generators, rs: Resources): seq<Resources>
    requires Locatable(rs)
  {
    var built := BuildFunctionsResources(service, naming, gen, rs, WithDeploymentPreferencesFns(service.functions));
    [CodeDeployAppResource(naming),
     CodeDeployRoleResource(service, gen, AnyTriggerConfigurations(built)),
     ExecutionRoleResource(service, naming, gen, rs)] + built
  }

  /**
    The merge only adds or overwrites the keys the patches name, the last
    patch naming a key winning; every other resource keeps its value and
    every resource already there keeps its place.
   */
  lemma MergeFrame(service: Service, naming: Naming, gen: Generators, rs: Resources, id: string)
    requires Locatable(rs)
    ensures var patches := Patches(service, naming, gen, rs);
            var merged := AssignAll(rs, patches);
      && Ids(merged) == Ids(rs) + IdsAll(patches)
      && (UniqueIds(rs) ==> UniqueIds(merged))
      && Lookup(merged, id) == (if id in IdsAll(patches) then AssignedAll(patches, id) else Lookup(rs, id))
      && |rs| <= |merged|
      && (forall i :: 0 <= i < |rs| ==> merged[i].id == rs[i].id)
      && (forall i :: 0 <= i < |rs| && rs[i].id !in IdsAll(patches) ==> merged[i] == rs[i])
  {
    var patches := Patches(service, naming, gen, rs);
    AssignAllIds(rs, patches);
    AssignAllLookup(rs, patches, id);
    AssignAllKeepsPlaces(rs, patches);
    AssignedAllNames(patches, id);
  }

  /** The sources name a key exactly when one of them gives it a value. */
  lemma {:induction false} AssignedAllNames(sources: seq<Resources>, id: string)
    ensures AssignedAll(sources, id).Some? <==> id in IdsAll(sources)
    decreases |sources|
  {
    if sources != [] {
      IdsAllCons(sources);
      AssignedAllNames(sources[1..], id);
      AssignedNames(sources[0], id);
    }
  }

  /** An object's entries name a key exactly when one of them gives it a value. */
  lemma {:induction false} AssignedNames(s: Resources, id: string)
    ensures Assigned(s, id).Some? <==> id in Ids(s)
    decreases |s|
  {
    if s != [] {
      AssignedNames(s[1..], id);
      assert s == [s[0]] + s[1..];
      IdsCons(s[0], s[1..]);
    }
  }

  // ------------------------------------------------------- the plugin

  /**
    The plugin as the hook sees it: the service, the provider's naming, the
    generators, and the compiled template's resources, which the pass
    extends in place.
   */
  class CanaryDeployments {
    var resources: Resources
    const service: Service
    const naming: Naming
    const gen: Generators

    constructor(resources: Resources, service: Service, naming: Naming, gen: Generators)
      ensures this.resources == resources
      ensures this.service == service && this.naming == naming && this.gen == gen
    {
      this.resources := resources;
      this.service := service;
      this.naming := naming;
      this.gen := gen;
    }

    /** `areTriggerConfigurationsSet`: scan every key of every built object, stopping at the first hit. */
    method AreTriggerConfigurationsSet(functionsResources: seq<Resources>) returns (found: bool)
      ensures found <==> AnyTriggerConfigurations(functionsResources)
    {
      var i := 0;
      while i < |functionsResources|
        invariant 0 <= i <= |functionsResources|
        invariant forall j, k :: 0 <= j < i && 0 <= k < |functionsResources[j]| ==>
          !SetsTriggers(functionsResources[j][k].resource)
      {
        var resource := functionsResources[i];
        var k := 0;
        while k < |resource|
          invariant 0 <= k <= |resource|
          invariant forall m :: 0 <= m < k ==> !SetsTriggers(resource[m].resource)
        {
          if SetsTriggers(resource[k].resource) {
            return true;
          }
          k := k + 1;
        }
        i := i + 1;
      }
      return false;
    }

    /**
      `addCanaryDeploymentResources`: when the gate is open, merge the
      application, the roles and every gated function's resources into the
      template, later objects winning; otherwise change nothing.
     */
    method AddCanaryDeploymentResources()
      requires ShouldDeployGradually(service) ==> Locatable(resources)
      modifies this
      ensures !ShouldDeployGradually(service) ==> resources == old(resources)
      ensures ShouldDeployGradually(service) ==>
        resources == AssignAll(old(resources), Patches(service, naming, gen, old(resources)))
    {
      if ShouldDeployGradually(service) {
        var codeDeployApp := CodeDeployAppResource(naming);
        var functionsResources := BuildFunctionsResources(
          service, naming, gen, resources, WithDeploymentPreferencesFns(service.functions));
        var triggers := AreTriggerConfigurationsSet(functionsResources);
        var codeDeployRole := CodeDeployRoleResource(service, gen, triggers);
        var executionRole := ExecutionRoleResource(service, naming, gen, resources);
        resources := AssignAll(resources, [codeDeployApp, codeDeployRole, executionRole] + functionsResources);
      }
    }
  }
}
