/**
  The locators: `pickBy` filters over the template's resources that find, for
  one function, the events that invoke it (eleven kinds), its permissions and
  its published version.
 */
module PluginLocators {
  import opened Wrappers
  import opened Json
  import opened Template

  /** The event resources the plugin knows how to point at an alias. */
  datatype EventKind =
    | ApiGatewayMethod
    | ApiGatewayV2Integration
    | ApiGatewayV2Authorizer
    | EventSourceMapping
    | SnsTopic
    | S3Bucket
    | EventsRule
    | LogsSubscriptionFilter
    | SnsSubscription
    | IotTopicRule
    | AppSyncDataSource

  /** The CloudFormation type of each kind. */
  function TypeName(kind: EventKind): string {
    match kind
    case ApiGatewayMethod => "AWS::ApiGateway::Method"
    case ApiGatewayV2Integration => "AWS::ApiGatewayV2::Integration"
    case ApiGatewayV2Authorizer => "AWS::ApiGatewayV2::Authorizer"
    case EventSourceMapping => "AWS::Lambda::EventSourceMapping"
    case SnsTopic => "AWS::SNS::Topic"
    case S3Bucket => "AWS::S3::Bucket"
    case EventsRule => "AWS::Events::Rule"
    case LogsSubscriptionFilter => "AWS::Logs::SubscriptionFilter"
    case SnsSubscription => "AWS::SNS::Subscription"
    case IotTopicRule => "AWS::IoT::TopicRule"
    case AppSyncDataSource => "AWS::AppSync::DataSource"
  }

  /** The order in which `getEventsFor` merges the locators' results. */
  const LocatorOrder: seq<EventKind> := [
    ApiGatewayMethod, ApiGatewayV2Integration, ApiGatewayV2Authorizer, EventSourceMapping,
    SnsTopic, S3Bucket, EventsRule, LogsSubscriptionFilter, SnsSubscription, IotTopicRule,
    AppSyncDataSource]

  /** Where each kind stands in that order: every kind has a locator. */
  function OrderIndex(kind: EventKind): (i: nat)
    ensures i < |LocatorOrder| && LocatorOrder[i] == kind
  {
    match kind
    case ApiGatewayMethod => 0
    case ApiGatewayV2Integration => 1
    case ApiGatewayV2Authorizer => 2
    case EventSourceMapping => 3
    case SnsTopic => 4
    case S3Bucket => 5
    case EventsRule => 6
    case LogsSubscriptionFilter => 7
    case SnsSubscription => 8
    case IotTopicRule => 9
    case AppSyncDataSource => 10
  }

  /** `fp.matchesProperty('Type', type)`. */
  predicate HasType(resource: Json, typeName: string) {
    Get(resource, [Key("Type")]) == Some(JStr(typeName))
  }

  /** `fp.matchesProperty(path, functionName)`. */
  predicate MatchesProperty(resource: Json, path: Path, fnId: string) {
    Get(resource, path) == Some(JStr(fnId))
  }

  // ------------------------------------------------------- what each locator reads

  /** The property whose flattened values a `flat`-based locator searches. */
  function FlatProperty(kind: EventKind): Path
    requires kind in {ApiGatewayMethod, ApiGatewayV2Integration, ApiGatewayV2Authorizer, EventSourceMapping}
  {
    match kind
    case ApiGatewayMethod => [Key("Properties"), Key("Integration")]
    case ApiGatewayV2Integration => [Key("Properties"), Key("IntegrationUri")]
    case ApiGatewayV2Authorizer => [Key("Properties"), Key("AuthorizerUri")]
    case EventSourceMapping => [Key("Properties"), Key("FunctionName")]
  }

  /** The list a `map`-and-`flatten` locator walks, and where each element names its target. */
  function ListProperty(kind: EventKind): Path
    requires kind in {SnsTopic, S3Bucket, EventsRule}
  {
    match kind
    case SnsTopic => [Key("Properties"), Key("Subscription")]
    case S3Bucket => [Key("Properties"), Key("NotificationConfiguration"), Key("LambdaConfigurations")]
    case EventsRule => [Key("Properties"), Key("Targets")]
  }

  function ElementTarget(kind: EventKind): Path
    requires kind in {SnsTopic, S3Bucket, EventsRule}
  {
    match kind
    case SnsTopic => [Key("Endpoint"), Key("Fn::GetAtt")]
    case S3Bucket => [Key("Function"), Key("Fn::GetAtt")]
    case EventsRule => [Key("Arn"), Key("Fn::GetAtt")]
  }

  /** The property a `matchesProperty` locator compares with the function's logical id. */
  function MatchedProperty(kind: EventKind): Path
    requires kind in {SnsSubscription, IotTopicRule, AppSyncDataSource}
  {
    match kind
    case SnsSubscription => [Key("Properties"), Key("Endpoint"), Key("Fn::GetAtt"), Idx(0)]
    case IotTopicRule =>
      [Key("Properties"), Key("TopicRulePayload"), Key("Actions"), Idx(0),
       Key("Lambda"), Key("FunctionArn"), Key("Fn::GetAtt"), Idx(0)]
    case AppSyncDataSource => [Key("Properties"), Key("LambdaConfig"), Key("LambdaFunctionArn"), Key("Fn::GetAtt"), Idx(0)]
  }

  const LogsTargetPath: Path := [Key("Properties"), Key("DestinationArn"), Key("Fn::GetAtt")]

  // ------------------------------------------------------- lodash pipelines

  /** One mapped element after `fp.flatten`: its target is the name, or an array holding it. */
  predicate TargetIncludes(element: Json, target: Path, fnId: string) {
    match Get(element, target)
    case Some(JArr(items)) => JStr(fnId) in items
    case Some(v) => v == JStr(fnId)
    case None => false
  }

  /**
    `fp.pipe(fp.map(fp.prop(target)), fp.flatten, fp.includes(fnId))`:
    `fp.map` walks an array's items or an object's values, and nothing in
    anything else.
   */
  predicate MapFlattenIncludes(collection: Option<Json>, target: Path, fnId: string) {
    match collection
    case Some(JArr(items)) => exists x :: x in items && TargetIncludes(x, target, fnId)
    case Some(JObj(fields)) => exists k :: k in fields && TargetIncludes(fields[k], target, fnId)
    case _ => false
  }

  /**
    `fp.pipe(fp.flatten, fp.includes(fnId))` on a single value: the items of
    an array, one level opened; the characters of a string; nothing else.
   */
  predicate FlattenIncludes(value: Option<Json>, fnId: string) {
    match value
    case Some(JArr(items)) =>
      exists x :: x in items && (x == JStr(fnId) || (x.JArr? && JStr(fnId) in x.items))
    case Some(JStr(s)) => exists i :: 0 <= i < |s| && [s[i]] == fnId
    case _ => false
  }

  /**
    The `flat`-based locators throw on a resource of their type without the
    property they flatten (or with `null` there): the template is searchable
    when every such resource has it.
   */
  predicate Locatable(rs: Resources) {
    forall e :: e in rs ==> FlatReadable(e.resource)
  }

  predicate FlatReadable(resource: Json) {
    forall kind :: (kind in {ApiGatewayMethod, ApiGatewayV2Integration, ApiGatewayV2Authorizer, EventSourceMapping}
                    && HasType(resource, TypeName(kind))) ==>
        Get(resource, FlatProperty(kind)).Some? && !Get(resource, FlatProperty(kind)).value.JNull?
  }

  /** The second filter of each locator: does this resource invoke `fnId`? */
  predicate InvokesFunction(kind: EventKind, resource: Json, fnId: string)
    requires kind in {ApiGatewayMethod, ApiGatewayV2Integration, ApiGatewayV2Authorizer, EventSourceMapping}
      ==> Get(resource, FlatProperty(kind)).Some? && !Get(resource, FlatProperty(kind)).value.JNull?
  {
    match kind
    case ApiGatewayMethod | ApiGatewayV2Integration | ApiGatewayV2Authorizer | EventSourceMapping =>
      JStr(fnId) in Flat(Get(resource, FlatProperty(kind)).value)
    case SnsTopic | S3Bucket | EventsRule =>
      MapFlattenIncludes(Get(resource, ListProperty(kind)), ElementTarget(kind), fnId)
    case LogsSubscriptionFilter =>
      FlattenIncludes(Get(resource, LogsTargetPath), fnId)
    case SnsSubscription | IotTopicRule | AppSyncDataSource =>
      MatchesProperty(resource, MatchedProperty(kind), fnId)
  }

  /** Both filters of a locator, in the order `fp.pipe` applies them. */
  predicate Located(kind: EventKind, resource: Json, fnId: string) {
    HasType(resource, TypeName(kind)) &&
    ((kind in {ApiGatewayMethod, ApiGatewayV2Integration, ApiGatewayV2Authorizer, EventSourceMapping}
      ==> Get(resource, FlatProperty(kind)).Some? && !Get(resource, FlatProperty(kind)).value.JNull?)
     && InvokesFunction(kind, resource, fnId))
  }

  /**
    `getApiGatewayMethodsFor` … `getAppSyncDataSourcesFor`: the resources of
    the locator's type that invoke the function, in template order, with
    their logical ids and values as they are.
   */
  function Locate(rs: Resources, kind: EventKind, fnId: string): (r: Resources)
    requires Locatable(rs)
    ensures forall e :: e in r <==> e in rs && Located(kind, e.resource, fnId)
    ensures UniqueIds(rs) ==> UniqueIds(r)
  {
    PickBy(rs, resource => Located(kind, resource, fnId))
  }

  /** `getEventsFor(functionName)`: `Object.assign({}, …locators)`. */
  function GetEventsFor(rs: Resources, fnId: string): (r: Resources)
    requires Locatable(rs)
  {
    AssignAll([], seq(|LocatorOrder|, i requires 0 <= i < |LocatorOrder| => Locate(rs, LocatorOrder[i], fnId)))
  }

  /**
    Every event found is a resource of the template, unchanged, under its own
    logical id, of one of the eleven types, and invokes the function; no
    logical id is listed twice.
   */
  lemma EventsAreLocated(rs: Resources, fnId: string)
    requires Locatable(rs)
    ensures UniqueIds(GetEventsFor(rs, fnId))
    ensures forall e :: e in GetEventsFor(rs, fnId) ==>
      e in rs && exists kind :: kind in LocatorOrder && Located(kind, e.resource, fnId)
  {
    var sources := seq(|LocatorOrder|, i requires 0 <= i < |LocatorOrder| => Locate(rs, LocatorOrder[i], fnId));
    var r := AssignAll([], sources);
    AssignAllIds([], sources);
    forall e | e in r
      ensures e in rs && exists kind :: kind in LocatorOrder && Located(kind, e.resource, fnId)
    {
      var i :| 0 <= i < |sources| && e in sources[i];
      assert e in Locate(rs, LocatorOrder[i], fnId);
    }
  }

  /**
    A resource of the template that a locator selects is among the events,
    so nothing that invokes the function through a recognised property is
    missed.
   */
  lemma LocatedAreEvents(rs: Resources, fnId: string, kind: EventKind, e: Entry)
    requires Locatable(rs) && UniqueIds(rs)
    requires e in rs && Located(kind, e.resource, fnId)
    ensures e in GetEventsFor(rs, fnId)
  {
    var sources := seq(|LocatorOrder|, i requires 0 <= i < |LocatorOrder| => Locate(rs, LocatorOrder[i], fnId));
    var i := OrderIndex(kind);
    assert e in sources[i];
    AssignAllKeepsDrawn(rs, sources, i, e);
  }

  // ------------------------------------------------------- the dispatch table

  /** `replaceAliasStrategy[type]`: which rewrite a type selects, if any. */
  function StrategyFor(typeName: string): Option<EventKind> {
    if typeName == "AWS::Lambda::EventSourceMapping" then Some(EventSourceMapping)
    else if typeName == "AWS::ApiGateway::Method" then Some(ApiGatewayMethod)
    else if typeName == "AWS::ApiGatewayV2::Integration" then Some(ApiGatewayV2Integration)
    else if typeName == "AWS::ApiGatewayV2::Authorizer" then Some(ApiGatewayV2Authorizer)
    else if typeName == "AWS::SNS::Topic" then Some(SnsTopic)
    else if typeName == "AWS::SNS::Subscription" then Some(SnsSubscription)
    else if typeName == "AWS::S3::Bucket" then Some(S3Bucket)
    else if typeName == "AWS::Events::Rule" then Some(EventsRule)
    else if typeName == "AWS::Logs::SubscriptionFilter" then Some(LogsSubscriptionFilter)
    else if typeName == "AWS::IoT::TopicRule" then Some(IotTopicRule)
    else if typeName == "AWS::AppSync::DataSource" then Some(AppSyncDataSource)
    else None
  }

  /** Each type the locators search selects the rewrite for its own kind. */
  lemma StrategyForTypeName(kind: EventKind)
    ensures StrategyFor(TypeName(kind)) == Some(kind)
  {
    if kind.EventSourceMapping? || kind.ApiGatewayMethod? || kind.ApiGatewayV2Integration?
      || kind.ApiGatewayV2Authorizer? || kind.SnsTopic? || kind.SnsSubscription? {
      StrategyForEarlyTypeName(kind);
    } else {
      StrategyForLateTypeName(kind);
    }
  }

  lemma StrategyForEarlyTypeName(kind: EventKind)
    requires kind.EventSourceMapping? || kind.ApiGatewayMethod? || kind.ApiGatewayV2Integration?
      || kind.ApiGatewayV2Authorizer? || kind.SnsTopic? || kind.SnsSubscription?
    ensures StrategyFor(TypeName(kind)) == Some(kind)
  {
    match kind
    case EventSourceMapping =>
    case ApiGatewayMethod =>
      assert |TypeName(kind)| == 23;
    case ApiGatewayV2Integration =>
      assert |TypeName(kind)| == 30;
    case ApiGatewayV2Authorizer =>
      assert |TypeName(kind)| == 29;
    case SnsTopic =>
      assert |TypeName(kind)| == 15;
    case SnsSubscription =>
      assert |TypeName(kind)| == 22;
  }

  lemma StrategyForLateTypeName(kind: EventKind)
    requires kind.S3Bucket? || kind.EventsRule? || kind.LogsSubscriptionFilter?
      || kind.IotTopicRule? || kind.AppSyncDataSource?
    ensures StrategyFor(TypeName(kind)) == Some(kind)
  {
    var t := TypeName(kind);
    match kind
    case S3Bucket =>
      assert |t| == 15 && t[6] == '3';
    case EventsRule =>
      assert |t| == 17;
    case LogsSubscriptionFilter =>
      assert |t| == 29 && t[5] == 'L';
    case IotTopicRule =>
      assert |t| == 19;
    case AppSyncDataSource =>
      assert |t| == 24;
  }

  /**
    The lookup of `buildEventsForAlias` never misses: every event found has a
    `Type` that selects the rewrite of a locator that found it.
   */
  lemma DispatchTotal(rs: Resources, fnId: string, e: Entry)
    requires Locatable(rs)
    requires e in GetEventsFor(rs, fnId)
    ensures Get(e.resource, [Key("Type")]).Some? && Get(e.resource, [Key("Type")]).value.JStr?
    ensures var kind := StrategyFor(Get(e.resource, [Key("Type")]).value.s);
      kind.Some? && Located(kind.value, e.resource, fnId)
  {
    EventsAreLocated(rs, fnId);
    var kind :| kind in LocatorOrder && Located(kind, e.resource, fnId);
    StrategyForTypeName(kind);
  }

  // ------------------------------------------------------- permissions and versions

  const PermissionGetAttPath: Path := [Key("Properties"), Key("FunctionName"), Key("Fn::GetAtt"), Idx(0)]
  const PermissionRefPath: Path := [Key("Properties"), Key("FunctionName"), Key("Ref")]

  /**
    The `fp.cond` of `getLambdaPermissionsFor`: the first condition whose
    property is truthy decides; with neither, the permission is not selected.
   */
  predicate IsPermissionFor(permission: Json, fnId: string) {
    if Truthy(Get(permission, PermissionGetAttPath)) then MatchesProperty(permission, PermissionGetAttPath, fnId)
    else if Truthy(Get(permission, PermissionRefPath)) then MatchesProperty(permission, PermissionRefPath, fnId)
    else false
  }

  /** `getLambdaPermissionsFor(functionName)`. */
  function LambdaPermissionsFor(rs: Resources, fnId: string): (r: Resources)
    ensures forall e :: e in r <==>
      e in rs && HasType(e.resource, "AWS::Lambda::Permission") && IsPermissionFor(e.resource, fnId)
    ensures UniqueIds(rs) ==> UniqueIds(r)
  {
    PickBy(PickBy(rs, resource => HasType(resource, "AWS::Lambda::Permission")),
           resource => IsPermissionFor(resource, fnId))
  }

  /** A permission that names a function by `Fn::GetAtt` is selected by that name alone, whatever its `Ref`. */
  lemma PermissionGetAttDecides(permission: Json, fnId: string)
    requires Truthy(Get(permission, PermissionGetAttPath))
    ensures IsPermissionFor(permission, fnId) <==> Get(permission, PermissionGetAttPath) == Some(JStr(fnId))
  {
  }

  /** Without a `Fn::GetAtt` name the `Ref` decides. */
  lemma PermissionRefDecides(permission: Json, fnId: string)
    requires !Truthy(Get(permission, PermissionGetAttPath))
    requires fnId != ""
    ensures IsPermissionFor(permission, fnId) <==> Get(permission, PermissionRefPath) == Some(JStr(fnId))
  {
  }

  /** With neither, the permission is never selected. */
  lemma PermissionNeitherNotSelected(permission: Json, fnId: string)
    requires !Truthy(Get(permission, PermissionGetAttPath)) && !Truthy(Get(permission, PermissionRefPath))
    ensures !IsPermissionFor(permission, fnId)
  {
  }

  /** `fp.matchesProperty('Properties.FunctionName.Ref', functionName)` on a version. */
  predicate IsVersionFor(version: Json, fnId: string) {
    MatchesProperty(version, PermissionRefPath, fnId)
  }

  /** `getVersionNameFor(functionName)`: the first version of the function, by logical id. */
  function VersionNameFor(rs: Resources, fnId: string): Option<string> {
    FindKey(PickBy(rs, resource => HasType(resource, "AWS::Lambda::Version")),
            resource => IsVersionFor(resource, fnId))
  }

  /**
    A version name names a version of the function in the template, and there
    is none exactly when the template has no version of the function.
   */
  lemma VersionNameForFinds(rs: Resources, fnId: string)
    ensures VersionNameFor(rs, fnId).Some? ==>
      exists e :: e in rs && e.id == VersionNameFor(rs, fnId).value
        && HasType(e.resource, "AWS::Lambda::Version") && IsVersionFor(e.resource, fnId)
    ensures VersionNameFor(rs, fnId).None? <==>
      forall e :: e in rs && HasType(e.resource, "AWS::Lambda::Version") ==> !IsVersionFor(e.resource, fnId)
  {
    var versions := PickBy(rs, resource => HasType(resource, "AWS::Lambda::Version"));
    var r := VersionNameFor(rs, fnId);
    if r.Some? {
      var i :| 0 <= i < |versions| && versions[i].id == r.value && IsVersionFor(versions[i].resource, fnId);
      assert versions[i] in versions;
    }
  }
}
