/**
  CloudWatch Logs subscription filters: the rewrite that points a filter's
  destination at the alias when, and only when, the destination is the
  function itself.
 */
module CloudWatchLogs {
  import opened Wrappers
  import opened Json

  const DestinationArnPath: Path := [Key("Properties"), Key("DestinationArn")]
  const TargetDetailsPath: Path := [Key("Properties"), Key("DestinationArn"), Key("Fn::GetAtt")]

  /**
    What the rewrite reads without throwing: `Properties` is present and not
    null, and a truthy `Fn::GetAtt` can be destructured (an array or a string).
   */
  predicate CanRead(filter: Json) {
    && Get(filter, [Key("Properties")]).Some?
    && Get(filter, [Key("Properties")]) != Some(JNull)
    && (Truthy(Get(filter, TargetDetailsPath)) ==>
          Get(filter, TargetDetailsPath).value.JArr? || Get(filter, TargetDetailsPath).value.JStr?)
  }

  /**
    `const [funcName] = (DestinationArn || {})['Fn::GetAtt'] || []`: the
    first element of the `Fn::GetAtt` array (the first character of a string).
   */
  function FirstTargetName(filter: Json): Option<Json>
    requires CanRead(filter)
  {
    var details := Get(filter, TargetDetailsPath);
    if !Truthy(details) then None
    else match details.value
      case JArr(items) => if items == [] then None else Some(items[0])
      case JStr(s) => Some(JStr([s[0]]))
  }

  /** `funcName && funcName === functionName`. */
  predicate PointsAt(filter: Json, fnId: string)
    requires CanRead(filter)
  {
    Truthy(FirstTargetName(filter)) && FirstTargetName(filter) == Some(JStr(fnId))
  }

  /**
    `replaceCloudWatchLogsDestinationArnWithAlias`: a filter whose destination
    is `Fn::GetAtt` of the function gets `DestinationArn = { Ref: alias }`, all
    else unchanged; any other filter is returned as it is.
   */
  function ReplaceCloudWatchLogsDestinationArnWithAlias(filter: Json, alias: string, fnId: string): (r: Json)
    requires CanRead(filter)
    ensures PointsAt(filter, fnId) ==> Get(r, DestinationArnPath) == Some(Ref(alias))
    ensures PointsAt(filter, fnId) ==> OnlyChangedAt(filter, r, DestinationArnPath)
    ensures !PointsAt(filter, fnId) ==> r == filter
  {
    if PointsAt(filter, fnId) then
      RewriteFrame(filter, alias);
      Set(filter, DestinationArnPath, Ref(alias))
    else filter
  }

  /** A filter whose destination has a `Fn::GetAtt` can be written at `DestinationArn`. */
  lemma RewriteFrame(filter: Json, alias: string)
    requires Get(filter, TargetDetailsPath).Some?
    ensures CanSet(filter, DestinationArnPath)
    ensures Get(Set(filter, DestinationArnPath, Ref(alias)), DestinationArnPath) == Some(Ref(alias))
    ensures OnlyChangedAt(filter, Set(filter, DestinationArnPath, Ref(alias)), DestinationArnPath)
    ensures Get(Set(filter, DestinationArnPath, Ref(alias)), [Key("Properties")]).value.JObj?
  {
    var props := Get(filter, [Key("Properties")]).value;
    GetAppend(filter, [Key("Properties")], [Key("DestinationArn"), Key("Fn::GetAtt")]);
    assert [Key("Properties")] + [Key("DestinationArn"), Key("Fn::GetAtt")] == TargetDetailsPath;
    assert props.JObj?;
    CanSetBelow(filter, [Key("Properties")], [Key("DestinationArn")]);
    assert [Key("Properties")] + [Key("DestinationArn")] == DestinationArnPath;
    SetOnlyChanges(filter, DestinationArnPath, Ref(alias));
    GetSetBelow(filter, [Key("Properties")], [Key("DestinationArn")], Ref(alias));
  }

  /** Rewriting a rewritten filter changes nothing: its destination is no longer a `Fn::GetAtt`. */
  lemma RewriteIdempotent(filter: Json, alias: string, fnId: string)
    requires CanRead(filter)
    ensures CanRead(ReplaceCloudWatchLogsDestinationArnWithAlias(filter, alias, fnId))
    ensures var once := ReplaceCloudWatchLogsDestinationArnWithAlias(filter, alias, fnId);
      ReplaceCloudWatchLogsDestinationArnWithAlias(once, alias, fnId) == once
  {
    var once := ReplaceCloudWatchLogsDestinationArnWithAlias(filter, alias, fnId);
    if PointsAt(filter, fnId) {
      RewriteFrame(filter, alias);
      GetAppend(once, DestinationArnPath, [Key("Fn::GetAtt")]);
      assert DestinationArnPath + [Key("Fn::GetAtt")] == TargetDetailsPath;
      assert Get(once, TargetDetailsPath) == None;
    }
  }

  /** The subscription filter of the library's own example, rewritten. */
  lemma ExampleRewrite()
    ensures
      var fnId := "HelloLambdaFunction";
      var alias := "FunctionWithAlias";
      var properties := map[
        "LogGroupName" := JStr("logGroupName"),
        "FilterPattern" := JStr("FilterPattern")];
      var filter := JObj(map[
        "Type" := JStr("AWS::Logs::SubscriptionFilter"),
        "DependsOn" := JStr("lambdaPermissionLogicalId"),
        "Properties" := JObj(properties["DestinationArn" :=
          JObj(map["Fn::GetAtt" := JArr([JStr(fnId), JStr("Arn")])])])]);
      && CanRead(filter)
      && ReplaceCloudWatchLogsDestinationArnWithAlias(filter, alias, fnId) == JObj(map[
        "Type" := JStr("AWS::Logs::SubscriptionFilter"),
        "DependsOn" := JStr("lambdaPermissionLogicalId"),
        "Properties" := JObj(properties["DestinationArn" := Ref(alias)])])
  {
    var fnId := "HelloLambdaFunction";
    var alias := "FunctionWithAlias";
    var properties := map[
      "LogGroupName" := JStr("logGroupName"),
      "FilterPattern" := JStr("FilterPattern")];
    var details := JArr([JStr(fnId), JStr("Arn")]);
    var props := JObj(properties["DestinationArn" := JObj(map["Fn::GetAtt" := details])]);
    var top := map[
      "Type" := JStr("AWS::Logs::SubscriptionFilter"),
      "DependsOn" := JStr("lambdaPermissionLogicalId")];
    var filter := JObj(top["Properties" := props]);
    assert filter == JObj(map[
        "Type" := JStr("AWS::Logs::SubscriptionFilter"),
        "DependsOn" := JStr("lambdaPermissionLogicalId"),
        "Properties" := props]);
    assert Get(filter, [Key("Properties")]) == Some(props);
    assert Get(filter, TargetDetailsPath) == Some(details);
    assert PointsAt(filter, fnId);
    var newProps := JObj(properties["DestinationArn" := Ref(alias)]);
    assert Set(props, [Key("DestinationArn")], Ref(alias)) == newProps by {
      assert properties["DestinationArn" := JObj(map["Fn::GetAtt" := details])]["DestinationArn" := Ref(alias)]
          == properties["DestinationArn" := Ref(alias)];
    }
    assert Set(filter, DestinationArnPath, Ref(alias)) == JObj(top["Properties" := newProps]);
    assert top["Properties" := newProps] == map[
        "Type" := JStr("AWS::Logs::SubscriptionFilter"),
        "DependsOn" := JStr("lambdaPermissionLogicalId"),
        "Properties" := newProps];
  }
}
