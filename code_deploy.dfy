/**
  The CodeDeploy resources: the application every gated function shares and
  the deployment group of one function, as the library's test file pins them
  down (the generator itself is not part of this model).
 */
module CodeDeploy {
  import opened Wrappers
  import opened Json

  /** `buildApplication()`. */
  function BuildApplication(): (r: Json)
    ensures r.JObj? && r.fields.Keys == {"Type", "Properties"}
    ensures Get(r, [Key("Type")]) == Some(JStr("AWS::CodeDeploy::Application"))
    ensures Get(r, [Key("Properties")]) == Some(JObj(map["ComputePlatform" := JStr("Lambda")]))
  {
    JObj(map[
      "Type" := JStr("AWS::CodeDeploy::Application"),
      "Properties" := JObj(map["ComputePlatform" := JStr("Lambda")])])
  }

  const DeploymentGroupType := "AWS::CodeDeploy::DeploymentGroup"

  const RollbackEvents: seq<Json> :=
    [JStr("DEPLOYMENT_FAILURE"), JStr("DEPLOYMENT_STOP_ON_ALARM"), JStr("DEPLOYMENT_STOP_ON_REQUEST")]

  const ConfigNameTemplate := "CodeDeployDefault.Lambda${ConfigName}"

  /** The role CodeDeploy assumes when the settings name none: the generated one. */
  const GeneratedServiceRoleArn: Json :=
    JObj(map["Fn::GetAtt" := JArr([JStr("CodeDeployServiceRole"), JStr("Arn")])])

  /** `codeDeployRoleArn || { 'Fn::GetAtt': ['CodeDeployServiceRole', 'Arn'] }`. */
  function ServiceRoleArn(roleArn: Option<Json>): Json {
    if Truthy(roleArn) then roleArn.value else GeneratedServiceRoleArn
  }

  const AutoRollbackConfiguration: Json :=
    JObj(map["Enabled" := JBool(true), "Events" := JArr(RollbackEvents)])

  const DeploymentStyle: Json :=
    JObj(map["DeploymentType" := JStr("BLUE_GREEN"), "DeploymentOption" := JStr("WITH_TRAFFIC_CONTROL")])

  /** `{ 'Fn::Sub': [template, { ConfigName: type }] }`; an undefined type leaves no `ConfigName`. */
  function DeploymentConfigName(configType: Option<Json>): Json {
    var vars := if configType.Some? then map["ConfigName" := configType.value] else map[];
    JObj(map["Fn::Sub" := JArr([JStr(ConfigNameTemplate), JObj(vars)])])
  }

  /** One alarm of the settings: a name refers to an alarm resource, an object gives its `name`. */
  function AlarmEntry(alarm: Json): Json {
    if alarm.JStr? then JObj(map["Name" := Ref(alarm.s)])
    else match Get(alarm, [Key("name")])
      case Some(n) => JObj(map["Name" := n])
      case None => JObj(map[])
  }

  function AlarmEntries(alarms: seq<Json>): (r: seq<Json>)
    ensures |r| == |alarms|
    ensures forall i :: 0 <= i < |alarms| ==> r[i] == AlarmEntry(alarms[i])
  {
    if alarms == [] then [] else [AlarmEntry(alarms[0])] + AlarmEntries(alarms[1..])
  }

  /** The alarms listed in the settings; anything but a non-empty array lists none. */
  function Alarms(settings: Json): seq<Json> {
    match Get(settings, [Key("alarms")])
    case Some(JArr(items)) => items
    case _ => []
  }

  /** The alarm configuration written for a non-empty list of alarms. */
  function AlarmConfiguration(alarms: seq<Json>): Json {
    JObj(map["Alarms" := JArr(AlarmEntries(alarms)), "Enabled" := JBool(true)])
  }

  /** The `Properties` of a deployment group, before the optional alarms and triggers. */
  function BaseProperties(appName: string, groupName: string, roleArn: Option<Json>, configType: Option<Json>): (m: map<string, Json>)
    ensures m.Keys == {"ApplicationName", "DeploymentGroupName", "AutoRollbackConfiguration",
                       "ServiceRoleArn", "DeploymentConfigName", "DeploymentStyle"}
  {
    map[
      "ApplicationName" := Ref(appName),
      "DeploymentGroupName" := JStr(groupName),
      "AutoRollbackConfiguration" := AutoRollbackConfiguration,
      "ServiceRoleArn" := ServiceRoleArn(roleArn),
      "DeploymentConfigName" := DeploymentConfigName(configType),
      "DeploymentStyle" := DeploymentStyle]
  }

  /** The property names of a deployment group are pairwise different. */
  lemma PropertyNamesDistinct()
    ensures var names := ["ApplicationName", "DeploymentGroupName", "AutoRollbackConfiguration",
                          "ServiceRoleArn", "DeploymentConfigName", "DeploymentStyle",
                          "AlarmConfiguration", "TriggerConfigurations"];
      forall i, j :: 0 <= i < j < |names| ==> names[i] != names[j]
  {
    var names := ["ApplicationName", "DeploymentGroupName", "AutoRollbackConfiguration",
                  "ServiceRoleArn", "DeploymentConfigName", "DeploymentStyle",
                  "AlarmConfiguration", "TriggerConfigurations"];
    assert |names[0]| == 15 && |names[1]| == 19 && |names[2]| == 25 && |names[3]| == 14;
    assert |names[4]| == 20 && |names[5]| == 15 && |names[6]| == 18 && |names[7]| == 21;
    assert names[0][0] == 'A' && names[5][0] == 'D';
  }

  /** `Properties` with the alarm configuration and the trigger configurations added when present. */
  function GroupProperties(appName: string, groupName: string, roleArn: Option<Json>, settings: Json): (m: map<string, Json>)
    ensures {"ApplicationName", "DeploymentGroupName", "AutoRollbackConfiguration",
             "ServiceRoleArn", "DeploymentConfigName", "DeploymentStyle"} <= m.Keys
    ensures m["ApplicationName"] == Ref(appName)
    ensures m["DeploymentGroupName"] == JStr(groupName)
    ensures m["AutoRollbackConfiguration"] == AutoRollbackConfiguration
    ensures m["ServiceRoleArn"] == ServiceRoleArn(roleArn)
    ensures m["DeploymentConfigName"] == DeploymentConfigName(Get(settings, [Key("type")]))
    ensures m["DeploymentStyle"] == DeploymentStyle
    ensures "AlarmConfiguration" in m <==> Alarms(settings) != []
    ensures Alarms(settings) != [] ==> m["AlarmConfiguration"] == AlarmConfiguration(Alarms(settings))
    ensures "TriggerConfigurations" in m <==> Truthy(Get(settings, [Key("triggerConfigurations")]))
    ensures "TriggerConfigurations" in m ==> Some(m["TriggerConfigurations"]) == Get(settings, [Key("triggerConfigurations")])
  {
    PropertyNamesDistinct();
    var base := BaseProperties(appName, groupName, roleArn, Get(settings, [Key("type")]));
    var alarms := Alarms(settings);
    var withAlarms := if alarms != [] then base["AlarmConfiguration" := AlarmConfiguration(alarms)] else base;
    var triggers := Get(settings, [Key("triggerConfigurations")]);
    if Truthy(triggers) then withAlarms["TriggerConfigurations" := triggers.value] else withAlarms
  }

  /**
    `buildFnDeploymentGroup({ codeDeployAppName, codeDeployGroupName,
    codeDeployRoleArn, deploymentSettings })`: a blue/green group with traffic
    control and automatic rollback, the deployment type of the settings, an
    alarm configuration only when alarms are listed, the given role or the
    generated one, and the settings' trigger configurations when present.
   */
  function BuildFnDeploymentGroup(appName: string, groupName: string, roleArn: Option<Json>, settings: Json): (r: Json)
    ensures r.JObj? && r.fields.Keys == {"Type", "Properties"}
    ensures Get(r, [Key("Type")]) == Some(JStr(DeploymentGroupType))
    ensures Property(r, "ApplicationName") == Some(Ref(appName))
    ensures Property(r, "DeploymentGroupName") == Some(JStr(groupName))
    ensures Property(r, "AutoRollbackConfiguration") == Some(AutoRollbackConfiguration)
    ensures Property(r, "DeploymentStyle") == Some(DeploymentStyle)
    ensures Property(r, "DeploymentConfigName") == Some(DeploymentConfigName(Get(settings, [Key("type")])))
    ensures Property(r, "ServiceRoleArn") == Some(ServiceRoleArn(roleArn))
    ensures Property(r, "AlarmConfiguration") == if Alarms(settings) != [] then Some(AlarmConfiguration(Alarms(settings))) else None
    ensures Property(r, "TriggerConfigurations")
         == if Truthy(Get(settings, [Key("triggerConfigurations")])) then Get(settings, [Key("triggerConfigurations")]) else None
  {
    var m := GroupProperties(appName, groupName, roleArn, settings);
    var r := JObj(map["Type" := JStr(DeploymentGroupType), "Properties" := JObj(m)]);
    var t := JStr(DeploymentGroupType);
    PropertyOf(t, m, "ApplicationName");
    PropertyOf(t, m, "DeploymentGroupName");
    PropertyOf(t, m, "AutoRollbackConfiguration");
    PropertyOf(t, m, "DeploymentStyle");
    PropertyOf(t, m, "DeploymentConfigName");
    PropertyOf(t, m, "ServiceRoleArn");
    PropertyOf(t, m, "AlarmConfiguration");
    PropertyOf(t, m, "TriggerConfigurations");
    r
  }

  /** `Properties.<name>` of a resource. */
  function Property(resource: Json, name: string): Option<Json> {
    Get(resource, [Key("Properties"), Key(name)])
  }

  /** Reading `Properties.<name>` of a resource built from its type and property map. */
  lemma PropertyOf(t: Json, m: map<string, Json>, name: string)
    ensures Property(JObj(map["Type" := t, "Properties" := JObj(m)]), name)
         == if name in m then Some(m[name]) else None
  {
    var r := JObj(map["Type" := t, "Properties" := JObj(m)]);
    var p := [Key("Properties"), Key(name)];
    assert p[1..] == [Key(name)];
    assert Child(r, p[0]) == Some(JObj(m));
    assert Get(r, p) == Get(JObj(m), [Key(name)]);
    assert [Key(name)][1..] == [];
  }

  /** What the alarm configuration says: enabled, one entry per alarm, in order. */
  lemma AlarmConfigurationShape(alarms: seq<Json>)
    requires alarms != []
    ensures Get(AlarmConfiguration(alarms), [Key("Enabled")]) == Some(JBool(true))
    ensures match Get(AlarmConfiguration(alarms), [Key("Alarms")])
      case Some(JArr(entries)) =>
        |entries| == |alarms| && forall i :: 0 <= i < |alarms| ==> entries[i] == AlarmEntry(alarms[i])
      case _ => false
  {
  }

  /** The skeleton every expected deployment group of the test file starts from. */
  const SkeletonProperties: map<string, Json> := map[
    "ApplicationName" := Ref(""),
    "DeploymentGroupName" := JStr(""),
    "AutoRollbackConfiguration" := AutoRollbackConfiguration,
    "ServiceRoleArn" := GeneratedServiceRoleArn,
    "DeploymentConfigName" := DeploymentConfigName(Some(JStr(""))),
    "DeploymentStyle" := DeploymentStyle]

  /**
    The deployment group as the test file describes it: the skeleton with the
    role, application, group name, alarms, configuration name and triggers
    written in by `set`.
   */
  function ExpectedDeploymentGroup(appName: string, groupName: string, roleArn: Option<Json>, settings: Json): Json
    requires Get(settings, [Key("type")]).Some?
  {
    var alarms := Alarms(settings);
    var triggers := Get(settings, [Key("triggerConfigurations")]);
    var g0 := Group(SkeletonProperties);
    var g1 := if Truthy(roleArn) then Set(g0, [Key("Properties"), Key("ServiceRoleArn")], roleArn.value) else g0;
    var g2 := Set(g1, [Key("Properties"), Key("ApplicationName")], Ref(appName));
    var g3 := Set(g2, [Key("Properties"), Key("DeploymentGroupName")], JStr(groupName));
    var g4 :=
      if alarms != [] then
        Set(g3, [Key("Properties"), Key("AlarmConfiguration")],
          JObj(map["Alarms" := JArr(AlarmEntries(alarms)), "Enabled" := JBool(true)]))
      else g3;
    var g5 := Set(g4, [Key("Properties"), Key("DeploymentConfigName"), Key("Fn::Sub"), Idx(1), Key("ConfigName")],
      Get(settings, [Key("type")]).value);
    if Truthy(triggers) then Set(g5, [Key("Properties"), Key("TriggerConfigurations")], triggers.value) else g5
  }

  /** A deployment group with the given `Properties`. */
  function Group(m: map<string, Json>): Json {
    JObj(map["Type" := JStr(DeploymentGroupType), "Properties" := JObj(m)])
  }

  /** A write below one property of a deployment group rewrites that property only. */
  lemma SetInGroup(m: map<string, Json>, name: string, q: Path, v: Json)
    requires q == [] || (name in m && m[name].IsContainer())
    ensures Set(Group(m), [Key("Properties"), Key(name)] + q, v)
         == Group(m[name := if q == [] then v else Set(m[name], q, v)])
  {
    var p := [Key("Properties"), Key(name)] + q;
    assert p[0] == Key("Properties") && p[1..] == [Key(name)] + q;
    assert Node(Child(Group(m), p[0]), p[1..]) == JObj(m);
    var p1 := [Key(name)] + q;
    assert p1[0] == Key(name) && p1[1..] == q;
    assert q != [] ==> Node(Child(JObj(m), p1[0]), q) == m[name];
    var n := if q == [] then v else Set(m[name], q, v);
    assert Set(JObj(m), p1, v) == JObj(m[name := n]);
    assert Group(m).fields["Properties" := JObj(m[name := n])] == Group(m[name := n]).fields;
  }

  const ConfigNamePath: Path := [Key("Fn::Sub"), Idx(1), Key("ConfigName")]

  /** Writing the deployment type into the `Fn::Sub` variables. */
  lemma SetConfigName(x: Json, y: Json)
    ensures Set(DeploymentConfigName(Some(x)), ConfigNamePath, y) == DeploymentConfigName(Some(y))
  {
    var vars := JObj(map["ConfigName" := x]);
    var sub := JArr([JStr(ConfigNameTemplate), vars]);
    assert ConfigNamePath[1..] == [Idx(1), Key("ConfigName")];
    assert ConfigNamePath[1..][1..] == [Key("ConfigName")];
    assert [Key("ConfigName")][1..] == [];
    assert Set(vars, [Key("ConfigName")], y) == JObj(map["ConfigName" := y]);
    assert Set(sub, [Idx(1), Key("ConfigName")], y) == JArr([JStr(ConfigNameTemplate), JObj(map["ConfigName" := y])]);
  }

  /** A conditional write of one property, as the test file's optional `set`s do. */
  lemma SetPropertyIf(m: map<string, Json>, name: string, c: bool, v: Json)
    ensures (if c then Set(Group(m), [Key("Properties"), Key(name)], v) else Group(m))
         == Group(if c then m[name := v] else m)
  {
    SetInGroup(m, name, [], v);
  }

  /** Writing the deployment type into a group whose configuration name has a `ConfigName`. */
  lemma SetGroupConfigName(m: map<string, Json>, x: Json, y: Json)
    requires "DeploymentConfigName" in m && m["DeploymentConfigName"] == DeploymentConfigName(Some(x))
    ensures Set(Group(m), [Key("Properties"), Key("DeploymentConfigName"), Key("Fn::Sub"), Idx(1), Key("ConfigName")], y)
         == Group(m["DeploymentConfigName" := DeploymentConfigName(Some(y))])
  {
    SetConfigName(x, y);
    SetInGroup(m, "DeploymentConfigName", ConfigNamePath, y);
    assert [Key("Properties"), Key("DeploymentConfigName")] + ConfigNamePath
        == [Key("Properties"), Key("DeploymentConfigName"), Key("Fn::Sub"), Idx(1), Key("ConfigName")];
  }

  /** Overwriting four of six distinct keys of a map display, in the test file's order. */
  lemma Overwrite(k0: string, k1: string, k2: string, k3: string, k4: string, k5: string,
                  v0: Json, v1: Json, v2: Json, v3: Json, v4: Json, v5: Json,
                  s: Json, a: Json, g: Json, d: Json)
    requires k0 != k1 && k0 != k2 && k0 != k3 && k0 != k4 && k0 != k5
    requires k1 != k2 && k1 != k3 && k1 != k4 && k1 != k5
    requires k2 != k3 && k2 != k4 && k2 != k5
    requires k3 != k4 && k3 != k5 && k4 != k5
    ensures var skeleton := map[k0 := v0, k1 := v1, k2 := v2, k3 := v3, k4 := v4, k5 := v5];
      && skeleton[k3 := v3] == skeleton
      && skeleton[k3 := s][k0 := a][k1 := g][k4 := d] == map[k0 := a, k1 := g, k2 := v2, k3 := s, k4 := d, k5 := v5]
  {
    var e: map<string, Json> := map[];
    OverwriteKey(e[k0 := v0][k1 := v1][k2 := v2][k3 := v3][k4 := v4], k5, v5, v5);
    SwapKeys(e[k0 := v0][k1 := v1][k2 := v2][k3 := v3][k4 := v4], k5, k3, v5, v3);
    SwapKeys(e[k0 := v0][k1 := v1][k2 := v2][k3 := v3], k4, k3, v4, v3);
    OverwriteKey(e[k0 := v0][k1 := v1][k2 := v2], k3, v3, v3);
    // k3 := s moves down to its place.
    SwapKeys(e[k0 := v0][k1 := v1][k2 := v2][k3 := v3][k4 := v4], k5, k3, v5, s);
    SwapKeys(e[k0 := v0][k1 := v1][k2 := v2][k3 := v3], k4, k3, v4, s);
    OverwriteKey(e[k0 := v0][k1 := v1][k2 := v2], k3, v3, s);
    // k0 := a moves down to its place.
    SwapKeys(e[k0 := v0][k1 := v1][k2 := v2][k3 := s][k4 := v4], k5, k0, v5, a);
    SwapKeys(e[k0 := v0][k1 := v1][k2 := v2][k3 := s], k4, k0, v4, a);
    SwapKeys(e[k0 := v0][k1 := v1][k2 := v2], k3, k0, s, a);
    SwapKeys(e[k0 := v0][k1 := v1], k2, k0, v2, a);
    SwapKeys(e[k0 := v0], k1, k0, v1, a);
    OverwriteKey(e, k0, v0, a);
    // k1 := g moves down to its place.
    SwapKeys(e[k0 := a][k1 := v1][k2 := v2][k3 := s][k4 := v4], k5, k1, v5, g);
    SwapKeys(e[k0 := a][k1 := v1][k2 := v2][k3 := s], k4, k1, v4, g);
    SwapKeys(e[k0 := a][k1 := v1][k2 := v2], k3, k1, s, g);
    SwapKeys(e[k0 := a][k1 := v1], k2, k1, v2, g);
    OverwriteKey(e[k0 := a], k1, v1, g);
    // k4 := d moves down to its place.
    SwapKeys(e[k0 := a][k1 := g][k2 := v2][k3 := s][k4 := v4], k5, k4, v5, d);
    OverwriteKey(e[k0 := a][k1 := g][k2 := v2][k3 := s], k4, v4, d);
  }

  /** The skeleton's properties, overwritten in the test file's order, are the builder's properties. */
  lemma SameProperties(appName: string, groupName: string, roleArn: Option<Json>, settings: Json, configType: Json)
    requires Get(settings, [Key("type")]) == Some(configType)
    ensures
      var alarms := Alarms(settings);
      var triggers := Get(settings, [Key("triggerConfigurations")]);
      var m1 := if Truthy(roleArn) then SkeletonProperties["ServiceRoleArn" := roleArn.value] else SkeletonProperties;
      var m3 := m1["ApplicationName" := Ref(appName)]["DeploymentGroupName" := JStr(groupName)];
      var m4 := if alarms != [] then m3["AlarmConfiguration" := AlarmConfiguration(alarms)] else m3;
      var m5 := m4["DeploymentConfigName" := DeploymentConfigName(Some(configType))];
      var m6 := if Truthy(triggers) then m5["TriggerConfigurations" := triggers.value] else m5;
      && "DeploymentConfigName" in m4
      && m4["DeploymentConfigName"] == DeploymentConfigName(Some(JStr("")))
      && m6 == GroupProperties(appName, groupName, roleArn, settings)
  {
    PropertyNamesDistinct();
    var alarms := Alarms(settings);
    var d := DeploymentConfigName(Some(configType));
    Overwrite("ApplicationName", "DeploymentGroupName", "AutoRollbackConfiguration",
      "ServiceRoleArn", "DeploymentConfigName", "DeploymentStyle",
      Ref(""), JStr(""), AutoRollbackConfiguration, GeneratedServiceRoleArn,
      DeploymentConfigName(Some(JStr(""))), DeploymentStyle,
      ServiceRoleArn(roleArn), Ref(appName), JStr(groupName), d);
    var m1 := SkeletonProperties["ServiceRoleArn" := ServiceRoleArn(roleArn)];
    var m3 := m1["ApplicationName" := Ref(appName)]["DeploymentGroupName" := JStr(groupName)];
    SwapKeys(m3, "AlarmConfiguration", "DeploymentConfigName", AlarmConfiguration(alarms), d);
  }

  /** The builder produces exactly the deployment group the test file expects, for every input. */
  lemma BuildMatchesExpected(appName: string, groupName: string, roleArn: Option<Json>, settings: Json)
    requires Get(settings, [Key("type")]).Some?
    ensures BuildFnDeploymentGroup(appName, groupName, roleArn, settings)
         == ExpectedDeploymentGroup(appName, groupName, roleArn, settings)
  {
    var configType := Get(settings, [Key("type")]).value;
    var alarms := Alarms(settings);
    var triggers := Get(settings, [Key("triggerConfigurations")]);
    SameProperties(appName, groupName, roleArn, settings, configType);
    var m0 := SkeletonProperties;
    var m1 := if Truthy(roleArn) then m0["ServiceRoleArn" := roleArn.value] else m0;
    SetPropertyIf(m0, "ServiceRoleArn", Truthy(roleArn), roleArn.GetOr(JNull));
    var m2 := m1["ApplicationName" := Ref(appName)];
    SetPropertyIf(m1, "ApplicationName", true, Ref(appName));
    var m3 := m2["DeploymentGroupName" := JStr(groupName)];
    SetPropertyIf(m2, "DeploymentGroupName", true, JStr(groupName));
    var m4 := if alarms != [] then m3["AlarmConfiguration" := AlarmConfiguration(alarms)] else m3;
    SetPropertyIf(m3, "AlarmConfiguration", alarms != [], AlarmConfiguration(alarms));
    var m5 := m4["DeploymentConfigName" := DeploymentConfigName(Some(configType))];
    SetGroupConfigName(m4, JStr(""), configType);
    var m6 := if Truthy(triggers) then m5["TriggerConfigurations" := triggers.value] else m5;
    SetPropertyIf(m5, "TriggerConfigurations", Truthy(triggers), triggers.GetOr(JNull));
  }

  /** The test file's first scenario: a named alarm and an alarm object, in that order. */
  lemma AlarmsExample()
    ensures
      var settings := JObj(map[
        "type" := JStr("Linear10PercentEvery1Minute"),
        "alarms" := JArr([JStr("Alarm1"), JObj(map["name" := JStr("Alarm2")])])]);
      var group := BuildFnDeploymentGroup("MyCDApp", "canary-deployments-test-dev-FirstLambdaFunctionDeploymentGroup", None, settings);
      Get(group, [Key("Properties"), Key("AlarmConfiguration")]) == Some(JObj(map[
        "Alarms" := JArr([JObj(map["Name" := Ref("Alarm1")]), JObj(map["Name" := JStr("Alarm2")])]),
        "Enabled" := JBool(true)]))
  {
    var alarms := [JStr("Alarm1"), JObj(map["name" := JStr("Alarm2")])];
    var settings := JObj(map["type" := JStr("Linear10PercentEvery1Minute"), "alarms" := JArr(alarms)]);
    assert "alarms" != "type";
    assert Get(settings, [Key("alarms")]) == Get(JArr(alarms), []);
    assert Alarms(settings) == alarms;
    assert Get(alarms[1], [Key("name")]) == Get(JStr("Alarm2"), []);
    var entries := AlarmEntries(alarms);
    assert entries == [JObj(map["Name" := Ref("Alarm1")]), JObj(map["Name" := JStr("Alarm2")])];
  }
}
