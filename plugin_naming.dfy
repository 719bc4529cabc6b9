/**
  The names the plugin gives the resources it generates.  The provider's
  naming service (stack name, its alphanumeric form, a function's logical id,
  the execution role's logical id) is outside the plugin and enters as data.
 */
module PluginNaming {
  import opened Wrappers
  import opened Json

  /** The provider's naming service, applied. */
  datatype Naming = Naming(
    stackName: string,
    normalizedStackName: string,
    lambdaLogicalId: string -> string,
    roleLogicalId: string)

  /** The limit CodeDeploy puts on a deployment group name. */
  const MaxDeploymentGroupNameLength := 100

  /** `codeDeployAppName`. */
  function CodeDeployAppName(naming: Naming): string {
    naming.normalizedStackName + "DeploymentApplication"
  }

  /** `getFunctionDeploymentGroupId(functionLogicalId)`. */
  function DeploymentGroupId(functionLogicalId: string): (r: string)
    ensures |r| == |functionLogicalId| + 15
    ensures r[..|functionLogicalId|] == functionLogicalId
    ensures r[|functionLogicalId|..] == "DeploymentGroup"
  {
    functionLogicalId + "DeploymentGroup"
  }

  /** Different functions get different deployment group ids. */
  lemma DeploymentGroupIdInjective(a: string, b: string)
    requires DeploymentGroupId(a) == DeploymentGroupId(b)
    ensures a == b
  {
    assert a == DeploymentGroupId(a)[..|a|];
  }

  /**
    `getDeploymentGroupName(id)`: `<stack>-<id>` cut to the first 100
    characters.
   */
  function DeploymentGroupName(stackName: string, groupId: string): (r: string)
    ensures var full := stackName + "-" + groupId;
      && |r| <= MaxDeploymentGroupNameLength
      && |r| <= |full| && r == full[..|r|]
      && (|full| <= MaxDeploymentGroupNameLength ==> r == full)
      && (|full| > MaxDeploymentGroupNameLength ==> |r| == MaxDeploymentGroupNameLength)
  {
    var full := stackName + "-" + groupId;
    if |full| <= MaxDeploymentGroupNameLength then full else full[..MaxDeploymentGroupNameLength]
  }

  /** The name starts with the stack name whenever the stack name leaves room for it. */
  lemma DeploymentGroupNameStartsWithStack(stackName: string, groupId: string)
    requires |stackName| < MaxDeploymentGroupNameLength
    ensures var r := DeploymentGroupName(stackName, groupId);
      |stackName| < |r| && r[..|stackName|] == stackName && r[|stackName|] == '-'
  {
    var full := stackName + "-" + groupId;
    var r := DeploymentGroupName(stackName, groupId);
    assert full[..|stackName|] == stackName;
    assert full[|stackName|] == '-';
    assert r[..|stackName|] == full[..|r|][..|stackName|];
  }

  /**
    `getFunctionName(hook)`: a truthy name becomes that function's logical id,
    anything else `null` (here `None`).
   */
  function HookFunctionName(naming: Naming, hook: Option<Json>): (r: Option<string>)
    ensures r.Some? <==> Truthy(hook) && hook.value.JStr?
    ensures r.Some? ==> r.value == naming.lambdaLogicalId(hook.value.s)
  {
    if Truthy(hook) && hook.value.JStr? then Some(naming.lambdaLogicalId(hook.value.s)) else None
  }

  /** The decimal digits of `n`. */
  function NatText(n: nat): (r: string)
    ensures |r| >= 1
    ensures forall i :: 0 <= i < |r| ==> '0' <= r[i] <= '9'
    decreases n
  {
    var digit := [(('0' as int) + n % 10) as char];
    if n < 10 then digit else NatText(n / 10) + digit
  }

  /** The number a string of decimal digits denotes. */
  function DigitsValue(s: string): nat
    requires forall i :: 0 <= i < |s| ==> '0' <= s[i] <= '9'
  {
    if s == [] then 0 else DigitsValue(s[..|s| - 1]) * 10 + (s[|s| - 1] as int - '0' as int)
  }

  /** The digits print the number: reading them back gives `n`. */
  lemma {:induction false} NatTextRoundTrip(n: nat)
    ensures DigitsValue(NatText(n)) == n
    decreases n
  {
    var digit := [(('0' as int) + n % 10) as char];
    if n >= 10 {
      NatTextRoundTrip(n / 10);
      var r := NatText(n / 10) + digit;
      assert r[..|r| - 1] == NatText(n / 10);
    }
  }

  /** JavaScript's `String(n)` for an integer. */
  function IntText(n: int): string {
    if n < 0 then "-" + NatText(-n) else NatText(n)
  }

  /**
    How a template literal prints a value: `undefined`, `null`, booleans,
    numbers and strings as themselves, an object as `[object Object]`, an
    array as its elements joined by commas, with `null` elements empty.
   */
  function Text(value: Option<Json>): string {
    match value
    case None => "undefined"
    case Some(j) => JsonText(j)
  }

  function JsonText(j: Json): string
    decreases j, 1
  {
    match j
    case JNull => "null"
    case JBool(b) => if b then "true" else "false"
    case JNum(n) => IntText(n)
    case JStr(s) => s
    case JArr(items) => ElementsText(j, 0)
    case JObj(_) => "[object Object]"
  }

  /** `items.slice(i).join(',')` for the items of the array `j`. */
  function ElementsText(j: Json, i: nat): string
    requires j.JArr? && i <= |j.items|
    decreases j, 0, |j.items| - i
  {
    if i == |j.items| then ""
    else
      var element := if j.items[i].JNull? then "" else JsonText(j.items[i]);
      if i + 1 == |j.items| then element else element + "," + ElementsText(j, i + 1)
  }

  /** The logical id of a function's alias: `${functionName}Alias${alias}`. */
  function AliasId(functionLogicalId: string, alias: Option<Json>): string {
    functionLogicalId + "Alias" + Text(alias)
  }

  /** For one alias setting, different functions get different alias ids. */
  lemma AliasIdInjective(a: string, b: string, alias: Option<Json>)
    requires AliasId(a, alias) == AliasId(b, alias)
    ensures a == b
  {
    var suffix := "Alias" + Text(alias);
    assert AliasId(a, alias) == a + suffix;
    assert AliasId(b, alias) == b + suffix;
    assert |a| == |b|;
    assert a == (a + suffix)[..|a|];
    assert b == (b + suffix)[..|b|];
  }

  /** A string alias is printed as it is, so an alias `live` gives `<fn>Aliaslive`. */
  lemma StringAliasId(functionLogicalId: string, alias: string)
    ensures AliasId(functionLogicalId, Some(JStr(alias))) == functionLogicalId + "Alias" + alias
  {
  }
}
