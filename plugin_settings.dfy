/**
  What the plugin reads from the service definition: which functions ask for
  gradual deployment, whether the current stage is enabled, and the deployment
  settings of one function (the global settings shallow-overridden by the
  function's own).
 */
module PluginSettings {
  import opened Wrappers
  import opened Json

  /** One function of the service: its name and its definition object. */
  datatype ServerlessFunction = ServerlessFunction(name: string, definition: Json)

  /**
    The service as the plugin sees it: its functions in declaration order,
    its `custom` section (`JNull` when there is none, which lodash reads like
    `undefined`) and the stage being deployed.
   */
  datatype Service = Service(functions: seq<ServerlessFunction>, custom: Json, stage: string)

  /** `service.getFunction(name)`. */
  function GetFunction(functions: seq<ServerlessFunction>, name: string): Option<Json> {
    if functions == [] then None
    else if functions[0].name == name then Some(functions[0].definition)
    else GetFunction(functions[1..], name)
  }

  /** `fp.has('deploymentSettings', definition)`: the key is present, whatever its value. */
  predicate HasDeploymentSettings(definition: Json) {
    definition.JObj? && "deploymentSettings" in definition.fields
  }

  /**
    `withDeploymentPreferencesFns`: the names of the functions whose
    definition has `deploymentSettings`, in declaration order.
   */
  function WithDeploymentPreferencesFns(functions: seq<ServerlessFunction>): (r: seq<string>)
    ensures |r| <= |functions|
    ensures forall name :: name in r <==>
      exists f :: f in functions && f.name == name && HasDeploymentSettings(f.definition)
  {
    if functions == [] then []
    else
      assert functions == [functions[0]] + functions[1..];
      var rest := WithDeploymentPreferencesFns(functions[1..]);
      if HasDeploymentSettings(functions[0].definition) then [functions[0].name] + rest else rest
  }

  /**
    `r` is `xs` filtered by `keep` and mapped by `view`, in order: `idx` is
    the increasing sequence of exactly the positions of the kept elements,
    and `r` holds their views in turn, so each kept element appears once.
   */
  ghost predicate InOrderSelection<T, U>(r: seq<U>, xs: seq<T>, keep: T -> bool, view: T -> U, idx: seq<nat>) {
    && |idx| == |r|
    && (forall i :: 0 <= i < |idx| ==> idx[i] < |xs| && keep(xs[idx[i]]) && r[i] == view(xs[idx[i]]))
    && Increasing(idx)
    && (forall k :: 0 <= k < |xs| && keep(xs[k]) ==> k in idx)
  }

  /** Each position comes after the ones before it. */
  predicate Increasing(idx: seq<nat>) {
    forall i, j :: 0 <= i < j < |idx| ==> idx[i] < idx[j]
  }

  /** Position 0 before increasing positive positions is increasing. */
  lemma ZeroThenIncreasing(positions: seq<nat>)
    requires Increasing(positions) && forall i :: 0 <= i < |positions| ==> 0 < positions[i]
    ensures Increasing([0] + positions)
  {
    var idx := [0] + positions;
    forall i, j | 0 <= i < j < |idx|
      ensures idx[i] < idx[j]
    {
      assert idx[j] == positions[j - 1];
      if i > 0 {
        assert idx[i] == positions[i - 1];
      }
    }
  }

  /** Filtering one more element in front extends an in-order selection. */
  lemma SelectionCons<T, U>(x: T, xs: seq<T>, keep: T -> bool, view: T -> U, rest: seq<U>, tail: seq<nat>)
    returns (idx: seq<nat>)
    requires InOrderSelection(rest, xs, keep, view, tail)
    ensures InOrderSelection(if keep(x) then [view(x)] + rest else rest, [x] + xs, keep, view, idx)
  {
    var shifted := ShiftedSelection(x, xs, keep, view, rest, tail);
    if keep(x) {
      idx := [0] + shifted;
      PrependSelection(x, xs, keep, view, rest, shifted);
    } else {
      idx := shifted;
      forall k | 0 <= k < |[x] + xs| && keep(([x] + xs)[k])
        ensures k in idx
      {
        assert k != 0;
      }
    }
  }

  /** A kept element in front goes first, at position 0, before the shifted positions. */
  lemma PrependSelection<T, U>(x: T, xs: seq<T>, keep: T -> bool, view: T -> U, rest: seq<U>, shifted: seq<nat>)
    requires keep(x)
    requires |shifted| == |rest|
    requires forall i :: 0 <= i < |shifted| ==>
      0 < shifted[i] <= |xs| && keep(([x] + xs)[shifted[i]]) && rest[i] == view(([x] + xs)[shifted[i]])
    requires Increasing(shifted)
    requires forall k :: 1 <= k <= |xs| && keep(([x] + xs)[k]) ==> k in shifted
    ensures InOrderSelection([view(x)] + rest, [x] + xs, keep, view, [0] + shifted)
  {
    var idx := [0] + shifted;
    var all := [x] + xs;
    var r := [view(x)] + rest;
    forall i | 0 <= i < |idx|
      ensures idx[i] < |all| && keep(all[idx[i]]) && r[i] == view(all[idx[i]])
    {
      if i > 0 {
        assert idx[i] == shifted[i - 1] && r[i] == rest[i - 1];
      }
    }
    ZeroThenIncreasing(shifted);
    forall k | 0 <= k < |all| && keep(all[k])
      ensures k in idx
    {
      if k > 0 {
        assert k in shifted;
      }
    }
  }

  /** The positions of a selection from `xs`, moved one up, select the same views from `[x] + xs`. */
  lemma ShiftedSelection<T, U>(x: T, xs: seq<T>, keep: T -> bool, view: T -> U, rest: seq<U>, tail: seq<nat>)
    returns (shifted: seq<nat>)
    requires InOrderSelection(rest, xs, keep, view, tail)
    ensures |shifted| == |rest|
    ensures forall i :: 0 <= i < |shifted| ==>
      0 < shifted[i] <= |xs| && keep(([x] + xs)[shifted[i]]) && rest[i] == view(([x] + xs)[shifted[i]])
    ensures Increasing(shifted)
    ensures forall k :: 1 <= k <= |xs| && keep(([x] + xs)[k]) ==> k in shifted
  {
    shifted := seq(|tail|, i requires 0 <= i < |tail| => tail[i] + 1);
    var all := [x] + xs;
    forall i | 0 <= i < |shifted|
      ensures 0 < shifted[i] <= |xs| && keep(all[shifted[i]]) && rest[i] == view(all[shifted[i]])
    {
      assert all[shifted[i]] == xs[tail[i]];
    }
    forall k | 1 <= k <= |xs| && keep(all[k])
      ensures k in shifted
    {
      assert xs[k - 1] == all[k];
      var m :| 0 <= m < |tail| && tail[m] == k - 1;
      assert shifted[m] == k;
    }
  }

  /**
    The filter keeps declaration order and lists each kept function once:
    its result is exactly the names of the functions with
    `deploymentSettings`, in turn.
   */
  lemma {:induction false} WithDeploymentPreferencesFnsInOrder(functions: seq<ServerlessFunction>) returns (idx: seq<nat>)
    ensures InOrderSelection(WithDeploymentPreferencesFns(functions), functions,
                             (f: ServerlessFunction) => HasDeploymentSettings(f.definition), (f: ServerlessFunction) => f.name, idx)
    decreases |functions|
  {
    if functions == [] {
      idx := [];
    } else {
      var tail := WithDeploymentPreferencesFnsInOrder(functions[1..]);
      idx := SelectionCons(functions[0], functions[1..], (f: ServerlessFunction) => HasDeploymentSettings(f.definition), (f: ServerlessFunction) => f.name,
                           WithDeploymentPreferencesFns(functions[1..]), tail);
      assert [functions[0]] + functions[1..] == functions;
    }
  }

  /** `fp.pathOr({}, 'custom.deploymentSettings', service)`. */
  function GlobalSettings(custom: Json): Json {
    match Get(custom, [Key("deploymentSettings")])
    case Some(settings) => settings
    case None => JObj(map[])
  }

  /** `fp.isEmpty`: null, numbers and booleans are empty, containers and strings when they hold nothing. */
  predicate IsEmpty(j: Json) {
    match j
    case JStr(s) => s == ""
    case JArr(items) => items == []
    case JObj(fields) => fields == map[]
    case _ => true
  }

  /** `x` occurs in `s` as a contiguous run of characters. */
  predicate IsSubstring(x: string, s: string) {
    exists i :: 0 <= i <= |s| && OccursAt(x, s, i)
  }

  predicate OccursAt(x: string, s: string, i: nat) {
    i + |x| <= |s| && s[i..i + |x|] == x
  }

  /**
    `fp.includes(x, collection)`: an element of an array, a value of an
    object, a substring of a string; nothing else includes anything.
   */
  predicate Includes(collection: Json, x: string) {
    match collection
    case JArr(items) => JStr(x) in items
    case JObj(fields) => exists k :: k in fields && fields[k] == JStr(x)
    case JStr(s) => IsSubstring(x, s)
    case _ => false
  }

  /** `fp.getOr([], 'stages', globalSettings)`. */
  function EnabledStages(global: Json): Json {
    match Get(global, [Key("stages")])
    case Some(stages) => stages
    case None => JArr([])
  }

  /** `currentStageEnabled()`: no stage list, or one that names the current stage. */
  predicate CurrentStageEnabled(service: Service) {
    var stages := EnabledStages(GlobalSettings(service.custom));
    IsEmpty(stages) || Includes(stages, service.stage)
  }

  /** `shouldDeployDeployGradually()`. */
  predicate ShouldDeployGradually(service: Service) {
    |WithDeploymentPreferencesFns(service.functions)| > 0 && CurrentStageEnabled(service)
  }

  /**
    The gate in full: the pass runs exactly when some function has
    `deploymentSettings` and the global `stages` list is missing or empty or
    holds the current stage.
   */
  lemma GateExactly(service: Service)
    ensures ShouldDeployGradually(service) <==>
      && (exists f :: f in service.functions && HasDeploymentSettings(f.definition))
      && (|| Get(GlobalSettings(service.custom), [Key("stages")]).None?
          || IsEmpty(Get(GlobalSettings(service.custom), [Key("stages")]).value)
          || Includes(Get(GlobalSettings(service.custom), [Key("stages")]).value, service.stage))
  {
    var fns := WithDeploymentPreferencesFns(service.functions);
    if exists f :: f in service.functions && HasDeploymentSettings(f.definition) {
      var f :| f in service.functions && HasDeploymentSettings(f.definition);
      assert f.name in fns;
    }
    if |fns| > 0 {
      assert fns[0] in fns;
    }
  }

  /** A non-empty stage list that does not name the current stage switches the pass off. */
  lemma StageListExcludes(service: Service, stages: seq<Json>)
    requires Get(GlobalSettings(service.custom), [Key("stages")]) == Some(JArr(stages))
    requires stages != [] && JStr(service.stage) !in stages
    ensures !ShouldDeployGradually(service)
  {
  }

  /** The own properties `Object.assign` copies from a settings value; see README for strings and arrays. */
  function OwnProperties(source: Option<Json>): map<string, Json> {
    match source
    case Some(JObj(fields)) => fields
    case _ => map[]
  }

  /** `service.getFunction(name).deploymentSettings`. */
  function FunctionSettings(service: Service, name: string): Option<Json> {
    match GetFunction(service.functions, name)
    case Some(definition) => Get(definition, [Key("deploymentSettings")])
    case None => None
  }

  /**
    `getDeploymentSettingsFor(name)`: `Object.assign({}, globalSettings,
    fnDeploymentSetting)`.  A key the function sets has the function's value;
    any other key has the global value; there are no other keys.
   */
  function DeploymentSettingsFor(service: Service, name: string): (r: Json)
    ensures r.JObj?
    ensures var own := OwnProperties(FunctionSettings(service, name));
            var global := OwnProperties(Some(GlobalSettings(service.custom)));
      && r.fields.Keys == own.Keys + global.Keys
      && (forall k :: k in own ==> r.fields[k] == own[k])
      && (forall k :: k in global && k !in own ==> r.fields[k] == global[k])
  {
    JObj(OwnProperties(Some(GlobalSettings(service.custom))) + OwnProperties(FunctionSettings(service, name)))
  }

  /** Reading one setting of a function: its own value if it has one, the global one otherwise. */
  lemma SettingOf(service: Service, name: string, key: string)
    ensures Get(DeploymentSettingsFor(service, name), [Key(key)])
         == if key in OwnProperties(FunctionSettings(service, name)) then Some(OwnProperties(FunctionSettings(service, name))[key])
            else if key in OwnProperties(Some(GlobalSettings(service.custom))) then Some(OwnProperties(Some(GlobalSettings(service.custom)))[key])
            else None
  {
    assert [Key(key)][1..] == [];
  }
}
