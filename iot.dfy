/**
  IoT topic rules: the rewrite that points the rule's first action at the
  alias.  It checks nothing: whichever function the first action invoked,
  it now invokes the alias.
 */
module Iot {
  import opened Wrappers
  import opened Json

  const ActionsPath: Path := [Key("Properties"), Key("TopicRulePayload"), Key("Actions")]
  const FunctionArnPath: Path :=
    [Key("Properties"), Key("TopicRulePayload"), Key("Actions"), Idx(0), Key("Lambda"), Key("FunctionArn")]

  /**
    `replaceIotTopicRuleActionArnWithAlias`: a copy of the rule with
    `Actions[0].Lambda.FunctionArn = { Ref: alias }`; every other path, the
    other actions among them, is unchanged.
   */
  function ReplaceIotTopicRuleActionArnWithAlias(rule: Json, alias: string): (r: Json)
    ensures CanSet(rule, FunctionArnPath) ==> Get(r, FunctionArnPath) == Some(Ref(alias))
    ensures CanSet(rule, FunctionArnPath) ==> OnlyChangedAt(rule, r, FunctionArnPath)
    ensures CanSet(rule, FunctionArnPath) ==>
      forall k: nat :: k != 0 ==> Get(r, ActionsPath + [Idx(k)]) == Get(rule, ActionsPath + [Idx(k)])
  {
    assert CanSet(rule, FunctionArnPath) ==>
      (Get(Set(rule, FunctionArnPath, Ref(alias)), FunctionArnPath) == Some(Ref(alias))
       && OnlyChangedAt(rule, Set(rule, FunctionArnPath, Ref(alias)), FunctionArnPath)) by {
      if CanSet(rule, FunctionArnPath) {
        SetOnlyChanges(rule, FunctionArnPath, Ref(alias));
      }
    }
    assert forall k: nat :: k != 0 ==> Apart(FunctionArnPath, ActionsPath + [Idx(k)]) by {
      forall k: nat | k != 0 {
        ApartAt(FunctionArnPath, ActionsPath + [Idx(k)], 3);
      }
    }
    Set(rule, FunctionArnPath, Ref(alias))
  }

  /** Rewriting a rewritten rule again with the same alias changes nothing. */
  lemma RewriteIdempotent(rule: Json, alias: string)
    ensures ReplaceIotTopicRuleActionArnWithAlias(ReplaceIotTopicRuleActionArnWithAlias(rule, alias), alias)
         == ReplaceIotTopicRuleActionArnWithAlias(rule, alias)
  {
    SetSetSame(rule, FunctionArnPath, Ref(alias), Ref(alias));
  }

  /** The topic rule of the library's own example, with `target` as its one action's `FunctionArn`. */
  function ExampleRule(target: Json): Json {
    JObj(map[
      "Type" := JStr("AWS::IoT::TopicRule"),
      "Properties" := JObj(map["TopicRulePayload" := ExamplePayload(target)])])
  }

  function ExamplePayload(target: Json): Json {
    JObj(map[
      "RuleDisabled" := JStr("false"),
      "Sql" := JStr("SELECT * FROM 'some_topic'"),
      "Actions" := JArr([ExampleAction(target)])])
  }

  function ExampleAction(target: Json): Json {
    JObj(map["Lambda" := JObj(map["FunctionArn" := target])])
  }

  /** The example rule, rewritten: only the `FunctionArn` changes; `Sql` and `RuleDisabled` survive. */
  lemma ExampleRewrite()
    ensures var getAtt := JObj(map["Fn::GetAtt" := JArr([JStr("HelloLambdaFunction"), JStr("Arn")])]);
      && CanSet(ExampleRule(getAtt), FunctionArnPath)
      && ReplaceIotTopicRuleActionArnWithAlias(ExampleRule(getAtt), "TheFunctionAlias")
         == ExampleRule(Ref("TheFunctionAlias"))
  {
    var getAtt := JObj(map["Fn::GetAtt" := JArr([JStr("HelloLambdaFunction"), JStr("Arn")])]);
    ExampleCanSet(getAtt);
    ExampleSet(getAtt, Ref("TheFunctionAlias"));
  }

  lemma ExampleCanSet(target: Json)
    ensures CanSet(ExampleRule(target), FunctionArnPath)
  {
    var p := FunctionArnPath;
    var rule := ExampleRule(target);
    var props := rule.fields["Properties"];
    var payload := props.fields["TopicRulePayload"];
    var actions := payload.fields["Actions"];
    var lambda := actions.items[0].fields["Lambda"];
    assert CanSet(lambda, p[5..]);
    assert CanSet(actions.items[0], p[4..]);
    assert CanSet(actions, p[3..]);
    assert CanSet(payload, p[2..]);
    assert CanSet(props, p[1..]);
  }

  lemma ExampleSet(target: Json, v: Json)
    ensures Set(ExampleRule(target), FunctionArnPath, v) == ExampleRule(v)
  {
    var p := FunctionArnPath;
    var props := JObj(map["TopicRulePayload" := ExamplePayload(target)]);
    var props' := JObj(map["TopicRulePayload" := ExamplePayload(v)]);
    ExampleSetPayload(target, v);
    assert p[1..][1..] == p[2..];
    assert Set(props, p[1..], v) == props';
    assert Set(ExampleRule(target), p, v) == JObj(ExampleRule(target).fields["Properties" := props']);
    OverwriteKey(map["Type" := JStr("AWS::IoT::TopicRule")], "Properties", props, props');
  }

  lemma ExampleSetPayload(target: Json, v: Json)
    ensures Set(ExamplePayload(target), FunctionArnPath[2..], v) == ExamplePayload(v)
  {
    var p := FunctionArnPath;
    var payload := ExamplePayload(target);
    ExampleSetAction(target, v);
    assert Set(JArr([ExampleAction(target)]), p[3..], v) == JArr([ExampleAction(v)]) by {
      assert p[3..][1..] == p[4..];
    }
    assert p[2..][1..] == p[3..];
    assert payload.fields["Actions" := JArr([ExampleAction(v)])] == ExamplePayload(v).fields;
  }

  lemma ExampleSetAction(target: Json, v: Json)
    ensures Set(ExampleAction(target), FunctionArnPath[4..], v) == ExampleAction(v)
  {
    var p := FunctionArnPath;
    var action := ExampleAction(target);
    var lambda := action.fields["Lambda"];
    assert Set(lambda, p[5..], v) == ExampleAction(v).fields["Lambda"] by {
      assert lambda.fields["FunctionArn" := v] == ExampleAction(v).fields["Lambda"].fields;
    }
    assert p[4..][1..] == p[5..];
    assert action.fields["Lambda" := ExampleAction(v).fields["Lambda"]] == ExampleAction(v).fields;
  }
}
