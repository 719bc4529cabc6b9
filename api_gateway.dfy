/**
  API Gateway integrations and authorizers: the rewrites that point a REST
  method, an HTTP-API integration or an HTTP-API authorizer at the function's
  alias instead of the function.  Each builds an invocation URI as an
  `Fn::Join` over fixed ARN fragments and writes it at one path.
 */
module ApiGateway {
  import opened Wrappers
  import opened Json

  /** `{ 'Fn::Join': ['', parts] }`. */
  function Join(parts: seq<Json>): Json {
    JObj(map["Fn::Join" := JArr([JStr(""), JArr(parts)])])
  }

  /** The parts of an `Fn::Join` with an empty separator, if `j` is one. */
  function JoinedParts(j: Json): Option<seq<Json>> {
    match Get(j, [Key("Fn::Join")])
    case Some(JArr(args)) =>
      if j.fields.Keys == {"Fn::Join"} && |args| == 2 && args[0] == JStr("") && args[1].JArr?
      then Some(args[1].items)
      else None
    case _ => None
  }

  /** The invocation URI of a REST API method for `alias`. */
  function BuildUriForAlias(alias: string): (r: Json)
    ensures JoinedParts(r).Some?
    ensures var parts := JoinedParts(r).value;
      && |parts| == 5
      && parts[0] == JStr("arn:aws:apigateway:")
      && parts[1] == Ref("AWS::Region")
      && parts[2] == JStr(":lambda:path/2015-03-31/functions/")
      && parts[3] == Ref(alias)
      && parts[4] == JStr("/invocations")
  {
    Join([
      JStr("arn:aws:apigateway:"),
      Ref("AWS::Region"),
      JStr(":lambda:path/2015-03-31/functions/"),
      Ref(alias),
      JStr("/invocations")
    ])
  }

  /** The invocation URI of an HTTP API integration or authorizer for `alias`. */
  function BuildV2UriForAlias(alias: string): (r: Json)
    ensures JoinedParts(r).Some?
    ensures var parts := JoinedParts(r).value;
      && |parts| == 7
      && parts[0] == JStr("arn:")
      && parts[1] == Ref("AWS::Partition")
      && parts[2] == JStr(":apigateway:")
      && parts[3] == Ref("AWS::Region")
      && parts[4] == JStr(":lambda:path/2015-03-31/functions/")
      && parts[5] == Ref(alias)
      && parts[6] == JStr("/invocations")
  {
    Join([
      JStr("arn:"),
      Ref("AWS::Partition"),
      JStr(":apigateway:"),
      Ref("AWS::Region"),
      JStr(":lambda:path/2015-03-31/functions/"),
      Ref(alias),
      JStr("/invocations")
    ])
  }

  /** The alias a URI built by this module invokes: the one `Ref` that is not a pseudo parameter. */
  function AliasOfUri(uri: Json): Option<string> {
    match JoinedParts(uri)
    case Some(parts) =>
      if |parts| == 5 && parts[3].JObj? && "Ref" in parts[3].fields && parts[3].fields["Ref"].JStr? then
        Some(parts[3].fields["Ref"].s)
      else if |parts| == 7 && parts[5].JObj? && "Ref" in parts[5].fields && parts[5].fields["Ref"].JStr? then
        Some(parts[5].fields["Ref"].s)
      else None
    case None => None
  }

  /** Both URIs name the alias they were built for, so different aliases give different URIs. */
  lemma UriNamesAlias(alias: string)
    ensures AliasOfUri(BuildUriForAlias(alias)) == Some(alias)
    ensures AliasOfUri(BuildV2UriForAlias(alias)) == Some(alias)
  {
  }

  const MethodUriPath: Path := [Key("Properties"), Key("Integration"), Key("Uri")]
  const IntegrationUriPath: Path := [Key("Properties"), Key("IntegrationUri")]
  const AuthorizerUriPath: Path := [Key("Properties"), Key("AuthorizerUri")]

  /**
    `replaceMethodUriWithAlias`: a copy of the `AWS::ApiGateway::Method` with
    `Properties.Integration.Uri` invoking the alias; every other path, among
    them `Type`, `DependsOn` and the other integration fields, is unchanged.
   */
  function ReplaceMethodUriWithAlias(apiMethod: Json, alias: string): (r: Json)
    ensures CanSet(apiMethod, MethodUriPath) ==> Get(r, MethodUriPath) == Some(BuildUriForAlias(alias))
    ensures CanSet(apiMethod, MethodUriPath) ==> OnlyChangedAt(apiMethod, r, MethodUriPath)
    ensures CanSet(apiMethod, MethodUriPath) ==>
      forall k :: k != "Uri" ==>
        Get(r, [Key("Properties"), Key("Integration"), Key(k)]) == Get(apiMethod, [Key("Properties"), Key("Integration"), Key(k)])
  {
    var uri := BuildUriForAlias(alias);
    assert CanSet(apiMethod, MethodUriPath) ==>
      (Get(Set(apiMethod, MethodUriPath, uri), MethodUriPath) == Some(uri) && OnlyChangedAt(apiMethod, Set(apiMethod, MethodUriPath, uri), MethodUriPath)) by {
      if CanSet(apiMethod, MethodUriPath) {
        SetOnlyChanges(apiMethod, MethodUriPath, uri);
      }
    }
    assert forall k :: k != "Uri" ==> Apart(MethodUriPath, [Key("Properties"), Key("Integration"), Key(k)]) by {
      forall k | k != "Uri" {
        ApartAt(MethodUriPath, [Key("Properties"), Key("Integration"), Key(k)], 2);
      }
    }
    Set(apiMethod, MethodUriPath, uri)
  }

  /**
    `replaceV2IntegrationUriWithAlias`: a copy of the
    `AWS::ApiGatewayV2::Integration` with `Properties.IntegrationUri` invoking
    the alias; every other path is unchanged.
   */
  function ReplaceV2IntegrationUriWithAlias(integration: Json, alias: string): (r: Json)
    ensures CanSet(integration, IntegrationUriPath) ==> Get(r, IntegrationUriPath) == Some(BuildV2UriForAlias(alias))
    ensures CanSet(integration, IntegrationUriPath) ==> OnlyChangedAt(integration, r, IntegrationUriPath)
  {
    var uri := BuildV2UriForAlias(alias);
    assert CanSet(integration, IntegrationUriPath) ==>
      (Get(Set(integration, IntegrationUriPath, uri), IntegrationUriPath) == Some(uri) && OnlyChangedAt(integration, Set(integration, IntegrationUriPath, uri), IntegrationUriPath)) by {
      if CanSet(integration, IntegrationUriPath) {
        SetOnlyChanges(integration, IntegrationUriPath, uri);
      }
    }
    Set(integration, IntegrationUriPath, uri)
  }

  /**
    `replaceV2AuthorizerUriWithAlias`: a copy of the
    `AWS::ApiGatewayV2::Authorizer` with `Properties.AuthorizerUri` invoking
    the alias; every other path is unchanged.
   */
  function ReplaceV2AuthorizerUriWithAlias(authorizer: Json, alias: string): (r: Json)
    ensures CanSet(authorizer, AuthorizerUriPath) ==> Get(r, AuthorizerUriPath) == Some(BuildV2UriForAlias(alias))
    ensures CanSet(authorizer, AuthorizerUriPath) ==> OnlyChangedAt(authorizer, r, AuthorizerUriPath)
  {
    var uri := BuildV2UriForAlias(alias);
    assert CanSet(authorizer, AuthorizerUriPath) ==>
      (Get(Set(authorizer, AuthorizerUriPath, uri), AuthorizerUriPath) == Some(uri) && OnlyChangedAt(authorizer, Set(authorizer, AuthorizerUriPath, uri), AuthorizerUriPath)) by {
      if CanSet(authorizer, AuthorizerUriPath) {
        SetOnlyChanges(authorizer, AuthorizerUriPath, uri);
      }
    }
    Set(authorizer, AuthorizerUriPath, uri)
  }

  /** `Type` and `DependsOn` survive every rewrite. */
  lemma RewritesKeepTypeAndDependsOn(resource: Json, alias: string, k: string)
    requires k == "Type" || k == "DependsOn"
    ensures CanSet(resource, MethodUriPath) ==>
      Get(ReplaceMethodUriWithAlias(resource, alias), [Key(k)]) == Get(resource, [Key(k)])
    ensures CanSet(resource, IntegrationUriPath) ==>
      Get(ReplaceV2IntegrationUriWithAlias(resource, alias), [Key(k)]) == Get(resource, [Key(k)])
    ensures CanSet(resource, AuthorizerUriPath) ==>
      Get(ReplaceV2AuthorizerUriWithAlias(resource, alias), [Key(k)]) == Get(resource, [Key(k)])
  {
    ApartAt(MethodUriPath, [Key(k)], 0);
    ApartAt(IntegrationUriPath, [Key(k)], 0);
    ApartAt(AuthorizerUriPath, [Key(k)], 0);
  }

  /** Each rewrite is idempotent: rewriting a rewritten resource again changes nothing. */
  lemma RewritesIdempotent(resource: Json, alias: string)
    ensures ReplaceMethodUriWithAlias(ReplaceMethodUriWithAlias(resource, alias), alias)
         == ReplaceMethodUriWithAlias(resource, alias)
    ensures ReplaceV2IntegrationUriWithAlias(ReplaceV2IntegrationUriWithAlias(resource, alias), alias)
         == ReplaceV2IntegrationUriWithAlias(resource, alias)
    ensures ReplaceV2AuthorizerUriWithAlias(ReplaceV2AuthorizerUriWithAlias(resource, alias), alias)
         == ReplaceV2AuthorizerUriWithAlias(resource, alias)
  {
    SetSetSame(resource, MethodUriPath, BuildUriForAlias(alias), BuildUriForAlias(alias));
    SetSetSame(resource, IntegrationUriPath, BuildV2UriForAlias(alias), BuildV2UriForAlias(alias));
    SetSetSame(resource, AuthorizerUriPath, BuildV2UriForAlias(alias), BuildV2UriForAlias(alias));
  }

  /**
    What a rewrite produces does not depend on what the target path held
    before: two resources that agree everywhere else are rewritten alike.
   */
  lemma RewriteForgetsOldTarget(a: Json, b: Json, alias: string)
    requires CanSet(a, MethodUriPath) && CanSet(b, MethodUriPath)
    requires OnlyChangedAt(a, b, MethodUriPath)
    ensures forall q :: Get(ReplaceMethodUriWithAlias(a, alias), q) == Get(ReplaceMethodUriWithAlias(b, alias), q)
             || (IsPrefix(q, MethodUriPath) && q != MethodUriPath)
  {
    var ra := ReplaceMethodUriWithAlias(a, alias);
    var rb := ReplaceMethodUriWithAlias(b, alias);
    forall q | !(IsPrefix(q, MethodUriPath) && q != MethodUriPath)
      ensures Get(ra, q) == Get(rb, q)
    {
      if Apart(MethodUriPath, q) {
      } else if IsPrefix(MethodUriPath, q) {
        var below := q[|MethodUriPath|..];
        assert q == MethodUriPath + below;
        GetAppend(ra, MethodUriPath, below);
        GetAppend(rb, MethodUriPath, below);
      }
    }
  }
}
