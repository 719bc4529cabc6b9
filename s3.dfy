/**
  S3 bucket notifications: the rewrite that points the bucket's Lambda
  notification for one function at that function's alias.
 */
module S3 {
  import opened Wrappers
  import opened Json

  const LambdaConfigurationsPath: Path :=
    [Key("Properties"), Key("NotificationConfiguration"), Key("LambdaConfigurations")]

  /** Where a notification names its target function: `Function.Fn::GetAtt[0]`. */
  const TargetNamePath: Path := [Key("Function"), Key("Fn::GetAtt"), Idx(0)]

  /** The notification invokes the function `fnId`. */
  predicate IsTarget(configuration: Json, fnId: string) {
    Get(configuration, TargetNamePath) == Some(JStr(fnId))
  }

  /**
    The bucket's Lambda notifications; `findIndex` finds nothing in a missing
    or non-array value, so those read as no notifications.
   */
  function Configurations(bucket: Json): seq<Json> {
    match Get(bucket, LambdaConfigurationsPath)
    case Some(JArr(items)) => items
    case _ => []
  }

  /** `findIndex`: the first notification for `fnId`, `None` for JavaScript's -1. */
  function FindIndex(configurations: seq<Json>, fnId: string): (r: Option<nat>)
    ensures r.Some? ==> r.value < |configurations| && IsTarget(configurations[r.value], fnId)
    ensures r.Some? ==> forall k :: 0 <= k < r.value ==> !IsTarget(configurations[k], fnId)
    ensures r.None? <==> forall k :: 0 <= k < |configurations| ==> !IsTarget(configurations[k], fnId)
  {
    if configurations == [] then None
    else if IsTarget(configurations[0], fnId) then Some(0)
    else
      match FindIndex(configurations[1..], fnId)
      case None => None
      case Some(i) => Some(i + 1)
  }

  /**
    `replaceS3BucketFunctionWithAlias`.  When a notification targets `fnId`,
    the first such notification's `Function` becomes `{ Ref: alias }`: the
    notification list keeps its length and order, the other notifications and
    the notification's other fields are unchanged, and so is everything in the
    bucket outside the list.  When none does, the source writes at index -1;
    the model answers `None` (see the dispatch in the plugin module).
   */
  function ReplaceS3BucketFunctionWithAlias(bucket: Json, alias: string, fnId: string): (r: Option<Json>)
    ensures r.None? <==> forall k :: 0 <= k < |Configurations(bucket)| ==> !IsTarget(Configurations(bucket)[k], fnId)
    ensures r.Some? ==>
      var before := Configurations(bucket);
      var after := Configurations(r.value);
      var i := FindIndex(before, fnId).value;
      && |after| == |before|
      && (forall k :: 0 <= k < |before| && k != i ==> after[k] == before[k])
      && Get(after[i], [Key("Function")]) == Some(Ref(alias))
      && OnlyChangedAt(before[i], after[i], [Key("Function")])
      && OnlyChangedAt(bucket, r.value, LambdaConfigurationsPath)
  {
    match FindIndex(Configurations(bucket), fnId)
    case None => None
    case Some(i) =>
      var path := LambdaConfigurationsPath + [Idx(i), Key("Function")];
      var r := Set(bucket, path, Ref(alias));
      RewriteShape(bucket, alias, fnId, i);
      Some(r)
  }

  /** The facts about one rewrite, for the notification at index `i`. */
  lemma RewriteShape(bucket: Json, alias: string, fnId: string, i: nat)
    requires i < |Configurations(bucket)| && IsTarget(Configurations(bucket)[i], fnId)
    ensures
      var r := Set(bucket, LambdaConfigurationsPath + [Idx(i), Key("Function")], Ref(alias));
      var before := Configurations(bucket);
      var after := Configurations(r);
      && |after| == |before|
      && (forall k :: 0 <= k < |before| && k != i ==> after[k] == before[k])
      && Get(after[i], [Key("Function")]) == Some(Ref(alias))
      && OnlyChangedAt(before[i], after[i], [Key("Function")])
      && OnlyChangedAt(bucket, r, LambdaConfigurationsPath)
  {
    var below: Path := [Idx(i), Key("Function")];
    var path := LambdaConfigurationsPath + below;
    var v := Ref(alias);
    var r := Set(bucket, path, v);
    var list := Get(bucket, LambdaConfigurationsPath).value;
    var before := list.items;
    var entry := before[i];
    assert entry.JObj? by {
      assert Get(entry, TargetNamePath).Some?;
    }
    // The notification list after the write is the list with `below` written into it.
    GetSetBelow(bucket, LambdaConfigurationsPath, below, v);
    var newEntry := Set(entry, [Key("Function")], v);
    assert Set(list, below, v) == JArr(before[i := newEntry]) by {
      assert Node(Child(list, Idx(i)), [Key("Function")]) == entry;
    }
    assert Get(r, LambdaConfigurationsPath) == Some(JArr(before[i := newEntry]));
    SetOnlyChanges(entry, [Key("Function")], v);
    // Outside the list nothing changes.
    assert CanSet(list, below) by {
      assert Node(Child(list, Idx(i)), [Key("Function")]) == entry;
      assert CanSet(entry, [Key("Function")]);
    }
    CanSetBelow(bucket, LambdaConfigurationsPath, below);
    SetOnlyChanges(bucket, path, v);
    forall q | Apart(LambdaConfigurationsPath, q) ensures Get(r, q) == Get(bucket, q) {
      ApartExtend(LambdaConfigurationsPath, below, q);
    }
  }

  /**
    The rewritten notification no longer targets the function, so a second
    rewrite reaches the next notification for it, if there is one.
   */
  lemma RewriteConsumesFirstTarget(bucket: Json, alias: string, fnId: string)
    requires ReplaceS3BucketFunctionWithAlias(bucket, alias, fnId).Some?
    ensures
      var i := FindIndex(Configurations(bucket), fnId).value;
      var after := Configurations(ReplaceS3BucketFunctionWithAlias(bucket, alias, fnId).value);
      && !IsTarget(after[i], fnId)
      && match FindIndex(after, fnId)
         case None => true
         case Some(j) => j > i && after[j] == Configurations(bucket)[j]
  {
    var i := FindIndex(Configurations(bucket), fnId).value;
    var after := Configurations(ReplaceS3BucketFunctionWithAlias(bucket, alias, fnId).value);
    GetAppend(after[i], [Key("Function")], [Key("Fn::GetAtt"), Idx(0)]);
    assert [Key("Function")] + [Key("Fn::GetAtt"), Idx(0)] == TargetNamePath;
  }
}
