/** The classic load balancer access-log remediator: read the load
    balancer's `AccessLog` attribute, and if it is not enabled, look up the
    account, provision the log bucket and switch logging on. */
module ClassicElbAccessLog {
  import opened Strings
  import opened Outcomes
  import opened Cloud
  import opened LogBucket

  const BucketPrefix := "elblogs"
  const EmitInterval := 60

  /** The outcome of each call the run may issue, one per call site. */
  datatype Responses = Responses(
    describeAttributes: Outcome<AccessLog>,
    getCallerIdentity: Outcome<string>,
    createBucket: Outcome<()>,
    putObject: Outcome<()>,
    putBucketPolicy: Outcome<()>,
    modifyAttributes: Outcome<()>)

  /** The second `/`-separated field of the alert's resource id. */
  function ElbName(alert: Alert): string
    requires |Split(alert.resourceId, '/')| > 1
  {
    Split(alert.resourceId, '/')[1]
  }

  /** For a resource id `<head>/<name>`, the name is the load balancer's own
      name. */
  lemma {:induction false} ElbNameOfResourceId(head: string, name: string, region: string)
    requires '/' !in head && '/' !in name
    ensures |Split(head + "/" + name, '/')| == 2
    ensures ElbName(Alert(head + "/" + name, region)) == name
  {
    var fields := [head, name];
    assert Join(fields[1..], '/') == name;
    assert Join(fields, '/') == head + "/" + name;
    SplitJoin(fields, '/');
  }

  /** `get_account_id`: the caller's account, or `"fail"` when the identity
      call failed. */
  method GetAccountId(sts: Outcome<string>) returns (accountId: string, calls: seq<Call>, log: seq<Log>)
    ensures calls == [GetCallerIdentity]
    ensures sts.Ok? ==> accountId == sts.payload && log == []
    ensures sts.Err? ==> accountId == Fail && log == [ProviderError(sts.message)]
  {
    calls := [GetCallerIdentity];
    if sts.Err? {
      return Fail, calls, [ProviderError(sts.message)];
    }
    accountId := sts.payload;
    log := [];
  }

  /** The `AccessLog` attribute the modify call sets. */
  function EnabledAccessLog(bucket: string, elbName: string): (accessLog: AccessLog)
    ensures accessLog.enabled
    ensures accessLog.s3BucketName == Some(bucket) && accessLog.s3BucketPrefix == Some(elbName)
    ensures accessLog.emitInterval == Some(EmitInterval)
  {
    AccessLog(true, Some(bucket), Some(EmitInterval), Some(elbName))
  }

  /** `enable_access_log`: one modify call; errors are reported, never
      raised. */
  method EnableAccessLog(elbName: string, bucketName: string, region: string, result: Outcome<()>)
    returns (calls: seq<Call>, log: seq<Log>)
    ensures calls == [ModifyClassicAttributes(elbName, EnabledAccessLog(bucketName, elbName))]
    ensures result.Ok? ==> log == [AccessLogEnabled(elbName)]
    ensures result.Err? ==> log == [AccessDeniedOr(result.message, region)]
  {
    calls := [ModifyClassicAttributes(elbName, AccessLog(true, Some(bucketName), Some(EmitInterval), Some(elbName)))];
    if result.Err? {
      if Contains(result.message, "Access Denied") {
        log := [AccessDeniedHint(region)];
      } else {
        log := [ProviderError(result.message)];
      }
    } else {
      log := [AccessLogEnabled(elbName)];
    }
  }

  /** The account the identity call yields, `"fail"` included. */
  function Account(r: Responses): string
  {
    if r.getCallerIdentity.Ok? then r.getCallerIdentity.payload else Fail
  }

  /** Remediation is due: the attribute was read and logging is not on. */
  predicate NeedsLogging(r: Responses)
  {
    r.describeAttributes.Ok? && !r.describeAttributes.payload.enabled
  }

  /** The calls of the remediation branch: the identity call, the bucket
      chain unless the account came back as `"fail"`, then the modify call
      exactly when the chain went through. */
  function RemediationCalls(elbName: string, region: string, r: Responses): seq<Call>
  {
    var accountId := Account(r);
    [GetCallerIdentity]
    + if accountId == Fail then []
      else
        ProvisionCalls(BucketPrefix, elbName, accountId, region, r.createBucket, r.putObject)
        + (if Provisioned(r.createBucket, r.putObject, r.putBucketPolicy)
           then [ModifyClassicAttributes(elbName, EnabledAccessLog(BucketName(BucketPrefix, accountId, region), elbName))]
           else [])
  }

  /** The branch starts with the identity call; no S3 call follows when the
      account is `"fail"`; otherwise the bucket's creation follows, and the
      modify call ends the branch exactly when the chain went through, at
      most once and naming the bucket the chain provisioned. */
  lemma RemediationCallsShape(elbName: string, region: string, r: Responses)
    ensures var calls := RemediationCalls(elbName, region, r);
      && |calls| >= 1 && calls[0] == GetCallerIdentity
      && (Account(r) == Fail <==> |calls| == 1)
      && (Account(r) != Fail ==>
            && 2 <= |calls| <= 5
            && calls[1] == ProvisionCalls(BucketPrefix, elbName, Account(r), region, r.createBucket, r.putObject)[0]
            && (|calls| == 5 <==> Provisioned(r.createBucket, r.putObject, r.putBucketPolicy)))
      && (|calls| == 5 ==>
            calls[4] == ModifyClassicAttributes(elbName, EnabledAccessLog(BucketName(BucketPrefix, Account(r), region), elbName)))
      && (forall c :: c in calls && c.ModifyClassicAttributes? ==> c == calls[|calls| - 1] && |calls| == 5)
  {
  }

  /** What the remediation branch prints: the identity error, if any; then,
      unless the account is `"fail"`, the chain's messages and the modify
      call's message exactly when the chain went through. */
  function RemediationLog(elbName: string, region: string, r: Responses): seq<Log>
  {
    var accountId := Account(r);
    (if r.getCallerIdentity.Err? then [ProviderError(r.getCallerIdentity.message)] else [])
    + if accountId == Fail then []
      else
        ProvisionLog(BucketName(BucketPrefix, accountId, region), region, r.createBucket, r.putObject, r.putBucketPolicy)
        + (if Provisioned(r.createBucket, r.putObject, r.putBucketPolicy)
           then [ModifyLog(r.modifyAttributes, elbName, region)]
           else [])
  }

  /** The remediation branch of `remediate`: identity, bucket, then logging. */
  method LogToNewBucket(elbName: string, region: string, r: Responses) returns (calls: seq<Call>, log: seq<Log>)
    ensures calls == RemediationCalls(elbName, region, r)
    ensures log == RemediationLog(elbName, region, r)
  {
    var accountId, stsLog;
    accountId, calls, stsLog := GetAccountId(r.getCallerIdentity);
    log := stsLog;
    var bucketName := Fail;
    if accountId != Fail {
      var s3Calls, s3Log;
      bucketName, s3Calls, s3Log := NewS3Bucket(BucketPrefix, elbName, accountId, region,
                                               r.createBucket, r.putObject, r.putBucketPolicy);
      calls := calls + s3Calls;
      log := log + s3Log;
    }
    if bucketName != Fail {
      var modifyCalls, modifyLog := EnableAccessLog(elbName, bucketName, region, r.modifyAttributes);
      calls := calls + modifyCalls;
      log := log + modifyLog;
    }
  }

  /** `remediate`. */
  method Remediate(alert: Alert, r: Responses) returns (calls: seq<Call>, log: seq<Log>)
    requires |Split(alert.resourceId, '/')| > 1
    ensures |calls| >= 1 && calls[0] == DescribeClassicAttributes(ElbName(alert))
    ensures r.describeAttributes.Err? ==>
      calls == [calls[0]] && log == [ProviderError(r.describeAttributes.message)]
    // logging already on: nothing more
    ensures !NeedsLogging(r) ==> |calls| == 1
    ensures r.describeAttributes.Ok? && r.describeAttributes.payload.enabled ==> log == []
    // otherwise the identity call, the bucket chain and the modify call
    ensures NeedsLogging(r) ==>
      calls[1..] == RemediationCalls(ElbName(alert), alert.region, r)
    ensures NeedsLogging(r) ==> log == RemediationLog(ElbName(alert), alert.region, r)
  {
    var elbName := Split(alert.resourceId, '/')[1];

    calls := [DescribeClassicAttributes(elbName)];
    if r.describeAttributes.Err? {
      log := [ProviderError(r.describeAttributes.message)];
      return;
    }
    var logging := r.describeAttributes.payload;
    log := [];
    if !logging.enabled {
      var lookup := calls;
      var more;
      more, log := LogToNewBucket(elbName, alert.region, r);
      calls := lookup + more;
    }
  }
}
