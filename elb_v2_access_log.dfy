/** The application (v2) load balancer access-log remediator: look the load
    balancer up by name, read its attribute list, and if access logging is
    not on, provision the log bucket and switch logging on. */
module ElbV2AccessLog {
  import opened Strings
  import opened Outcomes
  import opened Cloud
  import opened LogBucket

  const LoggingKey := "access_logs.s3.enabled"
  const BucketKey := "access_logs.s3.bucket"
  const PrefixKey := "access_logs.s3.prefix"
  const BucketPrefix := "elbv2logs"

  /** The outcome of each call the run may issue, one per call site. */
  datatype Responses = Responses(
    describeLoadBalancers: Outcome<seq<LoadBalancer>>,
    describeAttributes: Outcome<seq<Attribute>>,
    createBucket: Outcome<()>,
    putObject: Outcome<()>,
    putBucketPolicy: Outcome<()>,
    modifyAttributes: Outcome<()>)

  /** The ARN of the first record the lookup returned, if it carries one. */
  function FoundArn(r: Responses): Option<string>
  {
    if r.describeLoadBalancers.Ok? && |r.describeLoadBalancers.payload| > 0
    then r.describeLoadBalancers.payload[0].loadBalancerArn
    else None
  }

  /** The ARNs have the fields the runbook indexes. */
  predicate WellFormed(alert: Alert, r: Responses)
  {
    && |Split(alert.resourceId, '/')| > 2
    && (FoundArn(r).Some? ==> |Split(FoundArn(r).value, ':')| > 4)
  }

  /** The third `/`-separated field of the alert's resource id. */
  function ElbName(alert: Alert): string
    requires |Split(alert.resourceId, '/')| > 2
  {
    Split(alert.resourceId, '/')[2]
  }

  /** The fifth `:`-separated field of the load balancer's ARN. */
  function AccountId(elbArn: string): string
    requires |Split(elbArn, ':')| > 4
  {
    Split(elbArn, ':')[4]
  }

  /** For an ARN of the usual shape `<head>/app/<name>/<id>`, the name is
      the load balancer's own name. */
  lemma {:induction false} ElbNameOfArn(head: string, kind: string, name: string, id: string, region: string)
    requires '/' !in head && '/' !in kind && '/' !in name && '/' !in id
    ensures |Split(head + "/" + kind + "/" + name + "/" + id, '/')| == 4
    ensures ElbName(Alert(head + "/" + kind + "/" + name + "/" + id, region)) == name
  {
    var fields := [head, kind, name, id];
    assert Join(fields[3..], '/') == id;
    assert Join(fields[2..], '/') == name + "/" + id;
    assert Join(fields[1..], '/') == kind + "/" + name + "/" + id;
    assert Join(fields, '/') == head + "/" + kind + "/" + name + "/" + id;
    SplitJoin(fields, '/');
  }

  /** The value of the last attribute keyed `access_logs.s3.enabled`, or
      `"none"` when there is none. */
  function LoggingStatus(attribs: seq<Attribute>): string
  {
    if attribs == [] then "none"
    else if attribs[|attribs| - 1].key == LoggingKey then attribs[|attribs| - 1].value
    else LoggingStatus(attribs[..|attribs| - 1])
  }

  /** An entry keyed `access_logs.s3.enabled` with no such entry after it
      decides the status. */
  lemma {:induction false} LoggingStatusIsLastEntry(attribs: seq<Attribute>, i: int)
    requires 0 <= i < |attribs| && attribs[i].key == LoggingKey
    requires forall j :: i < j < |attribs| ==> attribs[j].key != LoggingKey
    ensures LoggingStatus(attribs) == attribs[i].value
    decreases |attribs|
  {
    if i < |attribs| - 1 {
      LoggingStatusIsLastEntry(attribs[..|attribs| - 1], i);
    }
  }

  /** Without such an entry the status is `"none"`. */
  lemma {:induction false} LoggingStatusNone(attribs: seq<Attribute>)
    requires forall j :: 0 <= j < |attribs| ==> attribs[j].key != LoggingKey
    ensures LoggingStatus(attribs) == "none"
    decreases |attribs|
  {
    if attribs != [] {
      LoggingStatusNone(attribs[..|attribs| - 1]);
    }
  }

  /** Some entry is keyed `access_logs.s3.enabled`. */
  predicate SetsLogging(attribs: seq<Attribute>)
  {
    exists j :: 0 <= j < |attribs| && attribs[j].key == LoggingKey
  }

  /** Entries appended after others decide the status whenever one of them
      sets the key; otherwise the earlier entries do. */
  lemma {:induction false} LoggingStatusAppend(front: seq<Attribute>, back: seq<Attribute>)
    ensures LoggingStatus(front + back)
            == if SetsLogging(back) then LoggingStatus(back) else LoggingStatus(front)
    decreases |back|
  {
    if back == [] {
      assert front + back == front;
    } else {
      var all := front + back;
      var init := back[..|back| - 1];
      assert all[..|all| - 1] == front + init;
      assert all[|all| - 1] == back[|back| - 1];
      if back[|back| - 1].key != LoggingKey {
        LoggingStatusAppend(front, init);
        assert SetsLogging(back) ==> SetsLogging(init) by {
          if SetsLogging(back) {
            var j :| 0 <= j < |back| && back[j].key == LoggingKey;
            assert init[j] == back[j];
          }
        }
        assert SetsLogging(init) ==> SetsLogging(back) by {
          if SetsLogging(init) {
            var j :| 0 <= j < |init| && init[j].key == LoggingKey;
            assert back[j] == init[j];
          }
        }
      } else {
        assert SetsLogging(back);
      }
    }
  }

  /** The attributes the modify call sets. */
  function EnableAttributes(bucket: string, elbName: string): (attribs: seq<Attribute>)
    ensures |attribs| == 3
    ensures Attribute(LoggingKey, "true") in attribs
    ensures Attribute(BucketKey, bucket) in attribs && Attribute(PrefixKey, elbName) in attribs
    ensures forall a :: a in attribs && a.key == BucketKey ==> a.value == bucket
    ensures forall a :: a in attribs && a.key == PrefixKey ==> a.value == elbName
    ensures forall a :: a in attribs ==> a.key in {LoggingKey, BucketKey, PrefixKey}
  {
    [Attribute(LoggingKey, "true"), Attribute(BucketKey, bucket), Attribute(PrefixKey, elbName)]
  }

  /** Whatever the attributes were, after the modify call's entries the
      status reads `"true"`: a second run finds logging on. */
  lemma EnabledAfterModify(before: seq<Attribute>, bucket: string, elbName: string)
    ensures LoggingStatus(before + EnableAttributes(bucket, elbName)) == "true"
  {
    var attribs := EnableAttributes(bucket, elbName);
    LoggingStatusIsLastEntry(attribs, 0);
    assert SetsLogging(attribs) by { assert attribs[0].key == LoggingKey; }
    LoggingStatusAppend(before, attribs);
  }

  /** The scan over the attribute list in `remediate`: the last entry keyed
      `access_logs.s3.enabled` wins. */
  method ScanLogging(attribs: seq<Attribute>) returns (logging: string)
    ensures logging == LoggingStatus(attribs)
  {
    logging := "none";
    var i := 0;
    while i < |attribs|
      invariant 0 <= i <= |attribs|
      invariant logging == LoggingStatus(attribs[..i])
    {
      assert attribs[..i + 1][..i] == attribs[..i];
      if attribs[i].key == LoggingKey {
        logging := attribs[i].value;
      }
      i := i + 1;
    }
    assert attribs[..i] == attribs;
  }

  /** `enable_access_log`: one modify call; errors are reported, never
      raised. */
  method EnableAccessLog(elbArn: string, elbName: string, bucketName: string, region: string, result: Outcome<()>)
    returns (calls: seq<Call>, log: seq<Log>)
    ensures calls == [ModifyLoadBalancerAttributes(elbArn, EnableAttributes(bucketName, elbName))]
    ensures result.Ok? ==> log == [AccessLogEnabled(elbName)]
    ensures result.Err? ==> log == [AccessDeniedOr(result.message, region)]
  {
    calls := [ModifyLoadBalancerAttributes(elbArn, EnableAttributes(bucketName, elbName))];
    if result.Err? {
      if Contains(result.message, "Access Denied") {
        log := [AccessDeniedHint(region)];
      } else {
        log := [ProviderError(result.message)];
      }
    } else {
      log := [AccessLogEnabled(elbName)];
    }
  }

  /** Remediation is due: the ARN was found, the attributes were read, and
      logging is not `"true"`. */
  predicate NeedsLogging(r: Responses)
  {
    FoundArn(r).Some? && r.describeAttributes.Ok? && LoggingStatus(r.describeAttributes.payload) != "true"
  }

  /** The calls of the remediation branch: the bucket chain, then the modify
      call exactly when the chain went through, naming the new bucket. */
  function NewBucketCalls(elbArn: string, elbName: string, accountId: string, region: string, r: Responses)
    : seq<Call>
  {
    ProvisionCalls(BucketPrefix, elbName, accountId, region, r.createBucket, r.putObject)
    + (if Provisioned(r.createBucket, r.putObject, r.putBucketPolicy)
       then [ModifyLoadBalancerAttributes(elbArn, EnableAttributes(BucketName(BucketPrefix, accountId, region), elbName))]
       else [])
  }

  /** The branch starts with the bucket's creation and ends with the modify
      call exactly when the chain went through; that call is issued at most
      once and names the bucket the chain provisioned. */
  lemma NewBucketCallsShape(elbArn: string, elbName: string, accountId: string, region: string, r: Responses)
    ensures var calls := NewBucketCalls(elbArn, elbName, accountId, region, r);
      && 1 <= |calls| <= 4
      && calls[0] == ProvisionCalls(BucketPrefix, elbName, accountId, region, r.createBucket, r.putObject)[0]
      && (|calls| == 4 <==> Provisioned(r.createBucket, r.putObject, r.putBucketPolicy))
      && (|calls| == 4 ==>
            calls[3] == ModifyLoadBalancerAttributes(elbArn, EnableAttributes(BucketName(BucketPrefix, accountId, region), elbName)))
      && (forall c :: c in calls && c.ModifyLoadBalancerAttributes? ==> c == calls[|calls| - 1] && |calls| == 4)
  {
  }

  /** What the remediation branch prints: the chain's messages, then the
      modify call's message exactly when the chain went through. */
  function NewBucketLog(elbName: string, accountId: string, region: string, r: Responses): seq<Log>
  {
    ProvisionLog(BucketName(BucketPrefix, accountId, region), region, r.createBucket, r.putObject, r.putBucketPolicy)
    + (if Provisioned(r.createBucket, r.putObject, r.putBucketPolicy)
       then [ModifyLog(r.modifyAttributes, elbName, region)]
       else [])
  }

  /** The remediation branch of `remediate`: provision the bucket, and
      enable logging only if that returned the bucket name. */
  method LogToNewBucket(elbArn: string, elbName: string, accountId: string, region: string, r: Responses)
    returns (calls: seq<Call>, log: seq<Log>)
    ensures calls == NewBucketCalls(elbArn, elbName, accountId, region, r)
    ensures log == NewBucketLog(elbName, accountId, region, r)
  {
    var bucketName, s3Log;
    bucketName, calls, s3Log := NewS3Bucket(BucketPrefix, elbName, accountId, region,
                                            r.createBucket, r.putObject, r.putBucketPolicy);
    log := s3Log;
    if bucketName != Fail {
      var modifyCalls, modifyLog := EnableAccessLog(elbArn, elbName, bucketName, region, r.modifyAttributes);
      calls := calls + modifyCalls;
      log := log + modifyLog;
    }
  }

  /** The part of `remediate` after the ARN was found: read the attributes,
      and remediate unless logging is already `"true"`. */
  method RemediateFound(elbArn: string, elbName: string, region: string, r: Responses)
    returns (calls: seq<Call>, log: seq<Log>)
    requires |Split(elbArn, ':')| > 4
    ensures |calls| >= 1 && calls[0] == DescribeLoadBalancerAttributes(elbArn)
    ensures r.describeAttributes.Err? ==>
      calls == [calls[0]] && log == [ProviderError(r.describeAttributes.message)]
    // logging already on: nothing more
    ensures r.describeAttributes.Ok? && LoggingStatus(r.describeAttributes.payload) == "true" ==>
      calls == [calls[0]] && log == []
    // otherwise the bucket chain, then the modify call exactly when it returned the bucket
    ensures r.describeAttributes.Ok? && LoggingStatus(r.describeAttributes.payload) != "true" ==>
      calls[1..] == NewBucketCalls(elbArn, elbName, AccountId(elbArn), region, r)
    ensures r.describeAttributes.Ok? && LoggingStatus(r.describeAttributes.payload) != "true" ==>
      log == NewBucketLog(elbName, AccountId(elbArn), region, r)
  {
    calls := [DescribeLoadBalancerAttributes(elbArn)];
    if r.describeAttributes.Err? {
      log := [ProviderError(r.describeAttributes.message)];
      return;
    }
    var logging := ScanLogging(r.describeAttributes.payload);
    log := [];
    if logging != "true" {
      var tailCalls, tailLog := LogToNewBucket(elbArn, elbName, AccountId(elbArn), region, r);
      calls := calls + tailCalls;
      log := tailLog;
    }
  }

  /** `remediate`. */
  method Remediate(alert: Alert, r: Responses) returns (calls: seq<Call>, log: seq<Log>)
    requires WellFormed(alert, r)
    ensures |calls| >= 1 && calls[0] == DescribeLoadBalancers([ElbName(alert)])
    // a failed or empty lookup ends the run
    ensures r.describeLoadBalancers.Err? ==>
      calls == [calls[0]] && log == [ProviderError(r.describeLoadBalancers.message)]
    ensures r.describeLoadBalancers.Ok? && FoundArn(r).None? ==>
      calls == [calls[0]] && log == [ArnNotFound(ElbName(alert))]
    ensures FoundArn(r).Some? ==>
      |calls| >= 2 && calls[1] == DescribeLoadBalancerAttributes(FoundArn(r).value)
    ensures FoundArn(r).Some? && r.describeAttributes.Err? ==>
      |calls| == 2 && log == [ProviderError(r.describeAttributes.message)]
    // logging already on: nothing more
    ensures FoundArn(r).Some? && r.describeAttributes.Ok? && LoggingStatus(r.describeAttributes.payload) == "true" ==>
      |calls| == 2 && log == []
    // unless remediation is due, only the two describe calls are issued
    ensures !NeedsLogging(r) ==> |calls| <= 2
    // otherwise the bucket chain, then the modify call exactly when it returned the bucket
    ensures NeedsLogging(r) ==>
      |calls| >= 2 && calls[2..] == NewBucketCalls(FoundArn(r).value, ElbName(alert), AccountId(FoundArn(r).value), alert.region, r)
    ensures NeedsLogging(r) ==>
      log == NewBucketLog(ElbName(alert), AccountId(FoundArn(r).value), alert.region, r)
  {
    var elbName := Split(alert.resourceId, '/')[2];

    calls := [DescribeLoadBalancers([elbName])];
    if r.describeLoadBalancers.Err? {
      log := [ProviderError(r.describeLoadBalancers.message)];
      return;
    }
    var elbs := r.describeLoadBalancers.payload;
    if |elbs| == 0 || elbs[0].loadBalancerArn.None? {
      log := [ArnNotFound(elbName)];
      return;
    }
    var elbArn := elbs[0].loadBalancerArn.value;
    var lookup := calls;
    var more;
    more, log := RemediateFound(elbArn, elbName, alert.region, r);
    calls := lookup + more;
  }
}
