/** The cloud API as the runbooks see it: the alert they are invoked with,
    the records the describe calls return, the calls they issue and what they
    report. A run is described by the calls it issues, in order, and by the
    messages it prints. */
module Cloud {
  import opened Strings
  import opened Outcomes
  import opened BucketTemplate

  /** The alert record handed in by the dispatcher. */
  datatype Alert = Alert(resourceId: string, region: string)

  /** One key/value entry of an application load balancer's attributes. */
  datatype Attribute = Attribute(key: string, value: string)

  /** A record of `describe_load_balancers`; `LoadBalancerArn` may be absent. */
  datatype LoadBalancer = LoadBalancer(loadBalancerArn: Option<string>)

  /** A classic load balancer's `AccessLog` attribute. */
  datatype AccessLog = AccessLog(
    enabled: bool,
    s3BucketName: Option<string>,
    emitInterval: Option<int>,
    s3BucketPrefix: Option<string>)

  /** An ACL grantee; each of its keys may be absent. */
  datatype Grantee = Grantee(kind: Option<string>, uri: Option<string>, id: Option<string>)

  datatype Grant = Grant(grantee: Option<Grantee>, permission: string)

  datatype Owner = Owner(id: string, displayName: Option<string>)

  datatype AccessControlPolicy = AccessControlPolicy(owner: Owner, grants: seq<Grant>)

  /** An EBS snapshot; `StartTime` reduced to its calendar day number. */
  datatype Snapshot = Snapshot(snapshotId: string, startDay: int)

  /** An RDS instance record; `PubliclyAccessible` may be absent. */
  datatype DbInstance = DbInstance(dbInstanceIdentifier: string, publiclyAccessible: Option<bool>)

  /** A call issued to the provider, with the arguments that matter. */
  datatype Call =
    // Elastic Load Balancing, application load balancers (elbv2)
    | DescribeLoadBalancers(names: seq<string>)
    | DescribeLoadBalancerAttributes(loadBalancerArn: string)
    | ModifyLoadBalancerAttributes(loadBalancerArn: string, attributes: seq<Attribute>)
    // Elastic Load Balancing, classic load balancers (elb)
    | DescribeClassicAttributes(loadBalancerName: string)
    | ModifyClassicAttributes(loadBalancerName: string, accessLog: AccessLog)
    // STS
    | GetCallerIdentity
    // S3
    | CreateBucket(bucket: string, acl: string, locationConstraint: Option<string>)
    | PutObject(bucket: string, key: string)
    | PutBucketPolicy(bucket: string, policy: PolicyDocument)
    | GetBucketAcl(bucket: string)
    | PutBucketAcl(bucket: string, accessControlPolicy: AccessControlPolicy)
    // EC2
    | DescribeSnapshots(volumeId: string)
    | CreateSnapshot(volumeId: string, description: string)
    // RDS
    | DescribeDbInstances(dbiResourceId: string)
    | ModifyDbInstance(dbInstanceIdentifier: string, publiclyAccessible: bool)

  predicate IsS3Call(c: Call)
  {
    c.CreateBucket? || c.PutObject? || c.PutBucketPolicy? || c.GetBucketAcl? || c.PutBucketAcl?
  }

  /** The calls that change something in the account. */
  predicate IsMutating(c: Call)
  {
    || c.ModifyLoadBalancerAttributes? || c.ModifyClassicAttributes?
    || c.CreateBucket? || c.PutObject? || c.PutBucketPolicy? || c.PutBucketAcl?
    || c.CreateSnapshot? || c.ModifyDbInstance?
  }

  /** What a run prints. Only the distinctions the runbooks make are kept:
      a provider message passed through verbatim, the two rewritten hints,
      and the success and progress notes. */
  datatype Log =
    | ProviderError(message: string)
    | AccessDeniedHint(region: string)
    | InvalidPrincipalHint(region: string)
    | ArnNotFound(elbName: string)
    | BucketCreated(bucket: string)
    | UsingExistingBucket(bucket: string)
    | UsingOwnedBucket(bucket: string)
    | AccessLogEnabled(elbName: string)
    | PublicAclRemoved(bucket: string)
    | SnapshotCreated(snapshotId: string, volumeId: string)
    | PublicAttributeRemoved(instanceId: string)

  /** A whole run: the calls issued, in order, and what was printed. */
  datatype Run = Run(calls: seq<Call>, log: seq<Log>)

  /** What a failed modify call prints. */
  function AccessDeniedOr(message: string, region: string): Log
  {
    if Contains(message, "Access Denied") then AccessDeniedHint(region) else ProviderError(message)
  }

  /** What the load balancer's modify call prints: the success note, or the
      error with the access-denied hint. */
  function ModifyLog(result: Outcome<()>, elbName: string, region: string): Log
  {
    if result.Ok? then AccessLogEnabled(elbName) else AccessDeniedOr(result.message, region)
  }

  /** What a failed `put_bucket_policy` prints. */
  function InvalidPrincipalOr(message: string, region: string): Log
  {
    if Contains(message, "Invalid principal") then InvalidPrincipalHint(region) else ProviderError(message)
  }

  /** The hint replaces the message exactly when `Access Denied` occurs in
      it; otherwise the message is passed through unchanged. */
  lemma AccessDeniedHintIff(message: string, region: string)
    ensures AccessDeniedOr(message, region) == AccessDeniedHint(region)
            <==> exists i :: OccursAt(message, "Access Denied", i)
    ensures AccessDeniedOr(message, region) != AccessDeniedHint(region)
            ==> AccessDeniedOr(message, region) == ProviderError(message)
  {
    ContainsIff(message, "Access Denied");
  }

  /** Likewise for `Invalid principal` and the policy hint. */
  lemma InvalidPrincipalHintIff(message: string, region: string)
    ensures InvalidPrincipalOr(message, region) == InvalidPrincipalHint(region)
            <==> exists i :: OccursAt(message, "Invalid principal", i)
    ensures InvalidPrincipalOr(message, region) != InvalidPrincipalHint(region)
            ==> InvalidPrincipalOr(message, region) == ProviderError(message)
  {
    ContainsIff(message, "Invalid principal");
  }
}
