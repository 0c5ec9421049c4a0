/** `new_s3_bucket`, which both load-balancer remediators define with the same
    steps and differ only in the bucket-name prefix: create the bucket
    (tolerating that it already exists), put the load balancer's folder
    marker, attach the logging policy. Each failure short-circuits to the
    sentinel `"fail"`. */
module LogBucket {
  import opened Outcomes
  import opened BucketTemplate
  import opened Cloud

  const Fail := "fail"

  function BucketName(prefix: string, accountId: string, region: string): string
  {
    prefix + "-" + accountId + "-" + region
  }

  /** A bucket name is never the failure sentinel, so the callers' test
      `bucket_name != 'fail'` tells the two results apart. */
  lemma BucketNameNotFail(prefix: string, accountId: string, region: string)
    ensures BucketName(prefix, accountId, region) != Fail
  {
    var name := BucketName(prefix, accountId, region);
    assert name[|prefix|] == '-';
  }

  /** `CreateBucketConfiguration` is passed except in us-east-1. */
  function LocationConstraint(region: string): Option<string>
  {
    if region == "us-east-1" then None else Some(region)
  }

  /** The create step counts as done: it succeeded, or the bucket already
      exists, owned by anyone or by this account. */
  predicate CreateSucceeded(create: Outcome<()>)
  {
    create.Ok? || create.code == "BucketAlreadyExists" || create.code == "BucketAlreadyOwnedByYou"
  }

  /** All three steps went through. */
  predicate Provisioned(create: Outcome<()>, putObject: Outcome<()>, putPolicy: Outcome<()>)
  {
    CreateSucceeded(create) && putObject.Ok? && putPolicy.Ok?
  }

  /** What a create step that counts as done prints. */
  function CreateLog(create: Outcome<()>, bucket: string): Log
    requires CreateSucceeded(create)
  {
    if create.Ok? then BucketCreated(bucket)
    else if create.code == "BucketAlreadyExists" then UsingExistingBucket(bucket)
    else UsingOwnedBucket(bucket)
  }

  /** The calls the chain issues: create, then the folder marker, then the
      policy, each only if the step before it went through. */
  function ProvisionCalls(prefix: string, elbName: string, accountId: string, region: string,
                          create: Outcome<()>, putObject: Outcome<()>): seq<Call>
  {
    var bucket := BucketName(prefix, accountId, region);
    [CreateBucket(bucket, "private", LocationConstraint(region))]
    + (if !CreateSucceeded(create) then []
       else [PutObject(bucket, elbName + "/")]
            + (if putObject.Err? then []
               else [PutBucketPolicy(bucket, BucketPolicy(bucket, accountId, region))]))
  }

  /** The chain stops at the first step that did not go through: the bucket
      is created private, in the alert's region unless that is us-east-1;
      the folder marker and then the policy follow only after the step before
      them went through; every call is a mutating S3 call. */
  lemma ProvisionCallsShape(prefix: string, elbName: string, accountId: string, region: string,
                            create: Outcome<()>, putObject: Outcome<()>)
    ensures var calls := ProvisionCalls(prefix, elbName, accountId, region, create, putObject);
      var bucket := BucketName(prefix, accountId, region);
      && 1 <= |calls| <= 3
      && calls[0] == CreateBucket(bucket, "private", calls[0].locationConstraint)
      && (calls[0].locationConstraint.Some? <==> region != "us-east-1")
      && (calls[0].locationConstraint.Some? ==> calls[0].locationConstraint.value == region)
      && (|calls| >= 2 <==> CreateSucceeded(create))
      && (|calls| >= 2 ==> calls[1] == PutObject(bucket, elbName + "/"))
      && (|calls| == 3 <==> CreateSucceeded(create) && putObject.Ok?)
      && (|calls| == 3 ==> calls[2] == PutBucketPolicy(bucket, BucketPolicy(bucket, accountId, region)))
      && (forall c :: c in calls ==> IsS3Call(c) && IsMutating(c))
  {
  }

  /** What the chain prints: the create note or the create error; then,
      after a create that counts as done, the folder-marker error, or the
      policy error with the principal hint, or nothing when both went
      through. */
  function ProvisionLog(bucket: string, region: string,
                        create: Outcome<()>, putObject: Outcome<()>, putPolicy: Outcome<()>): seq<Log>
  {
    if !CreateSucceeded(create) then [ProviderError(create.message)]
    else [CreateLog(create, bucket)]
         + (if putObject.Err? then [ProviderError(putObject.message)]
            else if putPolicy.Err? then [InvalidPrincipalOr(putPolicy.message, region)]
            else [])
  }

  /** `new_s3_bucket`: returns the bucket name when all three steps went
      through, and `"fail"` otherwise. */
  method NewS3Bucket(prefix: string, elbName: string, accountId: string, region: string,
                     create: Outcome<()>, putObject: Outcome<()>, putPolicy: Outcome<()>)
    returns (bucketName: string, calls: seq<Call>, log: seq<Log>)
    ensures calls == ProvisionCalls(prefix, elbName, accountId, region, create, putObject)
    ensures Provisioned(create, putObject, putPolicy) ==> bucketName == BucketName(prefix, accountId, region)
    ensures !Provisioned(create, putObject, putPolicy) ==> bucketName == Fail
    ensures bucketName != Fail <==> Provisioned(create, putObject, putPolicy)
    ensures log == ProvisionLog(BucketName(prefix, accountId, region), region, create, putObject, putPolicy)
    ensures !CreateSucceeded(create) ==> log == [ProviderError(create.message)]
    ensures CreateSucceeded(create) ==>
      |log| >= 1 && log[0] == CreateLog(create, BucketName(prefix, accountId, region))
    ensures CreateSucceeded(create) && putObject.Err? ==> |log| == 2 && log[1] == ProviderError(putObject.message)
    ensures CreateSucceeded(create) && putObject.Ok? && putPolicy.Err? ==>
      |log| == 2 && log[1] == InvalidPrincipalOr(putPolicy.message, region)
    ensures Provisioned(create, putObject, putPolicy) ==> |log| == 1
  {
    bucketName := BucketName(prefix, accountId, region);
    BucketNameNotFail(prefix, accountId, region);
    var bucket := bucketName;

    calls := [CreateBucket(bucket, "private", LocationConstraint(region))];
    if create.Ok? {
      log := [BucketCreated(bucket)];
    } else if create.code == "BucketAlreadyExists" {
      log := [UsingExistingBucket(bucket)];
    } else if create.code == "BucketAlreadyOwnedByYou" {
      log := [UsingOwnedBucket(bucket)];
    } else {
      log := [ProviderError(create.message)];
      return Fail, calls, log;
    }

    // the load balancer's folder marker
    calls := calls + [PutObject(bucket, elbName + "/")];
    if putObject.Err? {
      log := log + [ProviderError(putObject.message)];
      return Fail, calls, log;
    }

    // the logging policy
    calls := calls + [PutBucketPolicy(bucket, BucketPolicy(bucket, accountId, region))];
    if putPolicy.Err? {
      log := log + [InvalidPrincipalOr(putPolicy.message, region)];
      return Fail, calls, log;
    }
  }
}
