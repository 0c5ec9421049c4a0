/** The access-log bucket policy: the per-region table of the load balancer
    service's log-delivery account and the three-statement policy document
    built from it. The classic and the v2 remediators carry identical copies
    of this builder; it is modelled once here. */
module BucketTemplate {
  import opened Strings
  import opened Outcomes

  datatype Principal = Aws(arn: string) | Service(service: string)

  datatype Condition = StringEquals(key: string, value: string)

  datatype Statement = Statement(
    sid: Option<string>,
    effect: string,
    principal: Principal,
    action: string,
    resource: string,
    condition: Option<Condition>)

  datatype PolicyDocument = PolicyDocument(version: string, statements: seq<Statement>)

  /** The account used for a region the table does not list. */
  const DefaultElbAccountId := "123456789012"

  const LogDeliveryService := "delivery.logs.amazonaws.com"

  /** The log-delivery account of `region`, as the builder's if/elif chain
      computes it. */
  function ElbAccountId(region: string): string
  {
    if region == "ap-northeast-1" then "582318560864"
    else if region == "ap-northeast-2" then "600734575887"
    else if region == "ap-northeast-3" then "383597477331"
    else if region == "ap-south-1" then "718504428378"
    else if region == "ap-southeast-1" then "114774131450"
    else if region == "ap-southeast-2" then "783225319266"
    else if region == "ca-central-1" then "985666609251"
    else if region == "eu-central-1" then "054676820928"
    else if region == "eu-west-1" then "156460612806"
    else if region == "eu-west-2" then "652711504416"
    else if region == "eu-west-3" then "009996457667"
    else if region == "sa-east-1" then "507241528517"
    else if region == "us-east-1" then "127311923021"
    else if region == "us-east-2" then "033677994240"
    else if region == "us-west-1" then "027434742980"
    else if region == "us-west-2" then "797873946194"
    else DefaultElbAccountId
  }

  /** The same mapping as a table keyed by region. */
  const ElbAccountIds: map<string, string> := map[
    "ap-northeast-1" := "582318560864",
    "ap-northeast-2" := "600734575887",
    "ap-northeast-3" := "383597477331",
    "ap-south-1" := "718504428378",
    "ap-southeast-1" := "114774131450",
    "ap-southeast-2" := "783225319266",
    "ca-central-1" := "985666609251",
    "eu-central-1" := "054676820928",
    "eu-west-1" := "156460612806",
    "eu-west-2" := "652711504416",
    "eu-west-3" := "009996457667",
    "sa-east-1" := "507241528517",
    "us-east-1" := "127311923021",
    "us-east-2" := "033677994240",
    "us-west-1" := "027434742980",
    "us-west-2" := "797873946194"
  ]

  /** The chain agrees with the table on every region, and falls back to the
      default account exactly for the regions the table does not list. */
  lemma ElbAccountIdIsTableLookup(region: string)
    ensures region in ElbAccountIds ==> ElbAccountId(region) == ElbAccountIds[region]
    ensures region !in ElbAccountIds ==> ElbAccountId(region) == DefaultElbAccountId
    ensures ElbAccountId(region) == DefaultElbAccountId <==> region !in ElbAccountIds
  {
  }

  /** Two entries of the table, spelled out. */
  lemma KnownRegionAccounts()
    ensures ElbAccountId("us-west-2") == "797873946194"
    ensures ElbAccountId("eu-west-1") == "156460612806"
  {
  }

  function BucketArn(bucket: string): string
  {
    "arn:aws:s3:::" + bucket
  }

  /** The objects the load balancer writes for `accountId`, under any prefix. */
  function LogObjectsArn(bucket: string, accountId: string): string
  {
    BucketArn(bucket) + "/*/AWSLogs/" + accountId + "/*"
  }

  /** The policy `BucketTemplate.BucketPolicy` returns. It is called on the
      class, so Python binds its `self` to the bucket name: the resources are
      built from the bucket name and the account id, and the principal from
      the region. */
  function BucketPolicy(bucket: string, accountId: string, region: string): PolicyDocument
  {
    PolicyDocument("2012-10-17", [
      Statement(Some("ELBLoggingPolicy"), "Allow",
                Aws("arn:aws:iam::" + ElbAccountId(region) + ":root"),
                "s3:PutObject", LogObjectsArn(bucket, accountId), None),
      Statement(None, "Allow", Service(LogDeliveryService),
                "s3:PutObject", LogObjectsArn(bucket, accountId),
                Some(StringEquals("s3:x-amz-acl", "bucket-owner-full-control"))),
      Statement(None, "Allow", Service(LogDeliveryService),
                "s3:GetBucketAcl", BucketArn(bucket), None)
    ])
  }

  /** The document's statements: the region's log-delivery account may put
      the account's log objects, the log-delivery service may put them with
      `bucket-owner-full-control` and read the bucket ACL. */
  lemma BucketPolicyStatements(bucket: string, accountId: string, region: string)
    ensures var doc := BucketPolicy(bucket, accountId, region);
      && doc.version == "2012-10-17"
      && |doc.statements| == 3
      && doc.statements[0].principal == Aws("arn:aws:iam::" + ElbAccountId(region) + ":root")
      && doc.statements[1].principal == Service(LogDeliveryService)
      && doc.statements[2].principal == Service(LogDeliveryService)
      && doc.statements[0].action == "s3:PutObject" && doc.statements[1].action == "s3:PutObject"
      && doc.statements[2].action == "s3:GetBucketAcl"
      && doc.statements[0].resource == LogObjectsArn(bucket, accountId)
      && doc.statements[1].resource == LogObjectsArn(bucket, accountId)
      && doc.statements[2].resource == BucketArn(bucket)
      && doc.statements[1].condition == Some(StringEquals("s3:x-amz-acl", "bucket-owner-full-control"))
  {
  }

  /** The policy only allows, only names this bucket, and only trusts the
      region's log-delivery account and the log-delivery service. */
  lemma BucketPolicyConfined(bucket: string, accountId: string, region: string)
    ensures forall st :: st in BucketPolicy(bucket, accountId, region).statements ==>
      && st.effect == "Allow"
      && (st.resource == BucketArn(bucket) || StartsWith(st.resource, BucketArn(bucket) + "/"))
      && st.principal in {Aws("arn:aws:iam::" + ElbAccountId(region) + ":root"), Service(LogDeliveryService)}
      && st.action in {"s3:PutObject", "s3:GetBucketAcl"}
  {
  }
}
