# Remediation runbooks, modelled in Dafny

The remediation service runs one small runbook per cloud-security alert.
Each runbook reads the offending resource through the cloud provider's API,
decides whether it needs fixing and, if so, issues the calls that fix it.
This project models five of them:

- `AWS-ELB-015`: turns on access logging for an application load balancer.
  It looks the load balancer up by name, scans its attribute list and, when
  logging is not `"true"`, provisions an `elbv2logs-<account>-<region>`
  bucket. The bucket chain is create, folder marker, logging policy. Only
  when the chain returns the bucket name does the runbook call modify.
- `AWS-ELB-013`: the same for a classic load balancer. Its logging flag is
  the `AccessLog.Enabled` attribute. It takes the account from the caller
  identity, and its bucket prefix is `elblogs`.
- `AWS-CLT-006`: drops the public group grants from a CloudTrail bucket's
  ACL. It writes the ACL back only if something was dropped.
- `AWS-EC2-001`: snapshots a volume when it has no snapshot, or when the
  first one returned is at least 15 days old.
- `AWS-RDS-005`: clears `PubliclyAccessible` on a database instance that
  has it set.

Each provider call is an `Outcome`: the payload, or an error carrying a
code and a message. A `Responses` value per runbook supplies one outcome for
each call site. A run is described by two things:

- the calls it issues, in order (`seq<Call>`, with the arguments that matter);
- the messages it prints (`seq<Log>`). These keep only the distinctions the
  runbooks make: a provider message passed through, the two rewritten hints,
  and the progress and success notes.

The load-balancer runbooks and the ACL filter change state step by step, so
they are methods. `ScanLogging` and the grant filter are loops proved
against recursive specification functions. The snapshot and database
runbooks are a single decision each, so they are functions returning a
`Run`.

Modules:

- `Strings`: Python's `in` on strings, `split` and `join`.
- `Outcomes`: `Option` and `Outcome`.
- `BucketTemplate`: the region-to-account table and the policy document.
- `Cloud`: the records, calls and messages.
- `LogBucket`: `new_s3_bucket`, shared by both load-balancer runbooks.
- One module per runbook.

The bucket policy builder is written as a method taking `self`, but it is
called on the class, `BucketTemplate.BucketPolicy(bucket_name, account_id,
region)`. Python 3 therefore binds `self` to the bucket name. The resources
are built from the bucket name and the account id, and the principal from
the region. The model follows that wiring, which is the intended one.

The snapshot runbook reads only the first snapshot `describe_snapshots`
returns (AWS/lambda_package/runbooks/AWS-EC2-001.py:69). That is not
necessarily the most recent one. The model follows the code, and
`OnlyFirstSnapshotCounts` states it.

## Model

| member | source | states |
|---|---|---|
| Strings.ContainsIff | AWS/lambda_package/runbooks/AWS-ELB-015.py:127 | Python's substring test holds exactly when the needle occurs at some index of the message |
| Strings.JoinSplit | AWS/lambda_package/runbooks/AWS-ELB-015.py:60 | `split` loses nothing: joining its fields with the separator gives back the string |
| Strings.SplitJoin | AWS/lambda_package/runbooks/AWS-ELB-015.py:79 | splitting a join of separator-free fields gives back exactly those fields |
| BucketTemplate.ElbAccountIdIsTableLookup | AWS/lambda_package/runbooks/AWS-ELB-015.py:196-234 | the if/elif chain agrees with the region table on every listed region, and yields `123456789012` exactly for unlisted regions |
| BucketTemplate.KnownRegionAccounts | AWS/lambda_package/runbooks/AWS-ELB-015.py:219-234 | us-west-2 maps to `797873946194` and eu-west-1 to `156460612806` |
| BucketTemplate.BucketPolicyStatements | AWS/lambda_package/runbooks/AWS-ELB-015.py:235-270 | version 2012-10-17; exactly three statements. Both put statements cover `arn:aws:s3:::<bucket>/*/AWSLogs/<account>/*`, one for the region's log-delivery account and one for the delivery service with `bucket-owner-full-control`. The ACL statement covers `arn:aws:s3:::<bucket>` |
| BucketTemplate.BucketPolicyConfined | AWS/lambda_package/runbooks/AWS-ELB-013.py:233-268 | every statement allows; each resource is the bucket itself or a path under `<bucket>/`; each trusts only the region's account or the delivery service; each grants only put-object or get-ACL |
| Cloud.AccessDeniedHintIff | AWS/lambda_package/runbooks/AWS-ELB-015.py:126-130 | a failed modify prints the region hint exactly when the message contains `Access Denied`; otherwise it prints the message itself |
| Cloud.InvalidPrincipalHintIff | AWS/lambda_package/runbooks/AWS-ELB-015.py:182-189 | a failed policy write prints the region hint exactly when the message contains `Invalid principal`; otherwise it prints the message itself |
| LogBucket.BucketNameNotFail | AWS/lambda_package/runbooks/AWS-ELB-015.py:143 | a `<prefix>-<account>-<region>` bucket name is never the sentinel `'fail'`, so the callers' test tells success from failure |
| LogBucket.ProvisionCallsShape | AWS/lambda_package/runbooks/AWS-ELB-015.py:145-189 | create comes first, private. It carries a location constraint, equal to the region, exactly outside us-east-1. The `<elb>/` marker follows exactly when create succeeded or the bucket already exists or is already owned. The policy for this bucket, account and region follows exactly when the marker also succeeded. Every call is a mutating S3 call |
| LogBucket.NewS3Bucket | AWS/lambda_package/runbooks/AWS-ELB-015.py:138-191 | issues the chain's calls. Returns the bucket name when all three steps went through, and `'fail'` otherwise. Prints the create note (or the create error), then the error of the later step that failed, with the principal hint for the policy; nothing more when all succeeded |
| ElbV2AccessLog.ElbNameOfArn | AWS/lambda_package/runbooks/AWS-ELB-015.py:59-60 | for a resource id `<head>/app/<name>/<id>`, the derived load-balancer name is `<name>` |
| ElbV2AccessLog.LoggingStatusIsLastEntry | AWS/lambda_package/runbooks/AWS-ELB-015.py:87-91 | the status is the value of the last attribute keyed `access_logs.s3.enabled` |
| ElbV2AccessLog.LoggingStatusNone | AWS/lambda_package/runbooks/AWS-ELB-015.py:87 | without such an attribute the status is `'none'` |
| ElbV2AccessLog.LoggingStatusAppend | AWS/lambda_package/runbooks/AWS-ELB-015.py:89-91 | later attributes that set the key override earlier ones; otherwise the earlier ones decide |
| ElbV2AccessLog.ScanLogging | AWS/lambda_package/runbooks/AWS-ELB-015.py:87-91 | the loop computes exactly that status |
| ElbV2AccessLog.EnableAttributes | AWS/lambda_package/runbooks/AWS-ELB-015.py:111-124 | exactly three attributes: the enabled key set to `'true'`, the bucket key set to the bucket, the prefix key set to the load-balancer name |
| ElbV2AccessLog.EnabledAfterModify | AWS/lambda_package/runbooks/AWS-ELB-015.py:108-125 | whatever the attributes were, once the modify entries are applied the status reads `'true'`, so a second run does nothing |
| ElbV2AccessLog.EnableAccessLog | AWS/lambda_package/runbooks/AWS-ELB-015.py:103-135 | one modify call with those attributes; prints the success note, or the access-denied hint or the message; never raises |
| ElbV2AccessLog.NewBucketCallsShape | AWS/lambda_package/runbooks/AWS-ELB-015.py:93-98 | the remediation starts with the bucket's creation. It ends with the modify call exactly when the chain went through, at most once, naming the provisioned bucket |
| ElbV2AccessLog.LogToNewBucket | AWS/lambda_package/runbooks/AWS-ELB-015.py:95-98 | issues the bucket chain, then modify only if the chain returned the bucket name. Prints the chain's messages, then modify's message exactly when modify ran |
| ElbV2AccessLog.RemediateFound | AWS/lambda_package/runbooks/AWS-ELB-015.py:81-98 | reads the attributes. A read error ends the run, printing the error. Status `'true'` ends it with no further call and no message. Otherwise it issues and prints what the remediation branch does |
| ElbV2AccessLog.Remediate | AWS/lambda_package/runbooks/AWS-ELB-015.py:54-100 | looks up the third `/` field of the resource id. A lookup error, an empty result or a record without an ARN ends the run after that one call. Otherwise it reads the attributes of the found ARN. With status `'true'` it stops after two calls. Otherwise it provisions `elbv2logs-<field 5 of the ARN>-<region>` and enables logging, issuing and printing exactly what the remediation branch does |
| ClassicElbAccessLog.ElbNameOfResourceId | AWS/lambda_package/runbooks/AWS-ELB-013.py:66-67 | for a resource id `<head>/<name>`, the derived load-balancer name is `<name>` |
| ClassicElbAccessLog.GetAccountId | AWS/lambda_package/runbooks/AWS-ELB-013.py:178-189 | one identity call; returns the account, or prints the error and returns `'fail'` |
| ClassicElbAccessLog.EnabledAccessLog | AWS/lambda_package/runbooks/AWS-ELB-013.py:101-108 | `Enabled` true, the bucket, `EmitInterval` 60, the load-balancer name as prefix |
| ClassicElbAccessLog.EnableAccessLog | AWS/lambda_package/runbooks/AWS-ELB-013.py:93-119 | one modify call with that attribute; prints the success note, or the access-denied hint or the message; never raises |
| ClassicElbAccessLog.RemediationCallsShape | AWS/lambda_package/runbooks/AWS-ELB-013.py:84-88 | the identity call comes first. An account of `'fail'` suppresses every S3 call and modify. Otherwise the `elblogs` bucket's creation follows, and modify ends the run exactly when the chain went through, at most once, naming that bucket |
| ClassicElbAccessLog.LogToNewBucket | AWS/lambda_package/runbooks/AWS-ELB-013.py:84-88 | issues exactly those calls. Prints the identity error, if any; then, unless the account is `'fail'`, the chain's messages, and modify's message exactly when modify ran |
| ClassicElbAccessLog.Remediate | AWS/lambda_package/runbooks/AWS-ELB-013.py:61-90 | reads the attributes of the second `/` field of the resource id. A read error or enabled logging ends the run after that one call. Otherwise it issues and prints exactly what the remediation branch does |
| CloudTrailBucketAcl.KeptGrantsAppend | AWS/lambda_package/runbooks/AWS-CLT-006.py:59-73 | filtering keeps order: the kept grants of a concatenation are the kept grants of each part, concatenated |
| CloudTrailBucketAcl.KeptGrantsMembership | AWS/lambda_package/runbooks/AWS-CLT-006.py:67-71 | a grant is kept exactly when it was in the ACL and is not a Group grant whose URI contains `AllUsers` or `AuthenticatedUsers` |
| CloudTrailBucketAcl.IncompleteGranteeKept | AWS/lambda_package/runbooks/AWS-CLT-006.py:60-65 | a grant without a grantee, a type or a URI is always kept |
| CloudTrailBucketAcl.DroppedIffPublic | AWS/lambda_package/runbooks/AWS-CLT-006.py:57-71 | the filtered list is shorter exactly when some grant is public |
| CloudTrailBucketAcl.KeptNonPublic | AWS/lambda_package/runbooks/AWS-CLT-006.py:67-71 | an ACL with no public grant is kept whole |
| CloudTrailBucketAcl.KeptGrantsIdempotent | AWS/lambda_package/runbooks/AWS-CLT-006.py:67-71 | the kept grants contain no public grant, and filtering them again changes nothing |
| CloudTrailBucketAcl.RemovePublicAcl | AWS/lambda_package/runbooks/AWS-CLT-006.py:82-97 | one ACL write; prints the removal note or the error; never raises |
| CloudTrailBucketAcl.Remediate | AWS/lambda_package/runbooks/AWS-CLT-006.py:39-79 | reads the ACL of the bucket named by the resource id; a read error ends the run with no write. Exactly when some grant is public, it writes one ACL: the same owner, and the input grants minus the public ones, in order |
| EbsSnapshot.NoSnapshotNeedsOne | AWS/lambda_package/runbooks/AWS-EC2-001.py:74-75 | no snapshot at all: a snapshot is needed |
| EbsSnapshot.OnlyFirstSnapshotCounts | AWS/lambda_package/runbooks/AWS-EC2-001.py:69-73 | otherwise a snapshot is needed exactly when the first snapshot is at least 15 days old; the rest of the list is never looked at |
| EbsSnapshot.SnapshotAgeBoundary | AWS/lambda_package/runbooks/AWS-EC2-001.py:73 | 15 days old is needed, 14 is not, and a snapshot dated after today is not |
| EbsSnapshot.NewEbsSnapshot | AWS/lambda_package/runbooks/AWS-EC2-001.py:83-97 | one create call for the volume, described `Autoremediate snapshot`; prints the new id or the error; never raises |
| EbsSnapshot.Remediate | AWS/lambda_package/runbooks/AWS-EC2-001.py:52-80 | describes the volume's snapshots; a describe error ends the run with no create. Exactly one create when a snapshot is needed, none otherwise |
| EbsSnapshot.FreshSnapshotSatisfies | AWS/lambda_package/runbooks/AWS-EC2-001.py:68-78 | when the first snapshot returned was taken today, the run issues no create call |
| RdsPublicAccess.PublicFlag | AWS/lambda_package/runbooks/AWS-RDS-005.py:62-65 | the flag is set exactly when there is a first instance and its `PubliclyAccessible` is present and true; an empty list or a missing key reads as false |
| RdsPublicAccess.Remediate | AWS/lambda_package/runbooks/AWS-RDS-005.py:38-83 | describes by resource id; a describe error ends the run with no modify. Modify is called exactly when the flag is set, once, on the first instance's identifier, with `PubliclyAccessible` false. No other mutating call. The success note only when modify went through; a modify error prints the message and ends the run |
| RdsPublicAccess.SecondRunModifiesNothing | AWS/lambda_package/runbooks/AWS-RDS-005.py:62-75 | once the instance reads as not public, a run issues no mutating call |

## Left out

- Sessions, clients and the network. Every call is an outcome given as input, and only the arguments that affect behaviour are kept.
- `json.dumps` of the policy. The policy is a datatype, not serialised text.
- The printed text. Only which message is printed, and with which identifiers, is kept.
- `date.today()` and the time zone of `StartTime.date()`. Both dates are day numbers, and today is a parameter.
- The `IndexError` that `split(...)[k]` raises on a malformed resource id or ARN. Enough fields is a precondition (`WellFormed` in `ElbV2AccessLog`; `ClassicElbAccessLog.Remediate` requires two fields).
- The `KeyError` raised by a response lacking a required key: `AccessLog`, `Enabled`, `DBInstanceIdentifier`, `SnapshotId`, `Owner`, `Grants`. The record types make these keys present. The optional keys the runbooks catch (`LoadBalancerArn`, `PubliclyAccessible`, `Grantee`, `Type`, `URI`) are `Option`s and are modelled.
- Python truthiness. `PubliclyAccessible` and `AccessLog.Enabled` are booleans, as the provider returns them.
- The other runbooks (`AWS-IAM-016`, `PC-AWS-S3-29`, `AWS-SSS-014`, `AWS-TEST-001`). Each is one unconditional call with a constant payload, with no decision to model.
- The dispatcher that calls `remediate` is not part of this model, and neither is concurrency between invocations.
