# Auto-remediation and forwarding handlers, modelled in Dafny

This project models the decision logic of three AWS Lambda handlers:

- the **S3 encryption remediator**, which finds the bucket an event is about, turns on default
  server-side encryption, reads the bucket's encryption configuration before and after, and
  publishes a before/after audit record on EventBridge;
- the **SNS encryption remediator**, which does the same for a topic's `KmsMasterKeyId`, resolving a
  KMS alias with a fallback to the AWS managed key;
- the **forwarder**, which turns EventBridge events of three provenances (pass-through remediation
  events, Config compliance changes, Security Hub finding resolutions) into one payload for the IaC
  sync agent, drops everything else, and answers 200 or 500 around the agent call.

Modules:

- `Wrappers`: `Option` (a key absent or present) and `Attempt` (a call that returns or raises).
- `Strings`: `startswith`, `in`, `str.replace(p, '')` (`RemoveAll`) and `split(c)[-1]` (`AfterLast`).
- `Json`: scalar values (`Null` or a string), Python truthiness, `or`, and the JSON objects the
  records carry.
- `Settings`: the environment variables, resolved once into one immutable `Environment` value.
- `Inbound`: the remediators' inbound event, a record of optional keys (several shapes may be
  present at once), the Security Hub and Config-item probes, and `FirstMatch`, the first-match-wins
  rule both extractors are built on.
- `AuditBus`: the audit record, the bus entry and the `EventBus` class (the entries that reached it).
- `S3Remediation`, `SnsRemediation`: extraction, the control plane as a class over a map
  (`BucketStore.buckets`, `TopicStore.topics`), the record, and `LambdaHandler`, a method that runs
  read, write, read, publish against the store and the bus and is proved equal to the pure
  specification `Remediation`, about which the lemmas speak.
- `Forwarder`: `TransformEvent`, `GetActionFromRule` and `LambdaHandler`, all pure.

Behaviours of the code that the model keeps as written:

- The inbound event is not a tagged union with one variant per instance. The handlers probe keys in
  a fixed order, the first probe that matches wins even when the value it finds is empty or null,
  and an empty or null result is then a 400.
- The forwarder's pass-through branch tests the source `aws.autoremediation`
  (forwarder/lambda/forwarder.py:93). Both remediators publish with the source
  `custom.autoremediation` (autoremediation/s3_encryption_remediation.py:178,
  autoremediation/sns_encryption_remediation.py:181). Their records therefore fall through to the
  final `return None` and are dropped. `Forwarder.RemediationEntriesDropped` proves it.
- In the S3 remediator, the account lookup in `send_iac_sync_event` sits outside its `try`. If it
  fails, the handler answers 500 even though the encryption was already written
  (`S3Remediation.AccountFailureAfterWrite`).

## Model

| member | source | states |
|---|---|---|
| `Inbound.FirstMatch` | autoremediation/s3_encryption_remediation.py:73-105 | the result is the value of the earliest matching probe, or the fallback `None` when no probe matches |
| `Inbound.FirstMatchAt` | autoremediation/sns_encryption_remediation.py:73-107 | the earliest matching probe decides, whatever later probes would return |
| `Inbound.FirstOfType` | autoremediation/s3_encryption_remediation.py:90-91 | the loop finds the first resource of the given `Type`: it has that type, none before it does, and `None` means none does |
| `Inbound.SecurityHubResource` | autoremediation/s3_encryption_remediation.py:86-91 | only the first finding is searched; the result is the first of its resources with the wanted type, and `None` means there is no finding or none of the first finding's resources has that type |
| `Inbound.ConfigItemOfType` | autoremediation/s3_encryption_remediation.py:99-103 | the event's configuration item is used exactly when it is present and its `resourceType` matches |
| `Strings.RemoveAll` | autoremediation/s3_encryption_remediation.py:95 | `replace(p, '')` never lengthens the string and leaves it unchanged when `p` does not occur |
| `Strings.RemovePrefix` | autoremediation/s3_encryption_remediation.py:94-95 | removing a prefix that occurs nowhere in the rest gives exactly the rest |
| `Strings.RemoveLeading` | autoremediation/s3_encryption_remediation.py:95 | a leading occurrence of the pattern is removed whatever follows, so repeated leading copies all go |
| `Strings.AfterLast` | autoremediation/sns_encryption_remediation.py:157 | `split(c)[-1]` is a suffix free of `c`, preceded by `c` unless it is the whole string |
| `Strings.AfterLastOfJoin` | autoremediation/sns_encryption_remediation.py:89 | splitting `front + c + last` on `c` gives back exactly `last`, when `last` has no `c` |
| `Json.OrElse` | forwarder/lambda/forwarder.py:98 | `v or default` keeps a truthy string, replaces `None` or `''`, and is never empty when the default is not |
| `S3Remediation.ExtractBucketName` | autoremediation/s3_encryption_remediation.py:70-105 | extraction raises exactly when no earlier probe matched and the first S3 resource of the first finding has a null `Id` |
| `S3Remediation.DirectKeyWins` | autoremediation/s3_encryption_remediation.py:73-75 | a `bucket_name` key is returned whatever else the event holds |
| `S3Remediation.CloudTrailBeforeResourceId` | autoremediation/s3_encryption_remediation.py:77-79 | a CloudTrail CreateBucket event yields `bucketName`, even a missing one, before `resourceId` is looked at |
| `S3Remediation.ResourceIdBeforeFindings` | autoremediation/s3_encryption_remediation.py:81-83 | `resourceId` is returned unchanged ahead of findings and `invokingEvent` |
| `S3Remediation.FindingArnToBucket` | autoremediation/s3_encryption_remediation.py:93-96 | the Security Hub `Id` `arn:aws:s3:::name` of a colon-free bucket name gives `name` |
| `S3Remediation.FindingArnYieldsBucket` | autoremediation/s3_encryption_remediation.py:85-96 | a finding naming the bucket by ARN yields the bare bucket name |
| `S3Remediation.FindingIdVerbatim` | autoremediation/s3_encryption_remediation.py:93-96 | an `Id` that does not start with `arn:aws:s3:::` is returned unchanged, and a missing one as `''` |
| `S3Remediation.RepeatedArnPrefixStripped` | autoremediation/s3_encryption_remediation.py:94-95 | `replace` removes every copy of the prefix: `arn:aws:s3:::arn:aws:s3:::name` still gives `name` |
| `S3Remediation.FindingsFallThrough` | autoremediation/s3_encryption_remediation.py:98-105 | with no S3 resource in the first finding, `invokingEvent` decides, and no match gives `None` |
| `S3Remediation.EncryptionConfig` | autoremediation/s3_encryption_remediation.py:125-134 | `SSEAlgorithm` is the configured algorithm (AES256 by default); `KMSMasterKeyID` is present iff the algorithm is `aws:kms` and a non-empty key id is set |
| `S3Remediation.KmsSettingsCarryKey` | autoremediation/s3_encryption_remediation.py:132-146 | with `aws:kms` and a key id, the written rule carries the key and enables the bucket key |
| `S3Remediation.ReadEncryption` | autoremediation/s3_encryption_remediation.py:108-119 | `None` iff the bucket has no configuration, `{}` for no rules, else the first rule's defaults; a missing bucket or a denied read raises |
| `S3Remediation.WriteEncryption` | autoremediation/s3_encryption_remediation.py:136-146 | the write succeeds iff the bucket exists and accepts writes; it replaces that bucket's rules by the one rule, keeps its permissions, and changes no other bucket |
| `S3Remediation.ReadAfterWrite` | autoremediation/s3_encryption_remediation.py:44-47 | after the write, re-reading a readable bucket returns exactly the defaults that were written |
| `S3Remediation.BucketStore.GetBucketEncryption` | autoremediation/s3_encryption_remediation.py:108-119 | the store's read agrees with `ReadEncryption` |
| `S3Remediation.BucketStore.PutBucketEncryption` | autoremediation/s3_encryption_remediation.py:136-146 | the store's new bucket map is the one `WriteEncryption` gives, or the old one if the write raises |
| `S3Remediation.EnableEncryption` | autoremediation/s3_encryption_remediation.py:122-149 | writes the desired rule and returns exactly the defaults it wrote |
| `S3Remediation.StateRoundTrip` | autoremediation/s3_encryption_remediation.py:165-170 | `{'encryption': state}` reads back as the same state, keeping `None` apart from `{}` |
| `S3Remediation.AuditRecordFor` | autoremediation/s3_encryption_remediation.py:152-172 | the record has the bucket as `resourceId`, `arn:aws:s3:::` + bucket as ARN, action `EnableDefaultEncryption`, the two read states, `repoUrl` defaulting to `''` and channel defaulting to `iac-alerts` |
| `S3Remediation.RecordArnRoundTrip` | autoremediation/s3_encryption_remediation.py:157 | the record's ARN leads back to its bucket through the Security Hub probe |
| `S3Remediation.SendIacSyncEvent` | autoremediation/s3_encryption_remediation.py:152-187 | raises iff the account lookup fails; the entry is appended to the bus iff `put_events` succeeds, and a failed publish is swallowed |
| `S3Remediation.Remediation` | autoremediation/s3_encryption_remediation.py:21-67 | the status is 200, 400 or 500, and a record is produced exactly on 200 |
| `S3Remediation.LambdaHandler` | autoremediation/s3_encryption_remediation.py:32-60 | the reply, the buckets afterwards and the published entries are those of `Remediation` |
| `S3Remediation.FalsyNameIsClientError` | autoremediation/s3_encryption_remediation.py:33-38 | a falsy bucket name gives 400 with no read, no write and no record |
| `S3Remediation.ExtractionFailureIsServerError` | autoremediation/s3_encryption_remediation.py:33-67 | an extraction that raises (a null Security Hub `Id`) gives 500 with nothing changed and no record |
| `S3Remediation.UsableBucketSucceeds` | autoremediation/s3_encryption_remediation.py:40-60 | a truthy name of a bucket that can be read and written, with a working account lookup, gives 200 with the written defaults and a record |
| `S3Remediation.UnusableBucketIsServerError` | autoremediation/s3_encryption_remediation.py:116-119 | a missing bucket, or one whose configuration cannot be read or written, gives 500 with nothing changed and no record |
| `S3Remediation.SuccessfulRun` | autoremediation/s3_encryption_remediation.py:40-60 | on 200 the bucket holds exactly the desired rule, and the record carries the state read before and the written defaults read after |
| `S3Remediation.Idempotent` | autoremediation/s3_encryption_remediation.py:40-60 | a second run on the result changes nothing, replies the same, and sees the first run's after-state as its before-state |
| `S3Remediation.AccountFailureAfterWrite` | autoremediation/s3_encryption_remediation.py:152-156 | a failing account lookup gives 500 with no record, though the encryption was already written |
| `S3Remediation.DirectInvocationDefaults` | autoremediation/s3_encryption_remediation.py:122-149 | `{"bucket_name": "my-bucket"}` with no settings writes AES256 without a bucket key, and the before-state is null |
| `SnsRemediation.ExtractTopicArn` | autoremediation/sns_encryption_remediation.py:70-107 | extraction raises exactly when no earlier probe matched and the `resourceId` is null or needs the account lookup that fails |
| `SnsRemediation.DirectKeyWins` | autoremediation/sns_encryption_remediation.py:73-75 | a `topic_arn` key is returned whatever else the event holds |
| `SnsRemediation.CloudTrailBeforeResourceId` | autoremediation/sns_encryption_remediation.py:77-79 | a CloudTrail CreateTopic event yields `topicArn`, even a missing one, before `resourceId` |
| `SnsRemediation.ArnResourceIdKept` | autoremediation/sns_encryption_remediation.py:82-85 | a `resourceId` starting with `arn:aws:sns:` is returned unchanged, whatever the account lookup would do |
| `SnsRemediation.BareResourceIdQualified` | autoremediation/sns_encryption_remediation.py:86-89 | any other `resourceId` becomes `arn:aws:sns:{region}:{account}:{resourceId}` |
| `SnsRemediation.FindingIdVerbatim` | autoremediation/sns_encryption_remediation.py:91-98 | a Security Hub `AwsSnsTopic` resource's `Id` is returned verbatim |
| `SnsRemediation.FindingsFallThrough` | autoremediation/sns_encryption_remediation.py:100-107 | with no SNS resource in the first finding, the Config item's `ARN` decides, and no match gives `None` |
| `SnsRemediation.TopicName` | autoremediation/sns_encryption_remediation.py:157 | the record's `resourceId` is the longest colon-free suffix of the ARN: it is preceded by `:` unless it is the whole ARN |
| `SnsRemediation.TopicNameRoundTrip` | autoremediation/sns_encryption_remediation.py:89 | a colon-free topic name, qualified into an ARN, is split back out unchanged |
| `SnsRemediation.ResourceIdRoundTrip` | autoremediation/sns_encryption_remediation.py:82-89 | a colon-free `resourceId` is extracted as an ARN whose topic name is that `resourceId` |
| `SnsRemediation.GetKmsKeyId` | autoremediation/sns_encryption_remediation.py:136-151 | never fails: the result is the managed alias or the custom alias's resolved key; an unresolvable alias falls back to `alias/aws/sns` |
| `SnsRemediation.ManagedAliasNeedsNoLookup` | autoremediation/sns_encryption_remediation.py:140-142 | the managed alias is returned without consulting KMS |
| `SnsRemediation.ReadAttributes` | autoremediation/sns_encryption_remediation.py:110-117 | never raises: the topic's attributes, or `{}` when the topic is missing or the read is denied |
| `SnsRemediation.WriteAttribute` | autoremediation/sns_encryption_remediation.py:126-130 | succeeds iff the topic exists and accepts writes; the attribute names become the old ones plus this one, which gets the value; other attributes, the topic's permissions and the other topics are kept |
| `SnsRemediation.TopicStore.GetTopicAttributes` | autoremediation/sns_encryption_remediation.py:110-117 | the store's read agrees with `ReadAttributes` |
| `SnsRemediation.TopicStore.SetTopicAttributes` | autoremediation/sns_encryption_remediation.py:126-130 | the store's new topic map is the one `WriteAttribute` gives, or the old one if the call raises |
| `SnsRemediation.EnableEncryption` | autoremediation/sns_encryption_remediation.py:120-133 | sets `KmsMasterKeyId` to exactly the key from `GetKmsKeyId` and returns that key |
| `SnsRemediation.AuditRecordFor` | autoremediation/sns_encryption_remediation.py:154-175 | `resourceId` is the colon-free last ARN segment; `before.encryption` is null and `before.kmsMasterKeyId` the before attribute or null; `after.encryption.kmsMasterKeyId` the after attribute, defaulting to `alias/aws/sns` |
| `SnsRemediation.SendIacSyncEvent` | autoremediation/sns_encryption_remediation.py:154-190 | the entry is appended iff `put_events` succeeds; a failure is swallowed |
| `SnsRemediation.Remediation` | autoremediation/sns_encryption_remediation.py:21-67 | the status is 200, 400 or 500, and a record is produced exactly on 200 |
| `SnsRemediation.LambdaHandler` | autoremediation/sns_encryption_remediation.py:32-60 | the reply, the topics afterwards and the published entries are those of `Remediation` |
| `SnsRemediation.FalsyArnIsClientError` | autoremediation/sns_encryption_remediation.py:33-38 | a falsy ARN gives 400 with no control-plane call and no record |
| `SnsRemediation.ExtractionFailureIsServerError` | autoremediation/sns_encryption_remediation.py:62-88 | an extraction that raises (a null `resourceId`, or a failed account lookup for a bare one) gives 500 with nothing changed and no record |
| `SnsRemediation.FailedWriteIsServerError` | autoremediation/sns_encryption_remediation.py:41-44 | a missing topic, or one that refuses the write, gives 500 (a failed before-read alone is swallowed) |
| `SnsRemediation.SuccessfulRun` | autoremediation/sns_encryption_remediation.py:40-60 | on 200 only `KmsMasterKeyId` changes, to the resolved key; the record's keys are the old and the new one when the topic can be read, and null and `alias/aws/sns` when it cannot, whatever key was written |
| `SnsRemediation.Idempotent` | autoremediation/sns_encryption_remediation.py:40-60 | a second run on the result changes nothing, replies the same, publishes the same after-state, and its before key is the first run's key when the topic can be read |
| `SnsRemediation.RewriteChangesNothing` | autoremediation/sns_encryption_remediation.py:126-130 | writing an attribute the value it already has leaves every topic as it was |
| `SnsRemediation.WrittenRun` | autoremediation/sns_encryption_remediation.py:32-60 | when the write succeeds, the reply is 200 with the key and the record is built from the two reads around the write |
| `AuditBus.EventBus.PutEvents` | autoremediation/s3_encryption_remediation.py:175-184 | the bus gains the entry iff the service accepts it |
| `Forwarder.GetActionFromRule` | forwarder/lambda/forwarder.py:158-170 | a known rule maps to its table entry, any other to exactly `Remediate_` followed by the rule's name |
| `Forwarder.KnownRules` | forwarder/lambda/forwarder.py:160-169 | the eight table entries, with public read and public write both `BlockPublicAccess` |
| `Forwarder.TransformEvent` | forwarder/lambda/forwarder.py:89-155 | only the three handled sources are ever forwarded; it raises exactly on a Config event with a null detail-type or a resolved finding whose first resource has a null `Id` |
| `Forwarder.PassThroughForwarded` | forwarder/lambda/forwarder.py:93-102 | an `aws.autoremediation` event is always forwarded: present fields are copied, missing ones become `''` or `{}`, and a falsy repository URL or channel becomes the configured default |
| `Forwarder.ComplianceChangeForwardedIffCompliant` | forwarder/lambda/forwarder.py:105-125 | forwarded iff the new compliance type is `COMPLIANT`, then with the detail's resource type and id, the rule's action, the configured repository URL and channel, from `{compliant: False}` to `{compliant: True, rule}` |
| `Forwarder.OtherConfigEventsDropped` | forwarder/lambda/forwarder.py:105 | a Config event of another detail-type is dropped |
| `Forwarder.UnresolvedFindingsDropped` | forwarder/lambda/forwarder.py:128-143 | dropped when there is no finding, the first has no resources, or its status is not `RESOLVED` |
| `Forwarder.ResolvedFindingForwarded` | forwarder/lambda/forwarder.py:138-153 | `resourceId` is the last `/`-segment of the first resource's `Id` (slash-free, ending the `Id`, preceded by `/` unless it is all of it), type the resource's, action the title or `SecurityHubRemediation`, the configured repository URL and channel, from FAILED to PASSED |
| `Forwarder.OtherSourcesDropped` | forwarder/lambda/forwarder.py:155 | any other source, or a null one, is dropped |
| `Forwarder.RemediationEntriesDropped` | forwarder/lambda/forwarder.py:92-102 | the entries both remediators publish are dropped, whatever their detail |
| `Forwarder.Respond` | forwarder/lambda/forwarder.py:35-48 | the handler crashes exactly when the transform raised, and otherwise answers 200 or 500 |
| `Forwarder.LambdaHandler` | forwarder/lambda/forwarder.py:24-48 | the handler crashes exactly on a Config event with a null detail-type or a resolved finding with a null resource `Id`; a response is always 200 or 500 |
| `Forwarder.SkippedWithoutInvoking` | forwarder/lambda/forwarder.py:35-37 | a dropped event gets 200 `Skipped - not a remediation event`, whatever the agent would have answered |
| `Forwarder.MissingEndpointIsServerError` | forwarder/lambda/forwarder.py:46-55 | a forwarded payload with no endpoint gets 500 with the guard's message |
| `Forwarder.ForwardedAnswer` | forwarder/lambda/forwarder.py:41-48 | with an endpoint, the agent's answer is passed on with 200, and a failure becomes 500 with its text |

## Left out

- AWS service calls (S3, SNS, KMS, STS, EventBridge) are abstract inputs and state. The S3 and SNS services are the maps held by `BucketStore` and `TopicStore`. A failing S3 or SNS call is a missing bucket or topic, or one whose reads or writes are denied; a permission does not change between the calls of one run, so the S3 read after a successful write does not fail. The STS account lookup is an `Attempt<string>` parameter. KMS `describe_key` is a map from the aliases it can resolve to their `KeyId`. The outcome of `put_events` is a boolean parameter.
- `invoke_agentcore` keeps only its missing-endpoint guard. SigV4 signing, credential lookup, the HTTP POST and response decoding are network I/O and foreign libraries. The agent's answer is an `AgentReply` parameter.
- JSON encoding and decoding are left out. `invokingEvent` arrives already parsed, and a malformed one (which would raise and give 500) is not modelled. The 200 bodies are typed replies, not JSON text.
- The text of exceptions in the remediators' 500 bodies is not modelled. Those replies are `ServerError`.
- Logging and `print` are left out.
- The module-level client singletons are left out.
- The environment is one `Environment` value. The S3 remediator's module-load default for `ENCRYPTION_ALGORITHM` and the SNS remediator's for `KMS_KEY_ALIAS` read the same variable as the call-time lookup, so each is modelled as one default. `AGENT_ID` is never used. The S3 remediator's `AWS_REGION` read in `send_iac_sync_event` is unused.
- Event fields are strings, null or absent. A null `detail` is not modelled (it would raise outside the `try` and crash the forwarder). Numbers, booleans and arrays where a string is expected are not modelled. The same goes for null or non-object values where an object is expected: `detail`, `Resources`, `configurationItem`, `newEvaluationResult`, `Workflow`. A null `findings` list behaves as an empty one in every branch and is represented as one.
- The forwarder's `before` and `after` pass-through values are JSON without numbers or arrays.
- The request body that `invoke_agentcore` builds from the payload and the session id is not modelled.
- RemoveAll: its contract bounds the length and fixes the case with no occurrence. The left-to-right scan is pinned down by `RemoveLeading` and `RemovePrefix` rather than by a "no occurrence is left" clause, because that clause would be false: removing one occurrence can join two halves into a new one (`"aabb"` without `"ab"` is `"ab"`), in Python as here.
