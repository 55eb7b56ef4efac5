/**
 * The S3 remediation handler: find the bucket an event is about, turn on default
 * encryption, read the configuration before and after, and publish the difference.
 */
module S3Remediation {
  import opened Wrappers
  import opened Strings
  import opened Json
  import opened Settings
  import opened Inbound
  import opened AuditBus

  const DefaultAlgorithm: string := "AES256"
  const KmsAlgorithm: string := "aws:kms"
  const ArnPrefix: string := "arn:aws:s3:::"

  // ----- Bucket name extraction -----

  /** The Security Hub resource `Id`: an S3 ARN loses every `arn:aws:s3:::`, any other string is kept. */
  function BucketFromId(id: Value): Attempt<Value> {
    match id
    case Null => Raised  // `None.startswith` raises
    case Str(s) => if StartsWith(s, ArnPrefix) then Ok(Str(RemoveAll(s, ArnPrefix))) else Ok(id)
  }

  /** The five probes of `extract_bucket_name`, in the order it tries them. */
  function BucketProbes(e: InboundEvent): seq<Option<Attempt<Value>>> {
    [ if e.bucketNameKey.Some? then Some(Ok(e.bucketNameKey.value)) else None,
      if IsCloudTrailCreate(e, "CreateBucket") then Some(Ok(Get(e.bucketName))) else None,
      if e.resourceId.Some? then Some(Ok(e.resourceId.value)) else None,
      match SecurityHubResource(e, "AwsS3Bucket")
      case Some(res) => Some(BucketFromId(GetOr(res.id, "")))
      case None => None,
      match ConfigItemOfType(e, "AWS::S3::Bucket")
      case Some(item) => Some(Ok(Get(item.resourceName)))
      case None => None ]
  }

  /**
   * `extract_bucket_name`: the first probe that matches decides, even when the value it
   * finds is empty or null; when none matches the result is `None`.
   */
  function ExtractBucketName(e: InboundEvent): (r: Attempt<Value>)
    ensures r.Raised? <==>
              && e.bucketNameKey.None? && !IsCloudTrailCreate(e, "CreateBucket") && e.resourceId.None?
              && SecurityHubResource(e, "AwsS3Bucket").Some?
              && GetOr(SecurityHubResource(e, "AwsS3Bucket").value.id, "") == Null
  {
    var probes := BucketProbes(e);
    if e.bucketNameKey.None? && !IsCloudTrailCreate(e, "CreateBucket") && e.resourceId.None?
       && SecurityHubResource(e, "AwsS3Bucket").Some?
    then
      FirstMatchAt(probes, Ok(Null), 3);  // the Security Hub probe is the first to match
      FirstMatch(probes, Ok(Null))
    else
      // only the Security Hub probe can raise, and here it is not the first to match
      assert |probes| == 5 && probes[0] != Some(Raised) && probes[1] != Some(Raised);
      assert probes[2] != Some(Raised) && probes[4] != Some(Raised);
      assert probes[3] == Some(Raised) ==> probes[0].Some? || probes[1].Some? || probes[2].Some?;
      FirstMatch(probes, Ok(Null))
  }

  /** A direct `bucket_name` key wins whatever else the event carries. */
  lemma DirectKeyWins(e: InboundEvent)
    requires e.bucketNameKey.Some?
    ensures ExtractBucketName(e) == Ok(e.bucketNameKey.value)
  {
    FirstMatchAt(BucketProbes(e), Ok(Null), 0);
  }

  /** A CloudTrail CreateBucket event yields `bucketName`, even a missing one, before `resourceId` is consulted. */
  lemma CloudTrailBeforeResourceId(e: InboundEvent)
    requires e.bucketNameKey.None? && IsCloudTrailCreate(e, "CreateBucket")
    ensures ExtractBucketName(e) == Ok(Get(e.bucketName))
  {
    FirstMatchAt(BucketProbes(e), Ok(Null), 1);
  }

  /** A Config `resourceId` is returned as it is when no earlier shape matched. */
  lemma ResourceIdBeforeFindings(e: InboundEvent)
    requires e.bucketNameKey.None? && !IsCloudTrailCreate(e, "CreateBucket") && e.resourceId.Some?
    ensures ExtractBucketName(e) == Ok(e.resourceId.value)
  {
    FirstMatchAt(BucketProbes(e), Ok(Null), 2);
  }

  /**
   * A Security Hub finding naming the bucket by its ARN yields the bare bucket name
   * (bucket names never contain a colon).
   */
  lemma {:induction false} FindingArnYieldsBucket(e: InboundEvent, res: Resource, name: string)
    requires e.bucketNameKey.None? && !IsCloudTrailCreate(e, "CreateBucket") && e.resourceId.None?
    requires SecurityHubResource(e, "AwsS3Bucket") == Some(res)
    requires res.id == Some(Str(ArnPrefix + name)) && ':' !in name
    ensures ExtractBucketName(e) == Ok(Str(name))
  {
    FindingArnToBucket(name);
    FirstMatchAt(BucketProbes(e), Ok(Null), 3);
  }

  /** Stripping the S3 ARN prefix from a bucket's ARN gives back the bucket name. */
  lemma {:induction false} FindingArnToBucket(name: string)
    requires ':' !in name
    ensures BucketFromId(Str(ArnPrefix + name)) == Ok(Str(name))
  {
    NoCharNoOccurrence(name, ArnPrefix, ':');
    RemovePrefix(ArnPrefix, name);
    assert StartsWith(ArnPrefix + name, ArnPrefix);
  }

  /** A Security Hub `Id` that is not an S3 ARN is returned unchanged; a missing one reads as `''`. */
  lemma FindingIdVerbatim(e: InboundEvent, res: Resource)
    requires e.bucketNameKey.None? && !IsCloudTrailCreate(e, "CreateBucket") && e.resourceId.None?
    requires SecurityHubResource(e, "AwsS3Bucket") == Some(res)
    requires GetOr(res.id, "").Str? && !StartsWith(GetOr(res.id, "").s, ArnPrefix)
    ensures ExtractBucketName(e) == Ok(GetOr(res.id, ""))
  {
    FirstMatchAt(BucketProbes(e), Ok(Null), 3);
  }

  /** `replace` strips every leading copy of the prefix, not just the first. */
  lemma {:induction false} RepeatedArnPrefixStripped(name: string)
    requires ':' !in name
    ensures BucketFromId(Str(ArnPrefix + ArnPrefix + name)) == Ok(Str(name))
  {
    assert ArnPrefix + ArnPrefix + name == ArnPrefix + (ArnPrefix + name);
    assert StartsWith(ArnPrefix + (ArnPrefix + name), ArnPrefix);
    RemoveLeading(ArnPrefix, ArnPrefix + name);
    FindingArnToBucket(name);
    assert StartsWith(ArnPrefix + name, ArnPrefix);
  }

  /** A finding with no S3 resource falls through to the `invokingEvent` probe. */
  lemma FindingsFallThrough(e: InboundEvent)
    requires e.bucketNameKey.None? && !IsCloudTrailCreate(e, "CreateBucket") && e.resourceId.None?
    requires SecurityHubResource(e, "AwsS3Bucket").None?
    ensures ExtractBucketName(e) == match ConfigItemOfType(e, "AWS::S3::Bucket")
                                    case Some(item) => Ok(Get(item.resourceName))
                                    case None => Ok(Null)
  {
    if ConfigItemOfType(e, "AWS::S3::Bucket").Some? {
      FirstMatchAt(BucketProbes(e), Ok(Null), 4);
    }
  }

  // ----- Encryption settings -----

  /** ENCRYPTION_ALGORITHM, defaulting to AES256. */
  function Algorithm(env: Environment): string {
    env.encryptionAlgorithm.GetOr(DefaultAlgorithm)
  }

  /** KMS_KEY_ID is set and non-empty. */
  predicate KmsKeyConfigured(env: Environment) {
    env.kmsKeyId.Some? && env.kmsKeyId.value != ""
  }

  /** The `ApplyServerSideEncryptionByDefault` dict `enable_encryption` builds. */
  function EncryptionConfig(env: Environment): (c: map<string, string>)
    ensures "SSEAlgorithm" in c && c["SSEAlgorithm"] == Algorithm(env)
    ensures "KMSMasterKeyID" in c <==> Algorithm(env) == KmsAlgorithm && KmsKeyConfigured(env)
    ensures "KMSMasterKeyID" in c ==> c["KMSMasterKeyID"] == env.kmsKeyId.value
    ensures c.Keys <= {"SSEAlgorithm", "KMSMasterKeyID"}
  {
    var c := map["SSEAlgorithm" := Algorithm(env)];
    if Algorithm(env) == KmsAlgorithm && KmsKeyConfigured(env) then c["KMSMasterKeyID" := env.kmsKeyId.value] else c
  }

  // ----- The bucket control plane -----

  /** One rule of a bucket's server-side encryption configuration. */
  datatype EncryptionRule = EncryptionRule(applyByDefault: Option<map<string, string>>, bucketKeyEnabled: bool)

  /**
   * A bucket: its encryption configuration (`None` when it has none), and whether reading
   * and writing that configuration are allowed (a denied call raises).
   */
  datatype Bucket = Bucket(encryption: Option<seq<EncryptionRule>>, readable: bool, writable: bool)

  /** The single rule `enable_encryption` writes. */
  function DesiredRule(env: Environment): EncryptionRule {
    EncryptionRule(Some(EncryptionConfig(env)), Algorithm(env) == KmsAlgorithm)
  }

  /**
   * `get_bucket_encryption`: `None` when the bucket has no configuration, `{}` when it
   * has no rules, otherwise the first rule's defaults; a missing bucket or a denied read raises.
   */
  function ReadEncryption(buckets: map<string, Bucket>, b: string): (r: Attempt<Option<map<string, string>>>)
    ensures r.Raised? <==> b !in buckets || !buckets[b].readable
    ensures r == Ok(None) <==> b in buckets && buckets[b].readable && buckets[b].encryption.None?
    ensures r == Ok(Some(map[])) <== b in buckets && buckets[b].readable && buckets[b].encryption == Some([])
    ensures b in buckets && buckets[b].readable && buckets[b].encryption.Some? && buckets[b].encryption.value != [] ==>
              r == Ok(Some(buckets[b].encryption.value[0].applyByDefault.GetOr(map[])))
  {
    if b !in buckets || !buckets[b].readable then Raised
    else match buckets[b].encryption
      case None => Ok(None)
      case Some(rules) => if rules != [] then Ok(Some(rules[0].applyByDefault.GetOr(map[]))) else Ok(Some(map[]))
  }

  /** `put_bucket_encryption`: replaces the bucket's configuration by one rule; raises when the bucket is missing or refuses writes. */
  function WriteEncryption(buckets: map<string, Bucket>, b: string, rule: EncryptionRule): (r: Attempt<map<string, Bucket>>)
    ensures r.Ok? <==> b in buckets && buckets[b].writable
    ensures r.Ok? ==> r.value.Keys == buckets.Keys && r.value[b].encryption == Some([rule])
    ensures r.Ok? ==> r.value[b].readable == buckets[b].readable && r.value[b].writable == buckets[b].writable
    ensures r.Ok? ==> forall other | other in buckets && other != b :: r.value[other] == buckets[other]
  {
    if b in buckets && buckets[b].writable then Ok(buckets[b := buckets[b].(encryption := Some([rule]))]) else Raised
  }

  /** After a successful write, reading the bucket back gives exactly the defaults that were written. */
  lemma ReadAfterWrite(buckets: map<string, Bucket>, b: string, env: Environment)
    requires WriteEncryption(buckets, b, DesiredRule(env)).Ok? && buckets[b].readable
    ensures ReadEncryption(WriteEncryption(buckets, b, DesiredRule(env)).value, b) == Ok(Some(EncryptionConfig(env)))
  {
  }

  /** The S3 service as the remediation sees it: every bucket and its encryption configuration. */
  class BucketStore {
    var buckets: map<string, Bucket>

    constructor (buckets: map<string, Bucket>)
      ensures this.buckets == buckets
    {
      this.buckets := buckets;
    }

    method GetBucketEncryption(b: string) returns (r: Attempt<Option<map<string, string>>>)
      ensures r == ReadEncryption(buckets, b)
    {
      if b !in buckets || !buckets[b].readable {
        return Raised;
      }
      var bucket := buckets[b];
      if bucket.encryption.None? {
        return Ok(None);
      }
      var rules := bucket.encryption.value;
      if rules != [] {
        return Ok(Some(rules[0].applyByDefault.GetOr(map[])));
      }
      return Ok(Some(map[]));
    }

    method PutBucketEncryption(b: string, rule: EncryptionRule) returns (r: Attempt<()>)
      modifies this
      ensures r.Ok? <==> WriteEncryption(old(buckets), b, rule).Ok?
      ensures buckets == match WriteEncryption(old(buckets), b, rule)
                         case Ok(next) => next
                         case Raised => old(buckets)
    {
      if b !in buckets || !buckets[b].writable {
        return Raised;
      }
      buckets := buckets[b := buckets[b].(encryption := Some([rule]))];
      return Ok(());
    }
  }

  /** `enable_encryption`: writes the desired rule and returns the defaults it wrote. */
  method EnableEncryption(store: BucketStore, env: Environment, b: string) returns (r: Attempt<map<string, string>>)
    modifies store
    ensures r.Ok? <==> WriteEncryption(old(store.buckets), b, DesiredRule(env)).Ok?
    ensures r.Ok? ==> r.value == EncryptionConfig(env)
    ensures store.buckets == match WriteEncryption(old(store.buckets), b, DesiredRule(env))
                             case Ok(next) => next
                             case Raised => old(store.buckets)
  {
    var config := EncryptionConfig(env);
    var written := store.PutBucketEncryption(b, EncryptionRule(Some(config), Algorithm(env) == KmsAlgorithm));
    if written.Raised? {
      return Raised;
    }
    return Ok(config);
  }

  // ----- The audit record -----

  /** A read encryption state as the record carries it: `None` becomes null. */
  function StateJson(state: Option<map<string, string>>): Json {
    match state
    case None => JNull
    case Some(m) => StringsJson(m)
  }

  /** Reads `encryption` back out of a record's `before` or `after` object. */
  function EncryptionState(side: Json): Option<Option<map<string, string>>> {
    if side.JObj? && "encryption" in side.fields then
      var j := side.fields["encryption"];
      if j.JNull? then Some(None)
      else match JsonStrings(j)
        case Some(m) => Some(Some(m))
        case None => None
    else None
  }

  /** Wrapping a read state as `{'encryption': state}` and reading it back loses nothing. */
  lemma StateRoundTrip(state: Option<map<string, string>>)
    ensures EncryptionState(JObj(map["encryption" := StateJson(state)])) == Some(state)
  {
    if state.Some? {
      StringsRoundTrip(state.value);
    }
  }

  /** The record `send_iac_sync_event` builds for a bucket and its two read states. */
  function AuditRecordFor(env: Environment, bucket: string, before: Option<map<string, string>>, after: Option<map<string, string>>): (r: AuditRecord)
    ensures r.resourceType == "AWS::S3::Bucket" && r.resourceId == bucket && r.resourceArn == ArnPrefix + bucket
    ensures r.action == "EnableDefaultEncryption"
    ensures EncryptionState(r.before) == Some(before) && EncryptionState(r.after) == Some(after)
    ensures r.repoUrl == env.repoUrl.GetOr("") && r.slackChannel == env.slackChannel.GetOr("iac-alerts")
  {
    StateRoundTrip(before);
    StateRoundTrip(after);
    AuditRecord(
      "AWS::S3::Bucket", bucket, ArnPrefix + bucket, "EnableDefaultEncryption", env.repoUrl.GetOr(""),
      JObj(map["encryption" := StateJson(before)]),
      JObj(map["encryption" := StateJson(after)]),
      env.slackChannel.GetOr("iac-alerts"))
  }

  /** The record's ARN leads back to its bucket through the Security Hub probe. */
  lemma RecordArnRoundTrip(env: Environment, bucket: string, before: Option<map<string, string>>, after: Option<map<string, string>>)
    requires ':' !in bucket
    ensures BucketFromId(Str(AuditRecordFor(env, bucket, before, after).resourceArn)) == Ok(Str(bucket))
  {
    FindingArnToBucket(bucket);
  }

  /** The bus entry carrying a record. */
  function EntryFor(env: Environment, record: AuditRecord): Entry {
    Entry(RemediationSource, "S3 Bucket Remediation", record, EventBusName(env))
  }

  /**
   * `send_iac_sync_event`: the account lookup (outside the `try`) may raise; a failed
   * `put_events` is swallowed.
   */
  method SendIacSyncEvent(bus: EventBus, env: Environment, bucket: string, before: Option<map<string, string>>,
                          after: Option<map<string, string>>, account: Attempt<string>, delivers: bool)
    returns (r: Attempt<()>)
    modifies bus
    ensures r.Ok? <==> account.Ok?
    ensures bus.published == old(bus.published) +
      (if account.Ok? && delivers then [EntryFor(env, AuditRecordFor(env, bucket, before, after))] else [])
  {
    if account.Raised? {
      return Raised;
    }
    var record := AuditRecordFor(env, bucket, before, after);
    var _ := bus.PutEvents(EntryFor(env, record), delivers);
    return Ok(());
  }

  // ----- The handler -----

  /** The handler's response: 400, 200 with the bucket and the defaults written, or 500. */
  datatype Reply = BadRequest | Encrypted(bucket: string, encryption: map<string, string>) | ServerError {
    function StatusCode(): int {
      match this
      case BadRequest => 400
      case Encrypted(_, _) => 200
      case ServerError => 500
    }
  }

  /** What one invocation does: its reply, the buckets afterwards, and the record it tries to publish. */
  datatype Run = Run(reply: Reply, buckets: map<string, Bucket>, record: Option<AuditRecord>)

  /**
   * `lambda_handler` as a function of the buckets: extract, read before, write, read
   * after, build the record; any exception on the way becomes a 500.
   */
  function Remediation(buckets: map<string, Bucket>, e: InboundEvent, env: Environment, account: Attempt<string>): (run: Run)
    ensures run.reply.StatusCode() in {200, 400, 500}
    ensures run.record.Some? <==> run.reply.Encrypted?
  {
    match ExtractBucketName(e)
    case Raised => Run(ServerError, buckets, None)
    case Ok(name) =>
      if !Truthy(name) then Run(BadRequest, buckets, None)
      else
        var b := name.s;
        match ReadEncryption(buckets, b)
        case Raised => Run(ServerError, buckets, None)
        case Ok(before) =>
          match WriteEncryption(buckets, b, DesiredRule(env))
          case Raised => Run(ServerError, buckets, None)
          case Ok(next) =>
            // the before-read succeeded, so the bucket is readable and the after-read succeeds too
            var after := ReadEncryption(next, b).value;
            if account.Raised? then Run(ServerError, next, None)
            else Run(Encrypted(b, EncryptionConfig(env)), next, Some(AuditRecordFor(env, b, before, after)))
  }

  /**
   * `lambda_handler`: the read, write, read and publish happen in that order against the
   * store and the bus; the reply and the new state are those of `Remediation`.
   */
  method LambdaHandler(store: BucketStore, bus: EventBus, e: InboundEvent, env: Environment,
                       account: Attempt<string>, delivers: bool) returns (reply: Reply)
    modifies store, bus
    ensures var run := Remediation(old(store.buckets), e, env, account);
      && reply == run.reply
      && store.buckets == run.buckets
      && bus.published == old(bus.published) + (if run.record.Some? && delivers then [EntryFor(env, run.record.value)] else [])
  {
    var name := ExtractBucketName(e);
    if name.Raised? {
      return ServerError;
    }
    if !Truthy(name.value) {
      return BadRequest;
    }
    var b := name.value.s;
    var before := store.GetBucketEncryption(b);
    if before.Raised? {
      return ServerError;
    }
    var result := EnableEncryption(store, env, b);
    if result.Raised? {
      return ServerError;
    }
    ReadAfterWrite(old(store.buckets), b, env);
    var after := store.GetBucketEncryption(b);
    var sent := SendIacSyncEvent(bus, env, b, before.value, after.value, account, delivers);
    if sent.Raised? {
      return ServerError;
    }
    return Encrypted(b, result.value);
  }

  // ----- Properties of a run -----

  /** A falsy bucket name is a client error: nothing is read, written or published. */
  lemma FalsyNameIsClientError(buckets: map<string, Bucket>, e: InboundEvent, env: Environment, account: Attempt<string>)
    requires ExtractBucketName(e).Ok? && !Truthy(ExtractBucketName(e).value)
    ensures Remediation(buckets, e, env, account) == Run(BadRequest, buckets, None)
  {
  }

  /**
   * A successful run leaves the bucket with exactly the desired rule, and its record
   * carries the state read before and the written defaults read back after.
   */
  lemma SuccessfulRun(buckets: map<string, Bucket>, e: InboundEvent, env: Environment, account: Attempt<string>)
    requires Remediation(buckets, e, env, account).reply.Encrypted?
    ensures var run := Remediation(buckets, e, env, account);
      var b := run.reply.bucket;
      && ExtractBucketName(e) == Ok(Str(b)) && b != ""
      && b in buckets && b in run.buckets
      && run.buckets == buckets[b := buckets[b].(encryption := Some([DesiredRule(env)]))]
      && run.reply.encryption == EncryptionConfig(env)
      && EncryptionState(run.record.value.before) == Some(ReadEncryption(buckets, b).value)
      && EncryptionState(run.record.value.after) == Some(Some(EncryptionConfig(env)))
  {
    var b := ExtractBucketName(e).value.s;
    ReadAfterWrite(buckets, b, env);
  }

  /**
   * Remediation is idempotent: running the handler again on what the first run left
   * changes nothing, succeeds the same way, and sees as its before-state the first run's after-state.
   */
  lemma Idempotent(buckets: map<string, Bucket>, e: InboundEvent, env: Environment, account: Attempt<string>)
    requires Remediation(buckets, e, env, account).reply.Encrypted?
    ensures var first := Remediation(buckets, e, env, account);
      var second := Remediation(first.buckets, e, env, account);
      && second.buckets == first.buckets
      && second.reply == first.reply
      && second.record.value.after == first.record.value.after
      && EncryptionState(second.record.value.before) == EncryptionState(first.record.value.after)
  {
    var first := Remediation(buckets, e, env, account);
    var b := ExtractBucketName(e).value.s;
    SuccessfulRun(buckets, e, env, account);
    ReadAfterWrite(buckets, b, env);
    ReadAfterWrite(first.buckets, b, env);
    assert first.buckets[b := first.buckets[b].(encryption := Some([DesiredRule(env)]))] == first.buckets;
  }

  /** An extraction that raises (a null Security Hub `Id`) is a server error, before any S3 call. */
  lemma ExtractionFailureIsServerError(buckets: map<string, Bucket>, e: InboundEvent, env: Environment, account: Attempt<string>)
    requires ExtractBucketName(e).Raised?
    ensures Remediation(buckets, e, env, account) == Run(ServerError, buckets, None)
    ensures SecurityHubResource(e, "AwsS3Bucket").Some?
  {
  }

  /** A truthy name of a bucket that can be read and written, with a working account lookup, gives 200. */
  lemma UsableBucketSucceeds(buckets: map<string, Bucket>, e: InboundEvent, env: Environment, account: string)
    requires ExtractBucketName(e).Ok? && Truthy(ExtractBucketName(e).value)
    requires var b := ExtractBucketName(e).value.s; b in buckets && buckets[b].readable && buckets[b].writable
    ensures var run := Remediation(buckets, e, env, Ok(account));
      run.reply == Encrypted(ExtractBucketName(e).value.s, EncryptionConfig(env)) && run.record.Some?
  {
  }

  /**
   * A bucket that is missing, or whose configuration cannot be read or written, gives 500:
   * the client error propagates out of the read or the write, and nothing changes.
   */
  lemma UnusableBucketIsServerError(buckets: map<string, Bucket>, e: InboundEvent, env: Environment, account: Attempt<string>)
    requires ExtractBucketName(e).Ok? && Truthy(ExtractBucketName(e).value)
    requires var b := ExtractBucketName(e).value.s; b !in buckets || !buckets[b].readable || !buckets[b].writable
    ensures Remediation(buckets, e, env, account) == Run(ServerError, buckets, None)
  {
  }

  /** A failing account lookup gives 500 although the encryption was already written. */
  lemma AccountFailureAfterWrite(buckets: map<string, Bucket>, e: InboundEvent, env: Environment)
    requires ExtractBucketName(e).Ok? && Truthy(ExtractBucketName(e).value)
    requires var b := ExtractBucketName(e).value.s; b in buckets && buckets[b].readable && buckets[b].writable
    ensures var run := Remediation(buckets, e, env, Raised);
      var b := ExtractBucketName(e).value.s;
      run.reply == ServerError && run.record.None? && run.buckets[b].encryption == Some([DesiredRule(env)])
  {
  }

  /** Direct invocation on an unencrypted bucket with no settings: AES256 is written and the before-state is null. */
  lemma DirectInvocationDefaults(bucket: Bucket, account: string)
    requires bucket.encryption.None? && bucket.readable && bucket.writable
    ensures var e := InboundEvent(Some(Str("my-bucket")), None, None, None, None, None, None, None, None);
      var env := Environment(None, None, None, None, None, None, None, None);
      var run := Remediation(map["my-bucket" := bucket], e, env, Ok(account));
      && run.reply == Encrypted("my-bucket", map["SSEAlgorithm" := "AES256"])
      && run.record.value.before == JObj(map["encryption" := JNull])
      && run.buckets["my-bucket"].encryption == Some([EncryptionRule(Some(map["SSEAlgorithm" := "AES256"]), false)])
  {
    var e := InboundEvent(Some(Str("my-bucket")), None, None, None, None, None, None, None, None);
    DirectKeyWins(e);
  }

  /** With `aws:kms` and a key id configured, the written rule carries the key and enables the bucket key. */
  lemma KmsSettingsCarryKey(env: Environment)
    requires env.encryptionAlgorithm == Some(KmsAlgorithm) && env.kmsKeyId.Some? && env.kmsKeyId.value != ""
    ensures DesiredRule(env).applyByDefault == Some(map["SSEAlgorithm" := KmsAlgorithm, "KMSMasterKeyID" := env.kmsKeyId.value])
    ensures DesiredRule(env).bucketKeyEnabled
  {
  }
}
