/**
 * The SNS remediation handler: find the topic an event is about, set its KMS master
 * key, read its attributes before and after, and publish the difference.
 */
module SnsRemediation {
  import opened Wrappers
  import opened Strings
  import opened Json
  import opened Settings
  import opened Inbound
  import opened AuditBus

  const DefaultKeyAlias: string := "alias/aws/sns"
  const ArnPrefix: string := "arn:aws:sns:"
  const KeyAttribute: string := "KmsMasterKeyId"

  // ----- Topic ARN extraction -----

  /** The ARN `extract_topic_arn` builds from a bare topic name. */
  function QualifiedTopicArn(region: string, account: string, name: string): string {
    ArnPrefix + region + ":" + account + ":" + name
  }

  /**
   * The Config `resourceId`: an SNS ARN is kept; anything else is a topic name, qualified
   * with the region and the caller's account (whose lookup may raise).
   */
  function TopicArnFromResourceId(id: Value, env: Environment, account: Attempt<string>): Attempt<Value> {
    match id
    case Null => Raised  // `None.startswith` raises
    case Str(s) =>
      if StartsWith(s, ArnPrefix) then Ok(id)
      else match account
        case Raised => Raised
        case Ok(a) => Ok(Str(QualifiedTopicArn(Region(env), a, s)))
  }

  /** The five probes of `extract_topic_arn`, in the order it tries them. */
  function TopicProbes(e: InboundEvent, env: Environment, account: Attempt<string>): seq<Option<Attempt<Value>>> {
    [ if e.topicArnKey.Some? then Some(Ok(e.topicArnKey.value)) else None,
      if IsCloudTrailCreate(e, "CreateTopic") then Some(Ok(Get(e.topicArn))) else None,
      if e.resourceId.Some? then Some(TopicArnFromResourceId(e.resourceId.value, env, account)) else None,
      match SecurityHubResource(e, "AwsSnsTopic")
      case Some(res) => Some(Ok(Get(res.id)))
      case None => None,
      match ConfigItemOfType(e, "AWS::SNS::Topic")
      case Some(item) => Some(Ok(Get(item.arn)))
      case None => None ]
  }

  /**
   * `extract_topic_arn`: the first probe that matches decides, even when the value it
   * finds is empty or null; when none matches the result is `None`. Only the
   * `resourceId` probe can raise: on a null id, or when the account lookup fails.
   */
  function ExtractTopicArn(e: InboundEvent, env: Environment, account: Attempt<string>): (r: Attempt<Value>)
    ensures r.Raised? <==>
              && e.topicArnKey.None? && !IsCloudTrailCreate(e, "CreateTopic") && e.resourceId.Some?
              && TopicArnFromResourceId(e.resourceId.value, env, account).Raised?
  {
    var probes := TopicProbes(e, env, account);
    if e.topicArnKey.None? && !IsCloudTrailCreate(e, "CreateTopic") && e.resourceId.Some? then
      FirstMatchAt(probes, Ok(Null), 2);  // the `resourceId` probe is the first to match
      FirstMatch(probes, Ok(Null))
    else
      // only the `resourceId` probe can raise, and here it does not match or is not the first to
      assert |probes| == 5 && probes[0] != Some(Raised) && probes[1] != Some(Raised);
      assert probes[3] != Some(Raised) && probes[4] != Some(Raised);
      assert probes[2] == Some(Raised) ==> probes[0].Some? || probes[1].Some?;
      FirstMatch(probes, Ok(Null))
  }

  /** A direct `topic_arn` key wins whatever else the event carries. */
  lemma DirectKeyWins(e: InboundEvent, env: Environment, account: Attempt<string>)
    requires e.topicArnKey.Some?
    ensures ExtractTopicArn(e, env, account) == Ok(e.topicArnKey.value)
  {
    FirstMatchAt(TopicProbes(e, env, account), Ok(Null), 0);
  }

  /** A CloudTrail CreateTopic event yields `topicArn`, even a missing one, before `resourceId` is consulted. */
  lemma CloudTrailBeforeResourceId(e: InboundEvent, env: Environment, account: Attempt<string>)
    requires e.topicArnKey.None? && IsCloudTrailCreate(e, "CreateTopic")
    ensures ExtractTopicArn(e, env, account) == Ok(Get(e.topicArn))
  {
    FirstMatchAt(TopicProbes(e, env, account), Ok(Null), 1);
  }

  /** A `resourceId` that already is an SNS ARN is returned unchanged, and the account is not needed. */
  lemma ArnResourceIdKept(e: InboundEvent, env: Environment, account: Attempt<string>)
    requires e.topicArnKey.None? && !IsCloudTrailCreate(e, "CreateTopic")
    requires e.resourceId.Some? && e.resourceId.value.Str? && StartsWith(e.resourceId.value.s, ArnPrefix)
    ensures ExtractTopicArn(e, env, account) == Ok(e.resourceId.value)
  {
    FirstMatchAt(TopicProbes(e, env, account), Ok(Null), 2);
  }

  /** A bare `resourceId` becomes `arn:aws:sns:{region}:{account}:{resourceId}`. */
  lemma BareResourceIdQualified(e: InboundEvent, env: Environment, account: string)
    requires e.topicArnKey.None? && !IsCloudTrailCreate(e, "CreateTopic")
    requires e.resourceId.Some? && e.resourceId.value.Str? && !StartsWith(e.resourceId.value.s, ArnPrefix)
    ensures ExtractTopicArn(e, env, Ok(account)) == Ok(Str(QualifiedTopicArn(Region(env), account, e.resourceId.value.s)))
  {
    FirstMatchAt(TopicProbes(e, env, Ok(account)), Ok(Null), 2);
  }

  /** A Security Hub `AwsSnsTopic` resource's `Id` is returned verbatim. */
  lemma FindingIdVerbatim(e: InboundEvent, env: Environment, account: Attempt<string>, res: Resource)
    requires e.topicArnKey.None? && !IsCloudTrailCreate(e, "CreateTopic") && e.resourceId.None?
    requires SecurityHubResource(e, "AwsSnsTopic") == Some(res)
    ensures ExtractTopicArn(e, env, account) == Ok(Get(res.id))
  {
    FirstMatchAt(TopicProbes(e, env, account), Ok(Null), 3);
  }

  /**
   * With no earlier match, a Config item of type `AWS::SNS::Topic` yields its `ARN`, and
   * when nothing matches the result is `None`.
   */
  lemma FindingsFallThrough(e: InboundEvent, env: Environment, account: Attempt<string>)
    requires e.topicArnKey.None? && !IsCloudTrailCreate(e, "CreateTopic") && e.resourceId.None?
    requires SecurityHubResource(e, "AwsSnsTopic").None?
    ensures ExtractTopicArn(e, env, account) == match ConfigItemOfType(e, "AWS::SNS::Topic")
                                                case Some(item) => Ok(Get(item.arn))
                                                case None => Ok(Null)
  {
    if ConfigItemOfType(e, "AWS::SNS::Topic").Some? {
      FirstMatchAt(TopicProbes(e, env, account), Ok(Null), 4);
    }
  }

  // ----- Topic names -----

  /** `topic_arn.split(':')[-1]`: the record's `resourceId`. */
  function TopicName(arn: string): (name: string)
    ensures ':' !in name
    ensures |name| <= |arn| && name == arn[|arn| - |name|..]
    ensures |name| < |arn| ==> arn[|arn| - |name| - 1] == ':'
  {
    AfterLast(arn, ':')
  }

  /** A topic name without a colon survives being qualified into an ARN and split back out. */
  lemma {:induction false} TopicNameRoundTrip(region: string, account: string, name: string)
    requires ':' !in name
    ensures TopicName(QualifiedTopicArn(region, account, name)) == name
  {
    var front := ArnPrefix + region + ":" + account;
    assert QualifiedTopicArn(region, account, name) == front + [':'] + name;
    AfterLastOfJoin(front, ':', name);
  }

  /** A Config `resourceId` naming a topic is what the audit record ends up calling it. */
  lemma {:induction false} ResourceIdRoundTrip(e: InboundEvent, env: Environment, account: string)
    requires e.topicArnKey.None? && !IsCloudTrailCreate(e, "CreateTopic")
    requires e.resourceId.Some? && e.resourceId.value.Str? && ':' !in e.resourceId.value.s
    ensures var r := ExtractTopicArn(e, env, Ok(account));
      r.Ok? && r.value.Str? && TopicName(r.value.s) == e.resourceId.value.s
  {
    var name := e.resourceId.value.s;
    NoCharNoOccurrence(name, ArnPrefix, ':');
    BareResourceIdQualified(e, env, account);
    TopicNameRoundTrip(Region(env), account, name);
  }

  // ----- The KMS key -----

  /** KMS_KEY_ALIAS, defaulting to the AWS managed SNS key. */
  function KeyAlias(env: Environment): string {
    env.kmsKeyAlias.GetOr(DefaultKeyAlias)
  }

  /**
   * `get_kms_key_id`: the managed alias is used as is; a custom alias is resolved through
   * `kmsKeys` (the aliases `describe_key` can resolve, to their `KeyId`), falling back to
   * the managed alias when it cannot be.
   */
  function GetKmsKeyId(env: Environment, kmsKeys: map<string, string>): (k: string)
    ensures k == DefaultKeyAlias || (KeyAlias(env) in kmsKeys && k == kmsKeys[KeyAlias(env)])
    ensures KeyAlias(env) != DefaultKeyAlias && KeyAlias(env) in kmsKeys ==> k == kmsKeys[KeyAlias(env)]
    ensures KeyAlias(env) !in kmsKeys ==> k == DefaultKeyAlias
  {
    var alias := KeyAlias(env);
    if alias == DefaultKeyAlias then alias
    else if alias in kmsKeys then kmsKeys[alias]
    else DefaultKeyAlias
  }

  /** The managed alias is returned without consulting KMS at all. */
  lemma ManagedAliasNeedsNoLookup(env: Environment, keys1: map<string, string>, keys2: map<string, string>)
    requires KeyAlias(env) == DefaultKeyAlias
    ensures GetKmsKeyId(env, keys1) == GetKmsKeyId(env, keys2) == DefaultKeyAlias
  {
  }

  // ----- The topic control plane -----

  /**
   * A topic: its attributes, and whether reading and writing them are allowed (a denied
   * call raises).
   */
  datatype Topic = Topic(attributes: map<string, string>, readable: bool, writable: bool)

  /**
   * `get_topic_attributes`: the topic's attributes, or `{}` when the call fails for any
   * reason (a missing topic or a denied read).
   */
  function ReadAttributes(topics: map<string, Topic>, arn: string): (attrs: map<string, string>)
    ensures arn in topics && topics[arn].readable ==> attrs == topics[arn].attributes
    ensures arn !in topics || !topics[arn].readable ==> attrs == map[]
  {
    if arn in topics && topics[arn].readable then topics[arn].attributes else map[]
  }

  /** `set_topic_attributes` of one attribute; raises when the topic is missing or refuses writes. */
  function WriteAttribute(topics: map<string, Topic>, arn: string, name: string, value: string)
    : (r: Attempt<map<string, Topic>>)
    ensures r.Ok? <==> arn in topics && topics[arn].writable
    ensures r.Ok? ==> r.value.Keys == topics.Keys
    ensures r.Ok? ==> forall other | other in topics && other != arn :: r.value[other] == topics[other]
    ensures r.Ok? ==> r.value[arn].readable == topics[arn].readable && r.value[arn].writable == topics[arn].writable
    ensures r.Ok? ==> var attrs := r.value[arn].attributes;
      && attrs.Keys == topics[arn].attributes.Keys + {name}
      && attrs[name] == value
      && forall a | a in topics[arn].attributes && a != name :: attrs[a] == topics[arn].attributes[a]
  {
    if arn in topics && topics[arn].writable then
      Ok(topics[arn := topics[arn].(attributes := topics[arn].attributes[name := value])])
    else
      Raised
  }

  /** The SNS service as the remediation sees it: every topic and its attributes. */
  class TopicStore {
    var topics: map<string, Topic>

    constructor (topics: map<string, Topic>)
      ensures this.topics == topics
    {
      this.topics := topics;
    }

    method GetTopicAttributes(arn: string) returns (attrs: map<string, string>)
      ensures attrs == ReadAttributes(topics, arn)
    {
      if arn in topics && topics[arn].readable {
        return topics[arn].attributes;
      }
      return map[];
    }

    method SetTopicAttributes(arn: string, name: string, value: string) returns (r: Attempt<()>)
      modifies this
      ensures r.Ok? <==> WriteAttribute(old(topics), arn, name, value).Ok?
      ensures topics == match WriteAttribute(old(topics), arn, name, value)
                        case Ok(next) => next
                        case Raised => old(topics)
    {
      if arn !in topics || !topics[arn].writable {
        return Raised;
      }
      var topic := topics[arn];
      topics := topics[arn := topic.(attributes := topic.attributes[name := value])];
      return Ok(());
    }
  }

  /** `enable_encryption`: sets `KmsMasterKeyId` to the resolved key and returns that key. */
  method EnableEncryption(store: TopicStore, env: Environment, kmsKeys: map<string, string>, arn: string)
    returns (r: Attempt<string>)
    modifies store
    ensures r.Ok? <==> WriteAttribute(old(store.topics), arn, KeyAttribute, GetKmsKeyId(env, kmsKeys)).Ok?
    ensures r.Ok? ==> r.value == GetKmsKeyId(env, kmsKeys)
    ensures store.topics == match WriteAttribute(old(store.topics), arn, KeyAttribute, GetKmsKeyId(env, kmsKeys))
                            case Ok(next) => next
                            case Raised => old(store.topics)
  {
    var key := GetKmsKeyId(env, kmsKeys);
    var written := store.SetTopicAttributes(arn, KeyAttribute, key);
    if written.Raised? {
      return Raised;
    }
    return Ok(key);
  }

  // ----- The audit record -----

  /** `after.encryption.kmsMasterKeyId` of a record, when it is a string. */
  function AfterKeyId(after: Json): Option<string> {
    if after.JObj? && "encryption" in after.fields && after.fields["encryption"].JObj?
       && "kmsMasterKeyId" in after.fields["encryption"].fields
       && after.fields["encryption"].fields["kmsMasterKeyId"].JStr?
    then Some(after.fields["encryption"].fields["kmsMasterKeyId"].str)
    else None
  }

  /** `before.kmsMasterKeyId` of a record, as a scalar. */
  function BeforeKeyId(before: Json): Option<Value> {
    if before.JObj? && "kmsMasterKeyId" in before.fields then
      match before.fields["kmsMasterKeyId"]
      case JNull => Some(Null)
      case JStr(s) => Some(Str(s))
      case _ => None
    else None
  }

  /** The record `send_iac_sync_event` builds for a topic and its two attribute maps. */
  function AuditRecordFor(env: Environment, arn: string, before: map<string, string>, after: map<string, string>)
    : (r: AuditRecord)
    ensures r.resourceType == "AWS::SNS::Topic" && r.resourceArn == arn && r.action == "EnableEncryption"
    ensures r.resourceId == TopicName(arn) && ':' !in r.resourceId
    ensures r.before.JObj? && "encryption" in r.before.fields && r.before.fields["encryption"] == JNull
    ensures BeforeKeyId(r.before) == Some(if KeyAttribute in before then Str(before[KeyAttribute]) else Null)
    ensures AfterKeyId(r.after) == Some(if KeyAttribute in after then after[KeyAttribute] else DefaultKeyAlias)
    ensures r.repoUrl == env.repoUrl.GetOr("") && r.slackChannel == env.slackChannel.GetOr("iac-alerts")
  {
    var beforeKey := if KeyAttribute in before then JStr(before[KeyAttribute]) else JNull;
    var afterKey := if KeyAttribute in after then after[KeyAttribute] else DefaultKeyAlias;
    var b := JObj(map["encryption" := JNull, "kmsMasterKeyId" := beforeKey]);
    var inner := JObj(map["kmsMasterKeyId" := JStr(afterKey)]);
    var a := JObj(map["encryption" := inner]);
    assert b.fields["kmsMasterKeyId"] == beforeKey && b.fields["encryption"] == JNull;
    assert a.fields["encryption"] == inner && inner.fields["kmsMasterKeyId"] == JStr(afterKey);
    AuditRecord(
      "AWS::SNS::Topic", TopicName(arn), arn, "EnableEncryption", env.repoUrl.GetOr(""),
      b, a, env.slackChannel.GetOr("iac-alerts"))
  }

  /** The bus entry carrying a record. */
  function EntryFor(env: Environment, record: AuditRecord): Entry {
    Entry(RemediationSource, "SNS Topic Remediation", record, EventBusName(env))
  }

  /** `send_iac_sync_event`: builds the record and publishes it; a failed `put_events` is swallowed. */
  method SendIacSyncEvent(bus: EventBus, env: Environment, arn: string, before: map<string, string>,
                          after: map<string, string>, delivers: bool)
    modifies bus
    ensures bus.published == old(bus.published) + (if delivers then [EntryFor(env, AuditRecordFor(env, arn, before, after))] else [])
  {
    var record := AuditRecordFor(env, arn, before, after);
    var _ := bus.PutEvents(EntryFor(env, record), delivers);
  }

  // ----- The handler -----

  /** The handler's response: 400, 200 with the topic and the key set, or 500. */
  datatype Reply = BadRequest | Encrypted(topicArn: string, kmsKey: string) | ServerError {
    function StatusCode(): int {
      match this
      case BadRequest => 400
      case Encrypted(_, _) => 200
      case ServerError => 500
    }
  }

  /** What one invocation does: its reply, the topics afterwards, and the record it tries to publish. */
  datatype Run = Run(reply: Reply, topics: map<string, Topic>, record: Option<AuditRecord>)

  /**
   * `lambda_handler` as a function of the topics: extract, read before (never fails),
   * write the key, read after, build the record; any exception on the way becomes a 500.
   */
  function Remediation(topics: map<string, Topic>, e: InboundEvent, env: Environment,
                       account: Attempt<string>, kmsKeys: map<string, string>): (run: Run)
    ensures run.reply.StatusCode() in {200, 400, 500}
    ensures run.record.Some? <==> run.reply.Encrypted?
  {
    match ExtractTopicArn(e, env, account)
    case Raised => Run(ServerError, topics, None)
    case Ok(found) =>
      if !Truthy(found) then Run(BadRequest, topics, None)
      else
        var arn := found.s;
        var before := ReadAttributes(topics, arn);
        var key := GetKmsKeyId(env, kmsKeys);
        match WriteAttribute(topics, arn, KeyAttribute, key)
        case Raised => Run(ServerError, topics, None)
        case Ok(next) =>
          Run(Encrypted(arn, key), next, Some(AuditRecordFor(env, arn, before, ReadAttributes(next, arn))))
  }

  /**
   * `lambda_handler`: the read, write, read and publish happen in that order against the
   * store and the bus; the reply and the new state are those of `Remediation`.
   */
  method LambdaHandler(store: TopicStore, bus: EventBus, e: InboundEvent, env: Environment,
                       account: Attempt<string>, kmsKeys: map<string, string>, delivers: bool) returns (reply: Reply)
    modifies store, bus
    ensures var run := Remediation(old(store.topics), e, env, account, kmsKeys);
      && reply == run.reply
      && store.topics == run.topics
      && bus.published == old(bus.published) + (if run.record.Some? && delivers then [EntryFor(env, run.record.value)] else [])
  {
    var found := ExtractTopicArn(e, env, account);
    if found.Raised? {
      return ServerError;
    }
    if !Truthy(found.value) {
      return BadRequest;
    }
    var arn := found.value.s;
    var before := store.GetTopicAttributes(arn);
    var result := EnableEncryption(store, env, kmsKeys, arn);
    if result.Raised? {
      return ServerError;
    }
    var after := store.GetTopicAttributes(arn);
    SendIacSyncEvent(bus, env, arn, before, after, delivers);
    return Encrypted(arn, result.value);
  }

  // ----- Properties of a run -----

  /** A falsy topic ARN is a client error: no control-plane call is made and nothing is published. */
  lemma FalsyArnIsClientError(topics: map<string, Topic>, e: InboundEvent, env: Environment,
                              account: Attempt<string>, kmsKeys: map<string, string>)
    requires ExtractTopicArn(e, env, account).Ok? && !Truthy(ExtractTopicArn(e, env, account).value)
    ensures Remediation(topics, e, env, account, kmsKeys) == Run(BadRequest, topics, None)
  {
  }

  /**
   * An extraction that raises (a null `resourceId`, or a bare one whose account lookup
   * fails) is a server error, before any control-plane call.
   */
  lemma ExtractionFailureIsServerError(topics: map<string, Topic>, e: InboundEvent, env: Environment,
                                       account: Attempt<string>, kmsKeys: map<string, string>)
    requires ExtractTopicArn(e, env, account).Raised?
    ensures Remediation(topics, e, env, account, kmsKeys) == Run(ServerError, topics, None)
    ensures e.resourceId.Some?
  {
  }

  /**
   * A topic that is missing or refuses the write is a server error. The before-read alone
   * would not have been: its failure is swallowed.
   */
  lemma FailedWriteIsServerError(topics: map<string, Topic>, e: InboundEvent, env: Environment,
                                 account: Attempt<string>, kmsKeys: map<string, string>)
    requires ExtractTopicArn(e, env, account).Ok? && Truthy(ExtractTopicArn(e, env, account).value)
    requires var arn := ExtractTopicArn(e, env, account).value.s; arn !in topics || !topics[arn].writable
    ensures Remediation(topics, e, env, account, kmsKeys) == Run(ServerError, topics, None)
  {
  }

  /**
   * A successful run sets exactly `KmsMasterKeyId` to the resolved key, and its record
   * names the topic by its colon-free last ARN segment. When the topic's attributes can be
   * read, the record carries the old key as the before-state and the written key as the
   * after-state; when they cannot, both reads give `{}`, so the record claims no key before
   * and the managed alias after, whatever key was written.
   */
  lemma SuccessfulRun(topics: map<string, Topic>, e: InboundEvent, env: Environment,
                      account: Attempt<string>, kmsKeys: map<string, string>)
    requires Remediation(topics, e, env, account, kmsKeys).reply.Encrypted?
    ensures var run := Remediation(topics, e, env, account, kmsKeys);
      var arn := run.reply.topicArn;
      var key := GetKmsKeyId(env, kmsKeys);
      var old_attrs := topics[arn].attributes;
      && arn in topics && topics[arn].writable
      && run.topics == topics[arn := topics[arn].(attributes := old_attrs[KeyAttribute := key])]
      && run.reply.kmsKey == key
      && run.record.value.resourceId == TopicName(arn)
      && ':' !in run.record.value.resourceId
      && AfterKeyId(run.record.value.after) == Some(if topics[arn].readable then key else DefaultKeyAlias)
      && BeforeKeyId(run.record.value.before) ==
           Some(if topics[arn].readable && KeyAttribute in old_attrs then Str(old_attrs[KeyAttribute]) else Null)
  {
  }

  /**
   * Remediation is idempotent: running the handler again on what the first run left
   * changes nothing, succeeds the same way, publishes the same after-state, and (when the
   * attributes can be read) sees the first run's key as its before key.
   */
  lemma Idempotent(topics: map<string, Topic>, e: InboundEvent, env: Environment,
                   account: Attempt<string>, kmsKeys: map<string, string>)
    requires Remediation(topics, e, env, account, kmsKeys).reply.Encrypted?
    ensures var first := Remediation(topics, e, env, account, kmsKeys);
      var second := Remediation(first.topics, e, env, account, kmsKeys);
      var arn := first.reply.topicArn;
      && second.topics == first.topics
      && second.reply == first.reply
      && second.record.value.after == first.record.value.after
      && BeforeKeyId(second.record.value.before) == Some(if topics[arn].readable then Str(first.reply.kmsKey) else Null)
  {
    var first := Remediation(topics, e, env, account, kmsKeys);
    var arn := first.reply.topicArn;
    var key := GetKmsKeyId(env, kmsKeys);
    SuccessfulRun(topics, e, env, account, kmsKeys);
    RewriteChangesNothing(first.topics, arn, KeyAttribute, key);
    WrittenRun(topics, e, env, account, kmsKeys, arn, first.topics);
    WrittenRun(first.topics, e, env, account, kmsKeys, arn, first.topics);
  }

  /** Writing an attribute the value it already has leaves every topic as it was. */
  lemma RewriteChangesNothing(topics: map<string, Topic>, arn: string, name: string, value: string)
    requires arn in topics && topics[arn].writable
    requires name in topics[arn].attributes && topics[arn].attributes[name] == value
    ensures WriteAttribute(topics, arn, name, value) == Ok(topics)
  {
    var topic := topics[arn];
    assert topic.attributes[name := value] == topic.attributes;
    assert topics[arn := topic.(attributes := topic.attributes[name := value])] == topics;
  }

  /** A run whose write succeeds: its reply, the written topics, and the record of the two reads. */
  lemma WrittenRun(topics: map<string, Topic>, e: InboundEvent, env: Environment, account: Attempt<string>,
                   kmsKeys: map<string, string>, arn: string, next: map<string, Topic>)
    requires ExtractTopicArn(e, env, account) == Ok(Str(arn)) && arn != ""
    requires WriteAttribute(topics, arn, KeyAttribute, GetKmsKeyId(env, kmsKeys)) == Ok(next)
    ensures Remediation(topics, e, env, account, kmsKeys) ==
            Run(Encrypted(arn, GetKmsKeyId(env, kmsKeys)), next,
                Some(AuditRecordFor(env, arn, ReadAttributes(topics, arn), ReadAttributes(next, arn))))
  {
  }
}
