/**
 * The forwarder: turns bus events of three provenances into the one payload the IaC
 * sync agent takes, drops everything else, and invokes the agent with what it keeps.
 */
module Forwarder {
  import opened Wrappers
  import opened Strings
  import opened Json
  import opened Settings
  import opened Inbound
  import opened AuditBus
  import S3Remediation
  import SnsRemediation

  const DefaultRepoUrl: string := "https://github.com/ophydami/iac-target"
  const DefaultSlackChannel: string := "iac-alerts"
  const PassThroughSource: string := "aws.autoremediation"
  const ConfigSource: string := "aws.config"
  const SecurityHubSource: string := "aws.securityhub"
  const ComplianceChange: string := "Config Rules Compliance Change"
  const SkippedBody: string := "Skipped - not a remediation event"
  const MissingEndpointMessage: string := "AGENT_RUNTIME_ENDPOINT not configured"

  /** REPO_URL as the forwarder reads it. */
  function RepoUrl(env: Environment): string {
    env.repoUrl.GetOr(DefaultRepoUrl)
  }

  /** SLACK_CHANNEL as the forwarder reads it. */
  function SlackChannel(env: Environment): string {
    env.slackChannel.GetOr(DefaultSlackChannel)
  }

  // ----- Rule names to actions -----

  /** The known Config rules and the remediation each one stands for. */
  const RuleActions: map<string, string> := map[
    "s3-bucket-server-side-encryption-enabled" := "EnableDefaultEncryption",
    "s3-bucket-ssl-requests-only" := "EnableSSLOnly",
    "s3-bucket-versioning-enabled" := "EnableVersioning",
    "s3-bucket-public-read-prohibited" := "BlockPublicAccess",
    "s3-bucket-public-write-prohibited" := "BlockPublicAccess",
    "sns-encrypted-kms" := "EnableEncryption",
    "encrypted-volumes" := "EnableEBSEncryption",
    "rds-storage-encrypted" := "EnableRDSEncryption"]

  /**
   * `get_action_from_rule`: total; a known rule gets its table entry, any other rule a
   * synthesized action that names it.
   */
  function GetActionFromRule(rule: string): (action: string)
    ensures action != ""
    ensures rule in RuleActions ==> action == RuleActions[rule]
    ensures rule !in RuleActions ==> action == "Remediate_" + rule
    ensures rule !in RuleActions ==> StartsWith(action, "Remediate_") && Contains(action, rule)
  {
    ContainsSuffix("Remediate_", rule);
    if rule in RuleActions then RuleActions[rule] else "Remediate_" + rule
  }

  /** The eight table entries, with public read and public write sharing one action. */
  lemma KnownRules()
    ensures GetActionFromRule("s3-bucket-server-side-encryption-enabled") == "EnableDefaultEncryption"
    ensures GetActionFromRule("s3-bucket-ssl-requests-only") == "EnableSSLOnly"
    ensures GetActionFromRule("s3-bucket-versioning-enabled") == "EnableVersioning"
    ensures GetActionFromRule("s3-bucket-public-read-prohibited") == "BlockPublicAccess"
    ensures GetActionFromRule("s3-bucket-public-write-prohibited") == "BlockPublicAccess"
    ensures GetActionFromRule("sns-encrypted-kms") == "EnableEncryption"
    ensures GetActionFromRule("encrypted-volumes") == "EnableEBSEncryption"
    ensures GetActionFromRule("rds-storage-encrypted") == "EnableRDSEncryption"
  {
    assert RuleActions.Keys == {
      "s3-bucket-server-side-encryption-enabled", "s3-bucket-ssl-requests-only",
      "s3-bucket-versioning-enabled", "s3-bucket-public-read-prohibited",
      "s3-bucket-public-write-prohibited", "sns-encrypted-kms", "encrypted-volumes",
      "rds-storage-encrypted"};
  }

  // ----- Bus events and the agent payload -----

  /** `newEvaluationResult` of a compliance change. */
  datatype EvaluationResult = EvaluationResult(complianceType: Option<Value>)

  /** The keys of a bus event's `detail` the forwarder reads, over all three shapes. */
  datatype BusDetail = BusDetail(
    resourceType: Option<Value>,
    resourceId: Option<Value>,
    action: Option<Value>,
    repoUrl: Option<Value>,
    before: Option<Json>,
    after: Option<Json>,
    slackChannel: Option<Value>,
    configRuleName: Option<Value>,
    newEvaluationResult: Option<EvaluationResult>,
    findings: Option<seq<Finding>>)

  /** A `detail` with none of the keys (`{}`). */
  const EmptyDetail: BusDetail := BusDetail(None, None, None, None, None, None, None, None, None, None)

  /** An EventBridge event: `source`, `detail-type` (each absent, null or a string) and `detail`. */
  datatype BusEvent = BusEvent(source: Option<Value>, detailType: Option<Value>, detail: Option<BusDetail>)

  /** The payload the agent receives. */
  datatype Payload = Payload(
    resourceType: Value,
    resourceId: Value,
    action: Value,
    repoUrl: string,
    before: Json,
    after: Json,
    slackChannel: string)

  /** `detail.get('newEvaluationResult', {}).get('complianceType', '')`. */
  function Compliance(d: BusDetail): Value {
    match d.newEvaluationResult
    case Some(result) => GetOr(result.complianceType, "")
    case None => Str("")
  }

  /** The first finding of a Security Hub detail, when there is one. */
  function FirstFinding(d: BusDetail): Option<Finding> {
    var findings := d.findings.GetOr([]);
    if findings == [] then None else Some(findings[0])
  }

  /** The compliance-change branch of `transform_event`: only a change to COMPLIANT is forwarded. */
  function ComplianceTransform(d: BusDetail, env: Environment): Attempt<Option<Payload>> {
    var ruleName := GetOr(d.configRuleName, "");
    if Compliance(d) != Str("COMPLIANT") then Ok(None)
    else
      Ok(Some(Payload(
        GetOr(d.resourceType, ""), GetOr(d.resourceId, ""), Str(GetActionFromRule(Show(ruleName))),
        RepoUrl(env),
        JObj(map["compliant" := JBool(false)]),
        JObj(map["compliant" := JBool(true), "rule" := ValueJson(ruleName)]),
        SlackChannel(env))))
  }

  /** The first finding is RESOLVED and its first resource has a null `Id`. */
  predicate ResolvedWithNullId(d: BusDetail) {
    && FirstFinding(d).Some? && FirstFinding(d).value.resources != []
    && GetOr(FirstFinding(d).value.workflowStatus, "") == Str("RESOLVED")
    && GetOr(FirstFinding(d).value.resources[0].id, "") == Null
  }

  /**
   * `transform_event`: the pass-through, compliance-change and finding-resolution shapes
   * become a payload or are dropped (`None`); any other source is dropped. A null
   * `detail-type` on a Config event, or a null resource `Id` on a resolved finding, raises.
   */
  function TransformEvent(source: Value, detailType: Value, d: BusDetail, env: Environment)
    : (r: Attempt<Option<Payload>>)
    ensures r.Raised? <==> || (source == Str(ConfigSource) && detailType == Null)
                           || (source == Str(SecurityHubSource) && ResolvedWithNullId(d))
    ensures r.Ok? && r.value.Some? ==> source in {Str(PassThroughSource), Str(ConfigSource), Str(SecurityHubSource)}
  {
    if source == Str(PassThroughSource) then
      Ok(Some(Payload(
        GetOr(d.resourceType, ""), GetOr(d.resourceId, ""), GetOr(d.action, ""),
        OrElse(Get(d.repoUrl), RepoUrl(env)),
        d.before.GetOr(JObj(map[])), d.after.GetOr(JObj(map[])),
        OrElse(Get(d.slackChannel), SlackChannel(env)))))
    else if source == Str(ConfigSource) && detailType == Null then
      Raised  // `'...' in None` raises
    else if source == Str(ConfigSource) && Contains(detailType.s, ComplianceChange) then
      ComplianceTransform(d, env)
    else if source == Str(SecurityHubSource) then
      match FirstFinding(d)
      case None => Ok(None)
      case Some(finding) =>
        if finding.resources == [] then Ok(None)
        else
          var resource := finding.resources[0];
          if GetOr(finding.workflowStatus, "") != Str("RESOLVED") then Ok(None)
          else match GetOr(resource.id, "")
            case Null => Raised  // `None.split` raises
            case Str(id) =>
              Ok(Some(Payload(
                GetOr(resource.resourceType, ""), Str(AfterLast(id, '/')),
                GetOr(finding.title, "SecurityHubRemediation"),
                RepoUrl(env),
                JObj(map["status" := JStr("FAILED")]),
                JObj(map["status" := JStr("PASSED")]),
                SlackChannel(env))))
    else
      Ok(None)
  }

  /**
   * A pass-through event is always forwarded: present fields are copied as they are,
   * missing ones become `''` or `{}`, and a falsy repository URL or channel is replaced by
   * the configured one.
   */
  lemma PassThroughForwarded(detailType: Value, d: BusDetail, env: Environment)
    ensures var r := TransformEvent(Str(PassThroughSource), detailType, d, env);
      && r.Ok? && r.value.Some?
      && r.value.value.resourceType == (if d.resourceType.Some? then d.resourceType.value else Str(""))
      && r.value.value.resourceId == (if d.resourceId.Some? then d.resourceId.value else Str(""))
      && r.value.value.action == (if d.action.Some? then d.action.value else Str(""))
      && r.value.value.before == (if d.before.Some? then d.before.value else JObj(map[]))
      && r.value.value.after == (if d.after.Some? then d.after.value else JObj(map[]))
      && r.value.value.repoUrl == (if Truthy(Get(d.repoUrl)) then Get(d.repoUrl).s else RepoUrl(env))
      && r.value.value.slackChannel == (if Truthy(Get(d.slackChannel)) then Get(d.slackChannel).s else SlackChannel(env))
  {
  }

  /**
   * A compliance change is forwarded exactly when the new result is COMPLIANT, and then
   * goes from `{compliant: false}` to `{compliant: true, rule}` under the rule's action.
   */
  lemma ComplianceChangeForwardedIffCompliant(detailType: string, d: BusDetail, env: Environment)
    requires Contains(detailType, ComplianceChange)
    ensures var r := TransformEvent(Str(ConfigSource), Str(detailType), d, env);
      && r.Ok?
      && (r.value.Some? <==> Compliance(d) == Str("COMPLIANT"))
      && (r.value.Some? ==>
            && r.value.value.resourceType == GetOr(d.resourceType, "")
            && r.value.value.resourceId == GetOr(d.resourceId, "")
            && r.value.value.repoUrl == RepoUrl(env)
            && r.value.value.slackChannel == SlackChannel(env)
            && r.value.value.before == JObj(map["compliant" := JBool(false)])
            && r.value.value.after == JObj(map["compliant" := JBool(true), "rule" := ValueJson(GetOr(d.configRuleName, ""))])
            && r.value.value.action == Str(GetActionFromRule(Show(GetOr(d.configRuleName, "")))))
  {
    assert TransformEvent(Str(ConfigSource), Str(detailType), d, env) == ComplianceTransform(d, env);
  }

  /** A Config event whose detail-type is not a compliance change is dropped. */
  lemma OtherConfigEventsDropped(detailType: string, d: BusDetail, env: Environment)
    requires !Contains(detailType, ComplianceChange)
    ensures TransformEvent(Str(ConfigSource), Str(detailType), d, env) == Ok(None)
  {
  }

  /** A finding is dropped when there is none, when it has no resources, or when it is not RESOLVED. */
  lemma UnresolvedFindingsDropped(detailType: Value, d: BusDetail, env: Environment)
    requires || FirstFinding(d).None?
             || FirstFinding(d).value.resources == []
             || GetOr(FirstFinding(d).value.workflowStatus, "") != Str("RESOLVED")
    ensures TransformEvent(Str(SecurityHubSource), detailType, d, env) == Ok(None)
  {
  }

  /**
   * A resolved finding is forwarded under the last `/`-segment of its first resource's
   * `Id`: a suffix of that `Id` with no `/`, preceded by `/` unless it is the whole `Id`.
   * It goes from FAILED to PASSED under the finding's title.
   */
  lemma ResolvedFindingForwarded(detailType: Value, d: BusDetail, env: Environment, id: string)
    requires FirstFinding(d).Some? && FirstFinding(d).value.resources != []
    requires GetOr(FirstFinding(d).value.workflowStatus, "") == Str("RESOLVED")
    requires GetOr(FirstFinding(d).value.resources[0].id, "") == Str(id)
    ensures var r := TransformEvent(Str(SecurityHubSource), detailType, d, env);
      && r.Ok? && r.value.Some?
      && r.value.value.resourceId.Str?
      && var last := r.value.value.resourceId.s;
      && '/' !in last
      && |last| <= |id| && last == id[|id| - |last|..]
      && (|last| < |id| ==> id[|id| - |last| - 1] == '/')
      && r.value.value.resourceType == GetOr(FirstFinding(d).value.resources[0].resourceType, "")
      && r.value.value.action == GetOr(FirstFinding(d).value.title, "SecurityHubRemediation")
      && r.value.value.before == JObj(map["status" := JStr("FAILED")])
      && r.value.value.after == JObj(map["status" := JStr("PASSED")])
      && r.value.value.repoUrl == RepoUrl(env)
      && r.value.value.slackChannel == SlackChannel(env)
  {
  }

  /** Any other source is dropped, even with a null detail-type. */
  lemma OtherSourcesDropped(source: Value, detailType: Value, d: BusDetail, env: Environment)
    requires source !in {Str(PassThroughSource), Str(ConfigSource), Str(SecurityHubSource)}
    ensures TransformEvent(source, detailType, d, env) == Ok(None)
  {
  }

  /**
   * The remediation handlers publish under `custom.autoremediation`, not the
   * `aws.autoremediation` the pass-through branch tests, so their entries are dropped.
   */
  lemma RemediationEntriesDropped(env: Environment, record: AuditRecord, d: BusDetail)
    ensures var s3 := S3Remediation.EntryFor(env, record);
      TransformEvent(Str(s3.source), Str(s3.detailType), d, env) == Ok(None)
    ensures var sns := SnsRemediation.EntryFor(env, record);
      TransformEvent(Str(sns.source), Str(sns.detailType), d, env) == Ok(None)
  {
    assert RemediationSource != PassThroughSource;
  }

  // ----- The handler -----

  /** What the agent endpoint answered, or the exception the call raised. */
  datatype AgentReply = Answered(body: string) | Failed(message: string)

  /** The handler's response, or an exception escaping it (the transform runs outside the `try`). */
  datatype Outcome = Response(statusCode: int, body: string) | Crashed

  /** AGENT_RUNTIME_ENDPOINT is set and non-empty. */
  predicate EndpointConfigured(env: Environment) {
    env.agentRuntimeEndpoint.Some? && env.agentRuntimeEndpoint.value != ""
  }

  /**
   * `invoke_agentcore`, kept to its guard: without an endpoint it raises; otherwise the
   * outcome of the signed POST is the `transport` parameter (the request built from
   * `payload` and `sessionId` is not modelled).
   */
  function InvokeAgentcore(env: Environment, payload: Payload, sessionId: string, transport: AgentReply): AgentReply {
    if !EndpointConfigured(env) then Failed(MissingEndpointMessage) else transport
  }

  /**
   * What `lambda_handler` answers once the event is transformed: 200 "Skipped" for a
   * dropped event, the agent's answer with 200, or 500 with the failure's text.
   */
  function Respond(transformed: Attempt<Option<Payload>>, env: Environment, requestId: string, transport: AgentReply)
    : (o: Outcome)
    ensures o.Crashed? <==> transformed.Raised?
    ensures o.Response? ==> o.statusCode in {200, 500}
  {
    match transformed
    case Raised => Crashed
    case Ok(None) => Response(200, SkippedBody)
    case Ok(Some(payload)) =>
      match InvokeAgentcore(env, payload, requestId, transport)
      case Answered(body) => Response(200, body)
      case Failed(message) => Response(500, message)
  }

  /** The bus event's transform, with the handler's defaults for missing keys. */
  function Transformed(event: BusEvent, env: Environment): Attempt<Option<Payload>> {
    TransformEvent(GetOr(event.source, ""), GetOr(event.detailType, ""), event.detail.GetOr(EmptyDetail), env)
  }

  /** `lambda_handler`: transform the event (outside the `try`), then answer as `Respond` does. */
  function LambdaHandler(event: BusEvent, env: Environment, requestId: string, transport: AgentReply): (o: Outcome)
    ensures o.Crashed? <==> || (event.source == Some(Str(ConfigSource)) && event.detailType == Some(Null))
                            || (event.source == Some(Str(SecurityHubSource)) && ResolvedWithNullId(event.detail.GetOr(EmptyDetail)))
    ensures o.Response? ==> o.statusCode in {200, 500}
  {
    Respond(Transformed(event, env), env, requestId, transport)
  }

  /** A dropped event is answered 200 "Skipped" whatever the agent would have said: it is never invoked. */
  lemma SkippedWithoutInvoking(event: BusEvent, env: Environment, requestId: string, t1: AgentReply, t2: AgentReply)
    requires Transformed(event, env) == Ok(None)
    ensures LambdaHandler(event, env, requestId, t1) == LambdaHandler(event, env, requestId, t2) == Response(200, SkippedBody)
  {
  }

  /** A forwarded payload without a configured endpoint is answered 500 with the guard's message. */
  lemma MissingEndpointIsServerError(payload: Payload, env: Environment, requestId: string, transport: AgentReply)
    requires !EndpointConfigured(env)
    ensures Respond(Ok(Some(payload)), env, requestId, transport) == Response(500, MissingEndpointMessage)
  {
  }

  /** A forwarded payload with an endpoint is answered 200 with the agent's body, or 500 with the failure's text. */
  lemma ForwardedAnswer(payload: Payload, env: Environment, requestId: string, transport: AgentReply)
    requires EndpointConfigured(env)
    ensures Respond(Ok(Some(payload)), env, requestId, transport) ==
            match transport
            case Answered(body) => Response(200, body)
            case Failed(message) => Response(500, message)
  {
  }
}
