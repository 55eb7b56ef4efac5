/**
 * The inbound event the two remediation handlers receive, as a record of optional keys:
 * several shapes may be present at once, and the order in which the handlers probe
 * them decides which one wins.
 */
module Inbound {
  import opened Wrappers
  import opened Json

  /** One entry of a Security Hub finding's `Resources` list (`Type`, `Id`). */
  datatype Resource = Resource(resourceType: Option<Value>, id: Option<Value>)

  /**
   * One Security Hub finding: its `Resources` (an absent list reads as empty), its
   * `Workflow.Status` and its `Title`.
   */
  datatype Finding = Finding(resources: seq<Resource>, workflowStatus: Option<Value>, title: Option<Value>)

  /** The `detail` object of an event carrying Security Hub findings. */
  datatype FindingsDetail = FindingsDetail(findings: Option<seq<Finding>>)

  /** `configurationItem` of an already parsed `invokingEvent`. */
  datatype ConfigurationItem = ConfigurationItem(resourceType: Option<Value>, resourceName: Option<Value>, arn: Option<Value>)

  /** A parsed `invokingEvent`; an absent `configurationItem` reads as `{}`. */
  datatype InvokingEvent = InvokingEvent(configurationItem: Option<ConfigurationItem>)

  /** The keys of an inbound event either remediation handler looks at. */
  datatype InboundEvent = InboundEvent(
    bucketNameKey: Option<Value>,   // bucket_name (direct invocation, S3)
    topicArnKey: Option<Value>,     // topic_arn (direct invocation, SNS)
    source: Option<Value>,          // source
    action: Option<Value>,          // action
    bucketName: Option<Value>,      // bucketName (CloudTrail CreateBucket)
    topicArn: Option<Value>,        // topicArn (CloudTrail CreateTopic)
    resourceId: Option<Value>,      // resourceId (Config remediation)
    detail: Option<FindingsDetail>, // detail (Security Hub)
    invokingEvent: Option<InvokingEvent>) // invokingEvent (Config rule evaluation)

  /** `event.get('source') == 'cloudtrail' and event.get('action') == action`. */
  predicate IsCloudTrailCreate(e: InboundEvent, action: string) {
    Get(e.source) == Str("cloudtrail") && Get(e.action) == Str(action)
  }

  /** The `for resource in resources` loop: index of the first resource whose `Type` is `t`. */
  function FirstOfType(resources: seq<Resource>, t: string): (r: Option<nat>)
    ensures r.Some? ==> r.value < |resources| && Get(resources[r.value].resourceType) == Str(t)
    ensures r.Some? ==> forall j | 0 <= j < r.value :: Get(resources[j].resourceType) != Str(t)
    ensures r.None? ==> forall j | 0 <= j < |resources| :: Get(resources[j].resourceType) != Str(t)
    decreases |resources|
  {
    if resources == [] then None
    else if Get(resources[0].resourceType) == Str(t) then Some(0)
    else match FirstOfType(resources[1..], t)
      case None => None
      case Some(k) => Some(k + 1)
  }

  /** The `Resources` of the first finding, when `detail.findings` is present and non-empty. */
  function FirstFindingResources(e: InboundEvent): Option<seq<Resource>> {
    if e.detail.Some? && e.detail.value.findings.Some? && e.detail.value.findings.value != [] then
      Some(e.detail.value.findings.value[0].resources)
    else
      None
  }

  /**
   * The Security Hub probe: the first resource of type `t` in the FIRST finding only;
   * `None` lets the probing fall through.
   */
  function SecurityHubResource(e: InboundEvent, t: string): (r: Option<Resource>)
    ensures FirstFindingResources(e).None? ==> r.None?
    ensures FirstFindingResources(e).Some? ==>
              var resources := FirstFindingResources(e).value;
              && (r.None? <==> forall j | 0 <= j < |resources| :: Get(resources[j].resourceType) != Str(t))
              && (r.Some? ==> exists k | 0 <= k < |resources| ::
                                && resources[k] == r.value
                                && forall j | 0 <= j < k :: Get(resources[j].resourceType) != Str(t))
    ensures r.Some? ==> Get(r.value.resourceType) == Str(t)
  {
    match FirstFindingResources(e)
    case None => None
    case Some(resources) =>
      match FirstOfType(resources, t)
      case Some(k) => Some(resources[k])
      case None => None
  }

  /** The Config-rule-evaluation probe: the configuration item, when it describes a resource of type `t`. */
  function ConfigItemOfType(e: InboundEvent, t: string): (r: Option<ConfigurationItem>)
    ensures r.Some? <==> e.invokingEvent.Some? && e.invokingEvent.value.configurationItem.Some?
                         && Get(e.invokingEvent.value.configurationItem.value.resourceType) == Str(t)
    ensures r.Some? ==> r.value == e.invokingEvent.value.configurationItem.value
  {
    if e.invokingEvent.Some? then
      match e.invokingEvent.value.configurationItem
      case Some(item) => if Get(item.resourceType) == Str(t) then Some(item) else None
      case None => None
    else
      None
  }

  /**
   * First-match-wins over probes listed in precedence order: each entry is `Some(v)`
   * when its probe matched and would return `v`.
   */
  function FirstMatch<T>(probes: seq<Option<T>>, otherwise: T): (r: T)
    ensures (forall k | 0 <= k < |probes| :: probes[k].None?) ==> r == otherwise
    ensures r == otherwise || exists k | 0 <= k < |probes| ::
              probes[k] == Some(r) && forall j | 0 <= j < k :: probes[j].None?
    decreases |probes|
  {
    if probes == [] then otherwise
    else if probes[0].Some? then probes[0].value
    else FirstMatch(probes[1..], otherwise)
  }

  /** The earliest matching probe decides, whatever the later ones would say. */
  lemma {:induction false} FirstMatchAt<T>(probes: seq<Option<T>>, otherwise: T, k: nat)
    requires k < |probes| && probes[k].Some?
    requires forall j | 0 <= j < k :: probes[j].None?
    ensures FirstMatch(probes, otherwise) == probes[k].value
    decreases k
  {
    if k > 0 {
      FirstMatchAt(probes[1..], otherwise, k - 1);
    }
  }
}
