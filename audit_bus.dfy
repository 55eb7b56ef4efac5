/**
 * The audit record the remediation handlers publish, and the event bus they publish it on.
 * Publishing is best effort: a failed `put_events` is logged and swallowed by the caller.
 */
module AuditBus {
  import opened Json

  /** The `Source` both remediation handlers put on their entries. */
  const RemediationSource: string := "custom.autoremediation"

  /** The `Detail` of a remediation entry: what was changed, from which state to which. */
  datatype AuditRecord = AuditRecord(
    resourceType: string,
    resourceId: string,
    resourceArn: string,
    action: string,
    repoUrl: string,
    before: Json,
    after: Json,
    slackChannel: string)

  /** One `put_events` entry. */
  datatype Entry = Entry(source: string, detailType: string, detail: AuditRecord, eventBusName: string)

  /** The bus, as the sequence of entries that reached it. */
  class EventBus {
    var published: seq<Entry>

    constructor ()
      ensures published == []
    {
      published := [];
    }

    /** `put_events` with one entry; `delivers` is whether the service accepts it. */
    method PutEvents(entry: Entry, delivers: bool) returns (ok: bool)
      modifies this
      ensures ok == delivers
      ensures published == old(published) + (if delivers then [entry] else [])
    {
      ok := delivers;
      if delivers {
        published := published + [entry];
      }
    }
  }
}
