/** Identifiers, and the two events that travel between the services. */
module Identity {

  /**
   An identifier is a random UUID, the name-based UUID of a request's completion, or a text that
   does not parse as a UUID. The digest of a name-based UUID is taken to be injective, so it is a
   constructor of its own.
   */
  datatype Id = Minted(n: nat) | CompletionOf(tenant: Id, request: Id) | Text(value: string)

  predicate IsUuid(id: Id) {
    !id.Text?
  }

  const BLANK := Text("")

  const WECOM := "WECOM"

  const QA_REQUESTED := "qa.requested"

  const QA_COMPLETED := "qa.completed"

  datatype RunKey = RunKey(tenant: Id, request: Id)

  datatype Requested = Requested(
    event: Id, kind: string, schema: string, tenant: Id, request: Id, trace: string, attempt: int,
    channel: string, input: Id, actor: Id, conversation: Id, external: string)

  datatype Completed = Completed(
    event: Id, kind: string, schema: string, tenant: Id, request: Id, trace: string, causation: Id, attempt: int,
    message: Id, recipient: Id, channel: string)

  predicate ValidRequested(e: Requested) {
    && e.kind == QA_REQUESTED && e.schema == "1.0"
    && IsUuid(e.event) && IsUuid(e.tenant)
    && e.request != BLANK && e.trace != "" && e.input != BLANK && e.actor != BLANK && e.channel != ""
  }

  predicate ValidCompleted(e: Completed) {
    && e.kind == QA_COMPLETED && e.schema == "1.0"
    && IsUuid(e.event) && IsUuid(e.tenant) && IsUuid(e.message) && IsUuid(e.recipient)
    && e.request != BLANK && e.channel != ""
  }
}
