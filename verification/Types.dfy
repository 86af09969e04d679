/**
 The values the operator works with: requests, configuration, tickets and role bindings.
 Points in time are integers; a formatted time is the opaque value `Stamp(t)`.
 */
module Types {

  type Time = int

  /** A compiled `namespaceAllowedRegex`: which namespace names it accepts. */
  type Matcher = string -> bool

  datatype Option<+T> = None | Some(value: T)

  /** The values of `Status.State`; `Other` stands for any further text. */
  datatype Phase = New | PreApproved | Succeeded | Rejected | Other(text: string)

  /** The values of `Status.JiraTicket`: empty, the marker "Skipped", or an issue key. */
  datatype TicketRef = Unset | Skipped | Issue(key: nat)

  datatype Message =
    | NoMessage
    | AwaitingApproval
    | AccessGranted
    | NotApproved
    | FieldMissing(field: string)
    | RoleNotAllowed(role: string)
    | NamespacesNotValidated(namespaces: seq<string>)
    | StartNotInFuture(start: Time)

  datatype Spec = Spec(
    reporter: string,
    additionalEmails: seq<string>,
    clusterRole: string,
    namespaces: seq<string>,
    namespaceLabels: map<string, string>,
    startTime: Time,
    endTime: Time,
    jiraFields: map<string, string>)

  datatype Status = Status(phase: Phase, message: Message, ticket: TicketRef, startTime: Time, endTime: Time)

  /** `uid` tells apart two objects that had the same name; `version` counts the writes to one object. */
  datatype Request = Request(name: string, uid: nat, version: nat, spec: Spec, status: Status)

  const NEW_STATUS := Status(New, NoMessage, Unset, 0, 0)

  datatype FieldSettings = FieldSettings(kind: string, id: string)

  datatype RequiredFields = RequiredFields(
    clusterRole: FieldSettings,
    startTime: FieldSettings,
    endTime: FieldSettings)

  datatype Config = Config(
    allowedClusterRoles: seq<string>,
    approvedStatus: string,
    rejectedTransition: string,
    jiraProject: string,
    jiraIssueType: string,
    completedTransition: string,
    requiredFields: RequiredFields,
    customFields: map<string, FieldSettings>,
    labels: seq<string>,
    environment: string,
    cluster: string,
    additionalCommentText: string,
    namespaceRegex: string,
    selfApprovalEnabled: bool)

  datatype RawValue = Text(text: string) | Stamp(time: Time)

  /** How go-atlassian encodes a custom field: plain text, a select option, or a user object. */
  datatype FieldValue = Plain(value: RawValue) | Choice(value: RawValue) | Account(value: RawValue)

  type Fields = map<string, FieldValue>

  datatype Comment =
    | PreApprovalNote(namespaces: seq<string>, user: string, additional: seq<string>, info: string)
    | CompletedNote
    | RejectedNote(reason: Message)

  /** `owner` is the uid of the request the ticket was opened for; `moves` are the operator's own transitions. */
  datatype Ticket = Ticket(owner: nat, status: string, fields: Fields, comments: seq<Comment>, moves: seq<string>)

  datatype OwnerRef = OwnerRef(kind: string, name: string, uid: nat)

  datatype BindingKey = BindingKey(namespace: string, name: string)

  datatype Binding = Binding(owners: seq<OwnerRef>, subjects: seq<string>, role: string, expiry: Time)

  const REQUEST_KIND := "JitRequest"

  function BindingName(request: string): string {
    request + "-jit"
  }

  /** Distinct requests never share a binding name. */
  lemma BindingNameInjective(a: string, b: string)
    requires BindingName(a) == BindingName(b)
    ensures a == b
  {
    assert a == BindingName(a)[..|a|];
    assert b == BindingName(b)[..|b|];
  }

  function BindingFor(req: Request): Binding {
    Binding([OwnerRef(REQUEST_KIND, req.name, req.uid)],
            [req.spec.reporter] + req.spec.additionalEmails,
            req.spec.clusterRole,
            req.spec.endTime)
  }

  predicate OwnedBy(b: Binding, uid: nat) {
    exists o | o in b.owners :: o.kind == REQUEST_KIND && o.uid == uid
  }
}
