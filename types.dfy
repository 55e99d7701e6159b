/** The records shared by every part of the pickup application: students,
    parents, pickup requests with their chat, and workshop sessions. */
module Types {

  /** An optional value; `None` stands for a field that is absent (`undefined`). */
  datatype Option<T> = None | Some(value: T) {
    function GetOr(default: T): T {
      match this
      case Some(v) => v
      case None => default
    }
  }

  /** The status of a pickup request. The declared type lists four values;
      the views also use `released` and `completed`, so all six are here. */
  datatype PickupStatus = Scheduled | OnWay | Arrived | Dismissed | Released | Completed

  /** Who wrote a chat message. */
  datatype Sender = FromStudent | FromParent

  datatype Student = Student(
    id: string,
    name: string,
    accessCode: string,
    parentId: string,
    avatarUrl: string,
    classroom: string)

  datatype Parent = Parent(
    id: string,
    name: string,
    studentId: string,
    avatarUrl: string)

  datatype ChatMessage = ChatMessage(
    id: string,
    sender: Sender,
    text: string,
    timestamp: int)

  /** The workflow record. `chatHistory` may be missing on rows that come from
      the backend, so it is optional here; so are the three cached fields. */
  datatype PickupRequest = PickupRequest(
    id: string,
    studentId: string,
    parentId: string,
    status: PickupStatus,
    chatHistory: Option<seq<ChatMessage>>,
    timestamp: int,
    aiAnnouncement: Option<string>,
    audioBase64: Option<string>,
    hasAnnounced: Option<bool>)

  datatype Session = Session(
    id: string,
    title: string,
    description: string,
    endTime: int,
    imageUrl: string,
    isActive: bool)

  /** The chat of a request, a missing history counting as empty. */
  function History(r: PickupRequest): seq<ChatMessage> {
    r.chatHistory.GetOr([])
  }

  /** The status a screen shows for an optional request: the request's own,
      `Scheduled` when there is no request. */
  function ShownStatus(request: Option<PickupRequest>): (s: PickupStatus)
    ensures request.Some? ==> s == request.value.status
    ensures request.None? ==> s == Scheduled
  {
    match request
    case Some(r) => r.status
    case None => Scheduled
  }

  /** The chat a screen shows for an optional request, empty when there is none. */
  function ShownChat(request: Option<PickupRequest>): (c: seq<ChatMessage>)
    ensures request.Some? ==> c == History(request.value)
    ensures request.None? ==> c == []
  {
    match request
    case Some(r) => History(r)
    case None => []
  }

  /** `hasAnnounced` is truthy: absent and `false` both read as "not yet". */
  predicate Announced(r: PickupRequest) {
    r.hasAnnounced == Some(true)
  }

  /** A string-valued optional field is truthy: present and non-empty. */
  predicate Truthy(s: Option<string>) {
    s.Some? && s.value != ""
  }
}
