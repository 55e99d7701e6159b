/** The student's screen: the student's own request, the card that shows its
    status, and the tracker that plays a sound when the status moves on. */
module StudentView {
  import opened Types
  import opened Store
  import opened Chat

  /** The request of the signed-in student, if there is one. */
  function MyRequest(queue: seq<PickupRequest>, activeStudentId: Option<string>): (r: Option<PickupRequest>)
    ensures r.Some? ==> (r.value in queue && activeStudentId == Some(r.value.studentId))
    ensures r.None? ==> forall i :: 0 <= i < |queue| ==> activeStudentId != Some(queue[i].studentId)
    ensures r.Some? ==> exists k :: (0 <= k < |queue| && r.value == queue[k] &&
      forall j :: 0 <= j < k ==> activeStudentId != Some(queue[j].studentId))
  {
    match activeStudentId
    case None => None
    case Some(id) =>
      match RequestOfStudent(queue, id)
      case None => None
      case Some(k) => Some(queue[k])
  }

  /** The look of the status card. */
  datatype Card = Card(icon: string, color: string, bg: string, border: string, title: string, sub: string)

  /** The configured card for a status; `Dismissed` has none. */
  function CardEntry(status: PickupStatus): Option<Card> {
    match status
    case Scheduled => Some(Card("pending", "text-text-muted", "bg-surface-dark", "border-white/10",
                                "Workshop in Progress", "Waiting for pickup..."))
    case OnWay => Some(Card("directions_car", "text-white", "bg-gradient-to-r from-amber-500 to-orange-600",
                            "border-orange-400/50", "Parent is on the way", "Get ready to leave"))
    case Arrived => Some(Card("sentiment_satisfied", "text-white", "bg-gradient-to-r from-emerald-500 to-teal-600",
                              "border-emerald-400/50", "Parent is Here!", "Go to the pickup point"))
    case Released => Some(Card("door_open", "text-white", "bg-gradient-to-r from-blue-500 to-indigo-600",
                               "border-blue-400/50", "You can leave now!", "Go meet your parent outside"))
    case Completed => Some(Card("check_circle", "text-text-muted", "bg-surface-dark", "border-white/10",
                                "Pickup Complete", "See you next time!"))
    case Dismissed => None
  }

  /** The card shown: the configured one, or the scheduled card as a fallback. */
  function CurrentCard(status: PickupStatus): (c: Card)
    ensures CardEntry(status).Some? ==> c == CardEntry(status).value
    ensures CardEntry(status).None? ==> c == CardEntry(Scheduled).value
  {
    CardEntry(status).GetOr(CardEntry(Scheduled).value)
  }

  /** Only `Dismissed` falls back, and it then shares `Scheduled`'s card
      entry; every other status has an entry of its own. */
  lemma CardFallback(a: PickupStatus, b: PickupStatus)
    ensures CurrentCard(Dismissed) == CurrentCard(Scheduled)
    ensures a != b && CurrentCard(a) == CurrentCard(b) ==> {a, b} == {Dismissed, Scheduled}
  {
    IconLength(a);
    IconLength(b);
  }

  /** The icon names have pairwise different lengths, one per card. */
  lemma IconLength(s: PickupStatus)
    ensures |CurrentCard(s).icon| == match s
      case Scheduled => 7 case OnWay => 14 case Arrived => 19
      case Released => 9 case Completed => 12 case Dismissed => 7
  {
  }

  /** The statuses whose arrival plays a notification. */
  predicate Alerting(s: PickupStatus) {
    s == OnWay || s == Arrived || s == Released
  }

  /** A status change from `prev` to `status` plays a notification. */
  predicate StatusAlert(prev: PickupStatus, status: PickupStatus) {
    prev != status && Alerting(status)
  }

  /** Remembers the status last seen. */
  class StatusTracker {
    var prevStatus: PickupStatus

    constructor (status: PickupStatus)
      ensures prevStatus == status
    {
      prevStatus := status;
    }

    /** Runs when the shown status changes: notifies on a change to an
        alerting status and records every change. */
    method OnStatus(status: PickupStatus) returns (notify: bool)
      modifies this`prevStatus
      ensures notify == StatusAlert(old(prevStatus), status)
      ensures prevStatus == status
    {
      notify := false;
      if prevStatus != status {
        if status == OnWay || status == Arrived || status == Released {
          notify := true;
        }
        prevStatus := status;
      }
    }
  }

  /** The same status never alerts twice in a row, and a pickup that goes
      through the whole workflow alerts on the way, on arrival and on release,
      but not on completion. */
  lemma AlertsAlongTheWorkflow(s: PickupStatus)
    ensures !StatusAlert(s, s)
    ensures StatusAlert(Scheduled, OnWay) && StatusAlert(OnWay, Arrived) && StatusAlert(Arrived, Released)
    ensures !StatusAlert(Released, Completed) && !StatusAlert(s, Scheduled) && !StatusAlert(s, Dismissed)
  {
  }

  /** A message the parent sends for a known student ends the chat the
      student's screen shows, and so plays the student's notification. */
  lemma ParentMessageAlertsStudent(queue: seq<PickupRequest>, students: seq<Student>, studentId: string, text: string, now: nat)
    requires RequestOfStudent(queue, studentId).Some? || StudentWithId(students, studentId).Some?
    ensures var msg := NewMessage(text, FromParent, now);
      var before := ShownChat(MyRequest(queue, Some(studentId)));
      var after := ShownChat(MyRequest(WithMessage(queue, students, studentId, msg, now), Some(studentId)));
      after == before + [msg] && Notifies(|before|, after, FromParent)
  {
    MessageIsAppended(queue, students, studentId, NewMessage(text, FromParent, now), now);
  }
}
