/** The parent's screen: the countdown to the end of the session, the
    parent's own pickup request, the status buttons it offers, and the
    access-code form shown before a parent is signed in. */
module ParentView {
  import opened Types
  import opened Store
  import opened Chat

  const MsPerSecond := 1000
  const MsPerMinute := 60 * 1000
  const MsPerHour := 60 * 60 * 1000
  const MsPerDay := 24 * 60 * 60 * 1000

  /** The hours, minutes and seconds shown by the countdown. */
  datatype TimeLeft = TimeLeft(h: nat, m: nat, s: nat)

  /** The milliseconds left until `endTime`, never negative. */
  function Remaining(endTime: int, now: int): (diff: nat)
    ensures now <= endTime ==> diff == endTime - now
    ensures now >= endTime ==> diff == 0
  {
    if endTime - now > 0 then endTime - now else 0
  }

  /** The countdown for a session ending at `endTime`, seen at `now`. The
      difference is a whole number of milliseconds and not negative, so
      flooring the quotient before or after the remainder gives the same
      digits. */
  function Countdown(endTime: int, now: int): (t: TimeLeft)
    ensures t.h < 24 && t.m < 60 && t.s < 60
    ensures now >= endTime ==> t == TimeLeft(0, 0, 0)
  {
    var diff := Remaining(endTime, now);
    TimeLeft((diff / MsPerHour) % 24, (diff / MsPerMinute) % 60, (diff / MsPerSecond) % 60)
  }

  /** Within a day of the end, the fields add back up to the whole seconds left. */
  lemma CountdownIsExact(endTime: int, now: int)
    requires now <= endTime < now + MsPerDay
    ensures var t := Countdown(endTime, now);
      t.h * MsPerHour + t.m * MsPerMinute + t.s * MsPerSecond == endTime - now - (endTime - now) % 1000
  {
    var diff := endTime - now;
    var secs := diff / 1000;
    assert diff / MsPerMinute == secs / 60;
    assert diff / MsPerHour == secs / 3600;
    assert secs / 3600 < 24;
    assert (secs / 60) % 60 == secs / 60 - 60 * (secs / 3600);
  }

  /** Whole days are dropped: a session a day further away shows the same countdown. */
  lemma CountdownDropsDays(endTime: int, now: int)
    requires now <= endTime
    ensures Countdown(endTime + MsPerDay, now) == Countdown(endTime, now)
  {
    var diff := endTime - now;
    DayInHours(diff);
    DayInMinutes(diff);
    DayInSeconds(diff);
  }

  lemma DayInHours(x: nat)
    ensures ((x + MsPerDay) / MsPerHour) % 24 == (x / MsPerHour) % 24
  {
    assert (x + MsPerDay) / MsPerHour == x / MsPerHour + 24;
  }

  lemma DayInMinutes(x: nat)
    ensures ((x + MsPerDay) / MsPerMinute) % 60 == (x / MsPerMinute) % 60
  {
    assert (x + MsPerDay) / MsPerMinute == x / MsPerMinute + 24 * 60;
  }

  lemma DayInSeconds(x: nat)
    ensures ((x + MsPerDay) / MsPerSecond) % 60 == (x / MsPerSecond) % 60
  {
    assert (x + MsPerDay) / MsPerSecond == x / MsPerSecond + 24 * 60 * 60;
  }

  /** The signed-in parent: the parent whose id is the active one, if any. */
  function CurrentUser(parents: seq<Parent>, activeParentId: Option<string>): (r: Option<nat>)
    ensures r.Some? ==> r.value < |parents| && Some(parents[r.value].id) == activeParentId
    ensures r.Some? ==> forall j :: 0 <= j < r.value ==> Some(parents[j].id) != activeParentId
    ensures r.None? ==> forall i :: 0 <= i < |parents| ==> Some(parents[i].id) != activeParentId
  {
    match activeParentId
    case None => None
    case Some(id) => ParentWithId(parents, id)
  }

  /** The first request of the signed-in parent's child, if there is one. */
  function CurrentPickup(queue: seq<PickupRequest>, parents: seq<Parent>, activeParentId: Option<string>): (r: Option<PickupRequest>)
    ensures r.Some? ==> (r.value in queue && CurrentUser(parents, activeParentId).Some? &&
      r.value.studentId == parents[CurrentUser(parents, activeParentId).value].studentId)
    ensures CurrentUser(parents, activeParentId).None? ==> r.None?
    ensures CurrentUser(parents, activeParentId).Some? ==>
      var child := parents[CurrentUser(parents, activeParentId).value].studentId;
      (r.Some? <==> exists i :: 0 <= i < |queue| && queue[i].studentId == child) &&
      (r.Some? ==> exists k :: (0 <= k < |queue| && r.value == queue[k] &&
        forall j :: 0 <= j < k ==> queue[j].studentId != child))
  {
    match CurrentUser(parents, activeParentId)
    case None => None
    case Some(p) =>
      match RequestOfStudent(queue, parents[p].studentId)
      case None => None
      case Some(k) => Some(queue[k])
  }

  /** Which screen the parent sees. */
  datatype Screen = SignIn | Confirmed | Dashboard

  function ParentScreen(parents: seq<Parent>, queue: seq<PickupRequest>, activeParentId: Option<string>): (v: Screen)
    ensures v == SignIn <==> CurrentUser(parents, activeParentId).None?
    ensures v == Confirmed <==> (CurrentUser(parents, activeParentId).Some? &&
      ShownStatus(CurrentPickup(queue, parents, activeParentId)) == Completed)
  {
    if CurrentUser(parents, activeParentId).None? then SignIn
    else if ShownStatus(CurrentPickup(queue, parents, activeParentId)) == Completed then Confirmed
    else Dashboard
  }

  /** "I'm leaving now" is disabled once the parent is on the way or there. */
  predicate LeavingDisabled(status: PickupStatus) {
    status == OnWay || status == Arrived
  }

  /** "I'm here" is disabled once the parent is there. */
  predicate HereDisabled(status: PickupStatus) {
    status == Arrived
  }

  /** The statuses the dashboard lets the parent set: after release only the
      confirmation, otherwise the two buttons that are not disabled. */
  function Actions(status: PickupStatus): (r: set<PickupStatus>)
    ensures status == Released ==> r == {Completed}
    ensures status != Released ==> (OnWay in r <==> !LeavingDisabled(status))
    ensures status != Released ==> (Arrived in r <==> !HereDisabled(status))
    ensures r <= {OnWay, Arrived, Completed}
  {
    if status == Released then {Completed}
    else (if LeavingDisabled(status) then {} else {OnWay}) +
         (if HereDisabled(status) then {} else {Arrived})
  }

  /** The order in which a pickup moves along. */
  function Stage(s: PickupStatus): nat {
    match s
    case Scheduled => 0
    case OnWay => 1
    case Arrived => 2
    case Released => 3
    case Completed => 4
    case Dismissed => 0
  }

  /** On the dashboard (a completed pickup shows the confirmation screen
      instead), every action the parent is offered moves the pickup forward,
      an arrived parent is offered nothing, and only a released pickup can be
      confirmed. */
  lemma ActionsMoveForward(status: PickupStatus, a: PickupStatus)
    requires status != Completed && a in Actions(status)
    ensures status != Dismissed ==> Stage(a) > Stage(status)
    ensures status != Arrived
    ensures a == Completed <==> status == Released
  {
  }

  /** The access-code form shown before sign-in. */
  class CodeForm {
    var code: string
    var error: bool

    constructor ()
      ensures code == "" && !error
    {
      code := "";
      error := false;
    }

    /** The field holds at most four characters. */
    method Type(text: string)
      modifies this`code
      ensures code == (if |text| <= 4 then text else text[..4])
    {
      code := if |text| <= 4 then text else text[..4];
    }

    /** Connect is disabled until four characters are typed. */
    predicate ConnectDisabled()
      reads this
    {
      |code| < 4
    }

    /** Submitting signs the parent in when the code is a student's with a
        parent on record; a failure only raises the error flag. */
    method Submit(store: AppStore) returns (ok: bool)
      modifies this`error, store`activeParentId
      ensures ok <==> ParentLoginId(store.students, store.parents, code).Some?
      ensures ok ==> store.activeParentId == ParentLoginId(store.students, store.parents, code)
      ensures !ok ==> store.activeParentId == old(store.activeParentId)
      ensures error == !ok
    {
      ok := store.LoginParent(code);
      error := !ok;
    }
  }

  /** With parent ids unique, a parent who signs in with a code is shown the
      request of the child that code belongs to. */
  lemma SignedInParentSeesOwnChild(students: seq<Student>, parents: seq<Parent>, queue: seq<PickupRequest>, code: string)
    requires ParentLoginId(students, parents, code).Some?
    requires forall i, j :: 0 <= i < j < |parents| ==> parents[i].id != parents[j].id
    ensures var active := ParentLoginId(students, parents, code);
      var child := students[StudentWithCode(students, code).value].id;
      var p := CurrentUser(parents, active);
      p.Some? && parents[p.value].studentId == child &&
      CurrentPickup(queue, parents, active) ==
        (if RequestOfStudent(queue, child).Some? then Some(queue[RequestOfStudent(queue, child).value]) else None)
  {
    var child := students[StudentWithCode(students, code).value].id;
    var j := ParentOfStudent(parents, child).value;
    var p := CurrentUser(parents, Some(parents[j].id)).value;
    assert p == j;
  }

  /** A status button updates the request of the signed-in parent's child. */
  method HandleStatusUpdate(store: AppStore, newStatus: PickupStatus, now: nat)
    requires CurrentUser(store.parents, store.activeParentId).Some?
    requires newStatus == OnWay || newStatus == Arrived || newStatus == Completed
    modifies store`pickupQueue
    ensures store.pickupQueue == WithStatus(old(store.pickupQueue), store.students,
      store.parents[CurrentUser(store.parents, store.activeParentId).value].studentId, newStatus, now)
  {
    var user := CurrentUser(store.parents, store.activeParentId).value;
    store.UpdatePickupStatus(store.parents[user].studentId, newStatus, now);
  }

  /** A message the student sends ends the chat the parent's dashboard shows,
      and so plays the parent's notification. */
  lemma StudentMessageAlertsParent(queue: seq<PickupRequest>, students: seq<Student>, parents: seq<Parent>,
                                   activeParentId: Option<string>, text: string, now: nat)
    requires CurrentUser(parents, activeParentId).Some?
    requires var child := parents[CurrentUser(parents, activeParentId).value].studentId;
      RequestOfStudent(queue, child).Some? || StudentWithId(students, child).Some?
    ensures var child := parents[CurrentUser(parents, activeParentId).value].studentId;
      var msg := NewMessage(text, FromStudent, now);
      var before := ShownChat(CurrentPickup(queue, parents, activeParentId));
      var after := ShownChat(CurrentPickup(WithMessage(queue, students, child, msg, now), parents, activeParentId));
      after == before + [msg] && Notifies(|before|, after, FromStudent)
  {
    var child := parents[CurrentUser(parents, activeParentId).value].studentId;
    MessageIsAppended(queue, students, child, NewMessage(text, FromStudent, now), now);
  }
}
