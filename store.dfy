/** The application state container: the four tables mirrored from the
    backend, who is logged in, and the actions every screen calls. Each action
    changes the local ("optimistic") state only; the write to the backend that
    follows it is not part of this model. */
module Store {
  import opened Types
  import opened Tables
  import opened Text

  function StudentKey(s: Student): string { s.id }
  function ParentKey(p: Parent): string { p.id }
  function RequestKey(r: PickupRequest): string { r.id }
  function SessionKey(s: Session): string { s.id }

  // ---------------------------------------------------------------------------
  // Lookups (`Array.prototype.find`)

  /** `students.find(s => s.accessCode === code)` */
  function StudentWithCode(students: seq<Student>, code: string): (r: Option<nat>)
    ensures r.Some? <==> exists i :: 0 <= i < |students| && students[i].accessCode == code
    ensures r.Some? ==> r.value < |students| && students[r.value].accessCode == code
    ensures r.Some? ==> forall j :: 0 <= j < r.value ==> students[j].accessCode != code
  {
    FindFirst(students, (s: Student) => s.accessCode == code)
  }

  /** `students.find(s => s.id === id)` */
  function StudentWithId(students: seq<Student>, id: string): (r: Option<nat>)
    ensures r.Some? <==> exists i :: 0 <= i < |students| && students[i].id == id
    ensures r.Some? ==> r.value < |students| && students[r.value].id == id
    ensures r.Some? ==> forall j :: 0 <= j < r.value ==> students[j].id != id
  {
    FindFirst(students, (s: Student) => s.id == id)
  }

  /** `parents.find(p => p.studentId === studentId)` */
  function ParentOfStudent(parents: seq<Parent>, studentId: string): (r: Option<nat>)
    ensures r.Some? <==> exists i :: 0 <= i < |parents| && parents[i].studentId == studentId
    ensures r.Some? ==> r.value < |parents| && parents[r.value].studentId == studentId
    ensures r.Some? ==> forall j :: 0 <= j < r.value ==> parents[j].studentId != studentId
  {
    FindFirst(parents, (p: Parent) => p.studentId == studentId)
  }

  /** `parents.find(p => p.id === id)` */
  function ParentWithId(parents: seq<Parent>, parentId: string): (r: Option<nat>)
    ensures r.Some? <==> exists i :: 0 <= i < |parents| && parents[i].id == parentId
    ensures r.Some? ==> r.value < |parents| && parents[r.value].id == parentId
    ensures r.Some? ==> forall j :: 0 <= j < r.value ==> parents[j].id != parentId
  {
    FindFirst(parents, (p: Parent) => p.id == parentId)
  }

  /** `pickupQueue.find(p => p.studentId === studentId)`: the request a
      student's actions and views work on. */
  function RequestOfStudent(queue: seq<PickupRequest>, studentId: string): (r: Option<nat>)
    ensures r.Some? <==> exists i :: 0 <= i < |queue| && queue[i].studentId == studentId
    ensures r.Some? ==> r.value < |queue| && queue[r.value].studentId == studentId
    ensures r.Some? ==> forall j :: 0 <= j < r.value ==> queue[j].studentId != studentId
  {
    FindFirst(queue, (p: PickupRequest) => p.studentId == studentId)
  }

  // ---------------------------------------------------------------------------
  // Logins

  /** The student id `loginStudent(code)` activates: that of the first
      student with this access code. */
  function StudentLoginId(students: seq<Student>, code: string): (r: Option<string>)
    ensures r.Some? <==> exists i :: 0 <= i < |students| && students[i].accessCode == code
    ensures r.Some? ==> exists i :: (0 <= i < |students| && students[i].accessCode == code &&
      (forall j :: 0 <= j < i ==> students[j].accessCode != code) && r.value == students[i].id)
  {
    match StudentWithCode(students, code)
    case None => None
    case Some(i) => Some(students[i].id)
  }

  /** The parent id `loginParent(code)` activates: the first parent of the
      first student with this access code, if that student has one. */
  function ParentLoginId(students: seq<Student>, parents: seq<Parent>, code: string): (r: Option<string>)
    ensures r.Some? <==> (StudentWithCode(students, code).Some? &&
      exists j :: 0 <= j < |parents| && parents[j].studentId == students[StudentWithCode(students, code).value].id)
    ensures r.Some? ==> var child := students[StudentWithCode(students, code).value].id;
      exists j :: (0 <= j < |parents| && parents[j].id == r.value && parents[j].studentId == child &&
        forall k :: 0 <= k < j ==> parents[k].studentId != child)
  {
    match StudentWithCode(students, code)
    case None => None
    case Some(i) =>
      match ParentOfStudent(parents, students[i].id)
      case None => None
      case Some(j) => Some(parents[j].id)
  }

  const AdminPassword := "admin"
  const InstructorPassword := "teach"

  // ---------------------------------------------------------------------------
  // Pickup requests

  /** The request created for a student who has none yet. */
  function NewRequest(studentId: string, parentId: string, status: PickupStatus,
                      history: seq<ChatMessage>, now: nat): PickupRequest
  {
    PickupRequest("req_" + Decimal(now), studentId, parentId, status, Some(history), now, None, None, None)
  }

  /** The queue after `updatePickupStatus(studentId, status)` at time `now`. */
  function WithStatus(queue: seq<PickupRequest>, students: seq<Student>, studentId: string,
                      status: PickupStatus, now: nat): (r: seq<PickupRequest>)
    // the student already has a request: every row sharing its id is restamped, the rest is untouched
    ensures RequestOfStudent(queue, studentId).Some? ==>
      var e := queue[RequestOfStudent(queue, studentId).value];
      |r| == |queue| &&
      (forall i :: 0 <= i < |queue| && queue[i].id != e.id ==> r[i] == queue[i]) &&
      (forall i :: 0 <= i < |queue| && queue[i].id == e.id ==>
        r[i].status == status && r[i].timestamp == now &&
        r[i].hasAnnounced == (if status == Arrived then Some(false) else e.hasAnnounced) &&
        r[i].(status := e.status, timestamp := e.timestamp, hasAnnounced := e.hasAnnounced) == e)
    // no request and an unknown student: nothing happens
    ensures RequestOfStudent(queue, studentId).None? && StudentWithId(students, studentId).None? ==>
      r == queue
    // no request and a known student: exactly one fresh request is appended
    ensures RequestOfStudent(queue, studentId).None? && StudentWithId(students, studentId).Some? ==>
      r == queue + [NewRequest(studentId, students[StudentWithId(students, studentId).value].parentId, status, [], now)]
  {
    match RequestOfStudent(queue, studentId)
    case Some(k) =>
      var e := queue[k];
      var updated := e.(status := status, timestamp := now,
                        hasAnnounced := if status == Arrived then Some(false) else e.hasAnnounced);
      MapWhere(queue, RequestKey, e.id, _ => updated)
    case None =>
      match StudentWithId(students, studentId)
      case None => queue
      case Some(s) => queue + [NewRequest(studentId, students[s].parentId, status, [], now)]
  }

  /** The message `sendMessage` builds at time `now`. */
  function NewMessage(text: string, sender: Sender, now: nat): ChatMessage {
    ChatMessage("m_" + Decimal(now), sender, text, now)
  }

  /** The queue after `sendMessage(studentId, msg.text, msg.sender)` at time `now`. */
  function WithMessage(queue: seq<PickupRequest>, students: seq<Student>, studentId: string,
                       msg: ChatMessage, now: nat): (r: seq<PickupRequest>)
    // the student has a request: its chat gains the message at the end, nothing else changes
    ensures RequestOfStudent(queue, studentId).Some? ==>
      var e := queue[RequestOfStudent(queue, studentId).value];
      |r| == |queue| &&
      (forall i :: 0 <= i < |queue| && queue[i].id != e.id ==> r[i] == queue[i]) &&
      (forall i :: 0 <= i < |queue| && queue[i].id == e.id ==>
        History(r[i]) == History(e) + [msg] && r[i].(chatHistory := queue[i].chatHistory) == queue[i])
    ensures RequestOfStudent(queue, studentId).None? && StudentWithId(students, studentId).None? ==>
      r == queue
    // no request and a known student: a scheduled request holding just this message
    ensures RequestOfStudent(queue, studentId).None? && StudentWithId(students, studentId).Some? ==>
      r == queue + [NewRequest(studentId, students[StudentWithId(students, studentId).value].parentId, Scheduled, [msg], now)]
  {
    match RequestOfStudent(queue, studentId)
    case Some(k) =>
      var history := History(queue[k]) + [msg];
      MapWhere(queue, RequestKey, queue[k].id, (p: PickupRequest) => p.(chatHistory := Some(history)))
    case None =>
      match StudentWithId(students, studentId)
      case None => queue
      case Some(s) => queue + [NewRequest(studentId, students[s].parentId, Scheduled, [msg], now)]
  }

  /** `setAnnouncement(reqId, text)`: only `aiAnnouncement` changes, only on matching rows. */
  function WithAnnouncement(queue: seq<PickupRequest>, reqId: string, text: string): (r: seq<PickupRequest>)
    ensures |r| == |queue|
    ensures forall i :: 0 <= i < |queue| ==>
      r[i].aiAnnouncement == (if queue[i].id == reqId then Some(text) else queue[i].aiAnnouncement) &&
      r[i].(aiAnnouncement := queue[i].aiAnnouncement) == queue[i]
  {
    MapWhere(queue, RequestKey, reqId, (p: PickupRequest) => p.(aiAnnouncement := Some(text)))
  }

  /** `setAudioAnnouncement(reqId, audio)`: only `audioBase64` changes, only on matching rows. */
  function WithAudio(queue: seq<PickupRequest>, reqId: string, audio: string): (r: seq<PickupRequest>)
    ensures |r| == |queue|
    ensures forall i :: 0 <= i < |queue| ==>
      r[i].audioBase64 == (if queue[i].id == reqId then Some(audio) else queue[i].audioBase64) &&
      r[i].(audioBase64 := queue[i].audioBase64) == queue[i]
  {
    MapWhere(queue, RequestKey, reqId, (p: PickupRequest) => p.(audioBase64 := Some(audio)))
  }

  /** `markAsAnnounced(reqId)`: only `hasAnnounced` changes, only on matching rows. */
  function WithAnnounced(queue: seq<PickupRequest>, reqId: string): (r: seq<PickupRequest>)
    ensures |r| == |queue|
    ensures forall i :: 0 <= i < |queue| ==>
      r[i].hasAnnounced == (if queue[i].id == reqId then Some(true) else queue[i].hasAnnounced) &&
      r[i].(hasAnnounced := queue[i].hasAnnounced) == queue[i]
    ensures forall i :: 0 <= i < |queue| ==> Announced(r[i]) == (queue[i].id == reqId || Announced(queue[i]))
  {
    MapWhere(queue, RequestKey, reqId, (p: PickupRequest) => p.(hasAnnounced := Some(true)))
  }

  /** After a status change to `arrived`, the request a student's screens
      look up for that student is `arrived`, freshly stamped and not yet
      announced, whether it was updated or created. */
  lemma ArrivalResetsAnnouncement(queue: seq<PickupRequest>, students: seq<Student>, studentId: string, now: nat)
    requires RequestOfStudent(queue, studentId).Some? || StudentWithId(students, studentId).Some?
    ensures var r := WithStatus(queue, students, studentId, Arrived, now);
      RequestOfStudent(r, studentId).Some? &&
      r[RequestOfStudent(r, studentId).value].status == Arrived &&
      r[RequestOfStudent(r, studentId).value].timestamp == now &&
      !Announced(r[RequestOfStudent(r, studentId).value])
  {
    var r := WithStatus(queue, students, studentId, Arrived, now);
    match RequestOfStudent(queue, studentId)
    case Some(k) =>
      var e := queue[k];
      assert r[k].studentId == studentId;
      var f := RequestOfStudent(r, studentId).value;
      assert f <= k;
      assert f < k ==> r[f] != queue[f];
    case None =>
      assert r[|queue|].studentId == studentId;
      var f := RequestOfStudent(r, studentId).value;
      assert f == |queue|;
  }

  /** After a message is sent for a known student, the chat that student's
      screens show is the previous one with the message at the end. */
  lemma MessageIsAppended(queue: seq<PickupRequest>, students: seq<Student>, studentId: string, msg: ChatMessage, now: nat)
    requires RequestOfStudent(queue, studentId).Some? || StudentWithId(students, studentId).Some?
    ensures var r := WithMessage(queue, students, studentId, msg, now);
      var before := if RequestOfStudent(queue, studentId).Some?
                    then History(queue[RequestOfStudent(queue, studentId).value]) else [];
      RequestOfStudent(r, studentId).Some? &&
      History(r[RequestOfStudent(r, studentId).value]) == before + [msg]
  {
    var r := WithMessage(queue, students, studentId, msg, now);
    match RequestOfStudent(queue, studentId)
    case Some(k) =>
      var e := queue[k];
      assert r[k].studentId == studentId;
      var f := RequestOfStudent(r, studentId).value;
      assert f <= k;
      assert f < k ==> r[f] != queue[f];
    case None =>
      assert r[|queue|].studentId == studentId;
      var f := RequestOfStudent(r, studentId).value;
      assert f == |queue|;
  }

  // ---------------------------------------------------------------------------
  // Sessions

  /** `sessions.map(s => ({ ...s, isActive: s.id === id }))` */
  function Activated(sessions: seq<Session>, id: string): (r: seq<Session>)
    ensures |r| == |sessions|
    ensures forall i :: 0 <= i < |r| ==>
      r[i].isActive == (sessions[i].id == id) && r[i].(isActive := sessions[i].isActive) == sessions[i]
  {
    if sessions == [] then []
    else [sessions[0].(isActive := sessions[0].id == id)] + Activated(sessions[1..], id)
  }

  /** `sessions.find(s => s.isActive) || DEFAULT_SESSION` */
  function CurrentSessionOf(sessions: seq<Session>, default: Session): (r: Session)
    ensures (exists i :: 0 <= i < |sessions| && sessions[i].isActive) ==>
      exists i :: 0 <= i < |sessions| && sessions[i].isActive && r == sessions[i] &&
        forall j :: 0 <= j < i ==> !sessions[j].isActive
    ensures (forall i :: 0 <= i < |sessions| ==> !sessions[i].isActive) ==> r == default
  {
    match FindFirst(sessions, (s: Session) => s.isActive)
    case None => default
    case Some(i) => sessions[i]
  }

  function CountActive(sessions: seq<Session>): nat {
    if sessions == [] then 0 else (if sessions[0].isActive then 1 else 0) + CountActive(sessions[1..])
  }

  function CountWithId(sessions: seq<Session>, id: string): nat {
    if sessions == [] then 0 else (if sessions[0].id == id then 1 else 0) + CountWithId(sessions[1..], id)
  }

  predicate UniqueIds(sessions: seq<Session>) {
    forall i, j :: 0 <= i < j < |sessions| ==> sessions[i].id != sessions[j].id
  }

  /** After activation, as many sessions are active as carry the id. */
  lemma {:induction false} ActivatedCount(sessions: seq<Session>, id: string)
    ensures CountActive(Activated(sessions, id)) == CountWithId(sessions, id)
  {
    if sessions != [] {
      var r := Activated(sessions, id);
      assert r[1..] == Activated(sessions[1..], id);
      ActivatedCount(sessions[1..], id);
    }
  }

  lemma {:induction false} UniqueIdCount(sessions: seq<Session>, id: string, k: nat)
    requires UniqueIds(sessions) && k < |sessions| && sessions[k].id == id
    ensures CountWithId(sessions, id) == 1
  {
    var t := sessions[1..];
    if k == 0 {
      assert forall i :: 0 <= i < |t| ==> t[i].id != id by {
        forall i | 0 <= i < |t| ensures t[i].id != id {
          assert t[i] == sessions[i + 1];
        }
      }
      NoIdCount(t, id);
    } else {
      assert sessions[0].id != id by { assert sessions[0].id != sessions[k].id; }
      assert UniqueIds(t) by {
        forall i, j | 0 <= i < j < |t| ensures t[i].id != t[j].id {
          assert t[i] == sessions[i + 1] && t[j] == sessions[j + 1];
        }
      }
      UniqueIdCount(t, id, k - 1);
    }
  }

  lemma {:induction false} NoIdCount(sessions: seq<Session>, id: string)
    requires forall i :: 0 <= i < |sessions| ==> sessions[i].id != id
    ensures CountWithId(sessions, id) == 0
  {
    if sessions != [] {
      NoIdCount(sessions[1..], id);
    }
  }

  /** With distinct session ids, activating an existing id leaves exactly
      one session active. */
  lemma ExactlyOneActive(sessions: seq<Session>, id: string, k: nat)
    requires UniqueIds(sessions) && k < |sessions| && sessions[k].id == id
    ensures CountActive(Activated(sessions, id)) == 1
  {
    ActivatedCount(sessions, id);
    UniqueIdCount(sessions, id, k);
  }

  /** After activating an existing id, the current session is the first
      session carrying that id, now active. */
  lemma ActivatedIsCurrent(sessions: seq<Session>, id: string, default: Session, k: nat)
    requires k < |sessions| && sessions[k].id == id
    ensures var c := CurrentSessionOf(Activated(sessions, id), default);
      c.id == id && c.isActive && c in Activated(sessions, id)
  {
    var r := Activated(sessions, id);
    assert r[k].isActive;
  }

  // ---------------------------------------------------------------------------
  // Families and sessions created by the admin

  datatype Family = Family(student: Student, parent: Parent)

  const AvatarBase := "https://api.dicebear.com/7.x/avataaars/svg?seed="

  /** The student and parent `addStudent` creates at time `now`; `roll` is
      `Math.floor(1000 + Math.random() * 9000)`. */
  function NewFamily(studentName: string, parentName: string, classroom: string, roll: nat, now: nat): (f: Family)
    requires 1000 <= roll <= 9999
    ensures f.student.parentId == f.parent.id && f.parent.studentId == f.student.id
    ensures f.student.id != f.parent.id
    ensures |f.student.accessCode| == 4
    ensures forall i :: 0 <= i < 4 ==> '0' <= f.student.accessCode[i] <= '9'
    ensures DecimalValue(f.student.accessCode) == roll
    ensures f.student.name == studentName && f.parent.name == parentName && f.student.classroom == classroom
  {
    var code := Decimal(roll);
    FourDigitDecimal(roll);
    DecimalRoundTrip(roll);
    var sId := "s_" + Decimal(now);
    var pId := "p_" + Decimal(now);
    assert sId[0] != pId[0];
    Family(
      Student(sId, studentName, code, pId, AvatarBase + studentName + code, classroom),
      Parent(pId, parentName, sId, AvatarBase + parentName + code))
  }

  /** A family just added can log in with its code: the student login
      succeeds, and when the code was not already in use it selects the new
      student and the new parent. */
  lemma NewFamilyCanLogIn(students: seq<Student>, parents: seq<Parent>, f: Family)
    requires f.student.parentId == f.parent.id && f.parent.studentId == f.student.id
    ensures StudentLoginId(students + [f.student], f.student.accessCode).Some?
    ensures StudentWithCode(students, f.student.accessCode).None? ==>
      StudentLoginId(students + [f.student], f.student.accessCode) == Some(f.student.id)
    ensures StudentWithCode(students, f.student.accessCode).None? &&
            ParentOfStudent(parents, f.student.id).None? ==>
      ParentLoginId(students + [f.student], parents + [f.parent], f.student.accessCode) == Some(f.parent.id)
  {
    var s := students + [f.student];
    var p := parents + [f.parent];
    assert s[|students|] == f.student;
    if StudentWithCode(students, f.student.accessCode).None? {
      var i := StudentWithCode(s, f.student.accessCode).value;
      assert i == |students|;
      if ParentOfStudent(parents, f.student.id).None? {
        assert p[|parents|] == f.parent;
        var j := ParentOfStudent(p, f.student.id).value;
        assert j == |parents|;
      }
    }
  }

  /** The session `addSession` creates: inactive, ending two hours after `now`. */
  function NewSession(title: string, description: string, imageUrl: string, now: nat): Session {
    Session("sess_" + Decimal(now), title, description, now + 1000 * 60 * 60 * 2, imageUrl, false)
  }

  // ---------------------------------------------------------------------------
  // Seed data

  const MockStudents: seq<Student> := [
    Student("s1", "Leo", "1234", "p1", AvatarBase + "Leo", "Salle 1"),
    Student("s2", "Mia", "5678", "p2", AvatarBase + "Mia", "Salle DIY")
  ]

  const MockParents: seq<Parent> := [
    Parent("p1", "Sarah", "s1", AvatarBase + "Sarah"),
    Parent("p2", "Mike", "s2", AvatarBase + "Mike")
  ]

  const DefaultImage := "https://lh3.googleusercontent.com/aida-public/AB6AXuD2x5mdNdc8OqJ4jljwmWPVlljklCxxmQ0HASTp4Qp1dc1k4CWXD5nEuUUyWrkA30BihR-Xd2ENLlHElkNLOJTOd4_o3tjxojevwq4u4kzNDCTv61_7mEBiKnn5vcfHJhLgEufZar06IQy2WFEq-wTbtMqlSmOuaWwnU26DYXa6YD-TLr_vlzX2DMvQOOPG9S_YWryPA--CwWEdfQVHuh_sPEOvVftpzjILH41CDIcuftt8SHCSvBgw_GQHOxq7EAdrSe6n8LwYCnDM"

  /** The fallback session; its end time is one hour after the module loads. */
  function DefaultSession(loadTime: nat): Session {
    Session("sess_default", "General Workshop", "Daily Activities", loadTime + 1000 * 60 * 60, DefaultImage, true)
  }

  // ---------------------------------------------------------------------------
  // The provider's state

  class AppStore {
    var activeStudentId: Option<string>
    var activeParentId: Option<string>
    var isAdminLoggedIn: bool
    var isInstructorLoggedIn: bool
    var isMuted: bool
    var isConfigured: bool
    var geminiApiKey: string

    var students: seq<Student>
    var parents: seq<Parent>
    var pickupQueue: seq<PickupRequest>
    var sessions: seq<Session>

    const defaultSession: Session

    /** The provider as it mounts: the ids and flags come from what was
        persisted, the tables from the demo data. */
    constructor (storedStudentId: Option<string>, storedParentId: Option<string>,
                 storedAdminAuth: Option<string>, storedInstructorAuth: Option<string>,
                 storedGeminiKey: Option<string>, loadTime: nat)
      ensures activeStudentId == storedStudentId && activeParentId == storedParentId
      ensures isAdminLoggedIn == (storedAdminAuth == Some("true"))
      ensures isInstructorLoggedIn == (storedInstructorAuth == Some("true"))
      ensures !isMuted && !isConfigured && geminiApiKey == storedGeminiKey.GetOr("")
      ensures students == MockStudents && parents == MockParents
      ensures sessions == [DefaultSession(loadTime)] && pickupQueue == []
      ensures defaultSession == DefaultSession(loadTime)
    {
      activeStudentId := storedStudentId;
      activeParentId := storedParentId;
      isAdminLoggedIn := storedAdminAuth == Some("true");
      isInstructorLoggedIn := storedInstructorAuth == Some("true");
      isMuted := false;
      isConfigured := false;
      geminiApiKey := storedGeminiKey.GetOr("");
      students := MockStudents;
      parents := MockParents;
      defaultSession := DefaultSession(loadTime);
      sessions := [DefaultSession(loadTime)];
      pickupQueue := [];
    }

    /** The derived `currentSession`. */
    function CurrentSession(): Session
      reads this
    {
      CurrentSessionOf(sessions, defaultSession)
    }

    method ToggleMute()
      modifies this`isMuted
      ensures isMuted == !old(isMuted)
    {
      isMuted := !isMuted;
    }

    /** Keeps the AI key; persisting it is left to the caller. */
    method UpdateGeminiApiKey(key: string)
      modifies this`geminiApiKey
      ensures geminiApiKey == key
    {
      geminiApiKey := key;
    }

    /** The app counts as configured when both stored credentials are present
        and non-empty. */
    method CheckConfiguration(storedUrl: Option<string>, storedKey: Option<string>) returns (hasConfig: bool)
      modifies this`isConfigured
      ensures hasConfig <==> Truthy(storedUrl) && Truthy(storedKey)
      ensures isConfigured == hasConfig
    {
      hasConfig := storedUrl.Some? && storedUrl.value != "" && storedKey.Some? && storedKey.value != "";
      isConfigured := hasConfig;
    }

    /** Forgetting the stored credentials leaves the app unconfigured; the key
        already held in the state stays. */
    method ResetConfiguration()
      modifies this`isConfigured
      ensures !isConfigured
    {
      isConfigured := false;
    }

    method LoginStudent(code: string) returns (ok: bool)
      modifies this`activeStudentId
      ensures ok <==> exists i :: 0 <= i < |students| && students[i].accessCode == code
      ensures ok ==> activeStudentId == StudentLoginId(students, code)
      ensures !ok ==> activeStudentId == old(activeStudentId)
    {
      var found := StudentWithCode(students, code);
      ok := found.Some?;
      if ok {
        activeStudentId := Some(students[found.value].id);
        assert students[found.value].accessCode == code;
      }
    }

    method LoginParent(code: string) returns (ok: bool)
      modifies this`activeParentId
      ensures ok <==> ParentLoginId(students, parents, code).Some?
      ensures ok ==> activeParentId == ParentLoginId(students, parents, code)
      ensures !ok ==> activeParentId == old(activeParentId)
    {
      ok := false;
      var student := StudentWithCode(students, code);
      if student.Some? {
        var parent := ParentOfStudent(parents, students[student.value].id);
        if parent.Some? {
          activeParentId := Some(parents[parent.value].id);
          ok := true;
        }
      }
    }

    method LoginAdmin(password: string) returns (ok: bool)
      modifies this`isAdminLoggedIn
      ensures ok == (password == AdminPassword)
      ensures isAdminLoggedIn == (old(isAdminLoggedIn) || ok)
    {
      ok := password == AdminPassword;
      if ok {
        isAdminLoggedIn := true;
      }
    }

    method LoginInstructor(password: string) returns (ok: bool)
      modifies this`isInstructorLoggedIn
      ensures ok == (password == InstructorPassword || password == AdminPassword)
      ensures isInstructorLoggedIn == (old(isInstructorLoggedIn) || ok)
    {
      ok := password == InstructorPassword || password == AdminPassword;
      if ok {
        isInstructorLoggedIn := true;
      }
    }

    method Logout()
      modifies this`activeParentId, this`activeStudentId, this`isAdminLoggedIn, this`isInstructorLoggedIn
      ensures activeParentId == None && activeStudentId == None
      ensures !isAdminLoggedIn && !isInstructorLoggedIn
    {
      activeParentId := None;
      activeStudentId := None;
      isAdminLoggedIn := false;
      isInstructorLoggedIn := false;
    }

    method UpdatePickupStatus(studentId: string, status: PickupStatus, now: nat)
      modifies this`pickupQueue
      ensures pickupQueue == WithStatus(old(pickupQueue), students, studentId, status, now)
    {
      pickupQueue := WithStatus(pickupQueue, students, studentId, status, now);
    }

    method SendMessage(studentId: string, text: string, sender: Sender, now: nat)
      modifies this`pickupQueue
      ensures pickupQueue == WithMessage(old(pickupQueue), students, studentId, NewMessage(text, sender, now), now)
    {
      pickupQueue := WithMessage(pickupQueue, students, studentId, NewMessage(text, sender, now), now);
    }

    method SetAnnouncement(reqId: string, text: string)
      modifies this`pickupQueue
      ensures pickupQueue == WithAnnouncement(old(pickupQueue), reqId, text)
    {
      pickupQueue := WithAnnouncement(pickupQueue, reqId, text);
    }

    method SetAudioAnnouncement(reqId: string, audio: string)
      modifies this`pickupQueue
      ensures pickupQueue == WithAudio(old(pickupQueue), reqId, audio)
    {
      pickupQueue := WithAudio(pickupQueue, reqId, audio);
    }

    method MarkAsAnnounced(reqId: string)
      modifies this`pickupQueue
      ensures pickupQueue == WithAnnounced(old(pickupQueue), reqId)
    {
      pickupQueue := WithAnnounced(pickupQueue, reqId);
    }

    /** `addStudent`; the admin form only submits names with visible text. */
    method AddStudent(studentName: string, parentName: string, classroom: string, roll: nat, now: nat)
      requires HasVisibleText(studentName) && HasVisibleText(parentName)
      requires 1000 <= roll <= 9999
      modifies this`students, this`parents
      ensures var f := NewFamily(studentName, parentName, classroom, roll, now);
        students == old(students) + [f.student] && parents == old(parents) + [f.parent]
    {
      var f := NewFamily(studentName, parentName, classroom, roll, now);
      students := students + [f.student];
      parents := parents + [f.parent];
    }

    /** `addSession`; the admin form only submits titles with visible text. */
    method AddSession(title: string, description: string, imageUrl: string, now: nat)
      requires HasVisibleText(title)
      modifies this`sessions
      ensures sessions == old(sessions) + [NewSession(title, description, imageUrl, now)]
    {
      sessions := sessions + [NewSession(title, description, imageUrl, now)];
    }

    method ActivateSession(id: string)
      modifies this`sessions
      ensures sessions == Activated(old(sessions), id)
    {
      sessions := Activated(sessions, id);
    }

    /** The local part of `seedDatabase`. */
    method SeedDatabase()
      modifies this`students, this`parents, this`sessions
      ensures students == MockStudents && parents == MockParents && sessions == [defaultSession]
    {
      students := MockStudents;
      parents := MockParents;
      sessions := [defaultSession];
    }

    /** The local part of `resetSystem`. */
    method ResetSystem()
      modifies this`students, this`parents, this`sessions, this`pickupQueue
      ensures students == [] && parents == [] && sessions == [] && pickupQueue == []
    {
      students := [];
      parents := [];
      sessions := [];
      pickupQueue := [];
    }

    // Change-feed handlers: one per mirrored table.

    method OnStudentsChange(c: Change<Student>)
      modifies this`students
      ensures students == Apply(old(students), StudentKey, c)
    {
      students := Apply(students, StudentKey, c);
    }

    method OnParentsChange(c: Change<Parent>)
      modifies this`parents
      ensures parents == Apply(old(parents), ParentKey, c)
    {
      parents := Apply(parents, ParentKey, c);
    }

    method OnPickupsChange(c: Change<PickupRequest>)
      modifies this`pickupQueue
      ensures pickupQueue == Apply(old(pickupQueue), RequestKey, c)
    {
      pickupQueue := Apply(pickupQueue, RequestKey, c);
    }

    method OnSessionsChange(c: Change<Session>)
      modifies this`sessions
      ensures sessions == Apply(old(sessions), SessionKey, c)
    {
      sessions := Apply(sessions, SessionKey, c);
    }
  }

  // ---------------------------------------------------------------------------
  // The demo family on the demo data

  /** Leo's parent logs in with the code "1234". */
  lemma LeoParentLogsIn()
    ensures ParentLoginId(MockStudents, MockParents, "1234") == Some("p1")
  {
    assert MockStudents[0].accessCode == "1234";
    assert StudentWithCode(MockStudents, "1234") == Some(0);
    assert MockParents[0].studentId == "s1";
    assert ParentOfStudent(MockParents, "s1") == Some(0);
  }

  /** "I'm Leaving" on an empty queue creates Leo's request. */
  lemma LeoLeaves(t1: nat)
    ensures WithStatus([], MockStudents, "s1", OnWay, t1) == [NewRequest("s1", "p1", OnWay, [], t1)]
  {
    assert StudentWithId(MockStudents, "s1") == Some(0);
  }

  /** "I'm Here" moves the same request to `arrived`, with the announcement
      flag reset. */
  lemma LeoArrives(t1: nat, t2: nat)
    ensures WithStatus([NewRequest("s1", "p1", OnWay, [], t1)], MockStudents, "s1", Arrived, t2)
         == [NewRequest("s1", "p1", OnWay, [], t1).(status := Arrived, timestamp := t2, hasAnnounced := Some(false))]
  {
    var q1 := [NewRequest("s1", "p1", OnWay, [], t1)];
    assert RequestOfStudent(q1, "s1") == Some(0);
  }
}
