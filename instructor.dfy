/** The instructor dashboard: the live feed of pickup requests, the
    automatic announcement of arrivals with its in-flight set, and the manual
    "Call" button. */
module Instructor {
  import opened Types
  import opened Store

  /** The tab that shows every room. */
  const AllRooms := "ALL"

  // ---------------------------------------------------------------------------
  // The live feed

  /** The feed leaves out requests that are `scheduled` or `dismissed`. */
  predicate InFeed(r: PickupRequest) {
    r.status != Scheduled && r.status != Dismissed
  }

  /** The room filter: the ALL tab keeps everything, another tab keeps a
      request only when its student is known and sits in that room. */
  predicate InRoom(students: seq<Student>, filter: string, r: PickupRequest) {
    filter == AllRooms ||
    (StudentWithId(students, r.studentId).Some? &&
     students[StudentWithId(students, r.studentId).value].classroom == filter)
  }

  predicate Shown(students: seq<Student>, filter: string, r: PickupRequest) {
    InFeed(r) && InRoom(students, filter, r)
  }

  /** The two `filter` calls, in queue order. */
  function Visible(queue: seq<PickupRequest>, students: seq<Student>, filter: string): (r: seq<PickupRequest>)
    ensures forall x :: x in r <==> x in queue && Shown(students, filter, x)
    ensures multiset(r) <= multiset(queue)
    ensures forall x :: multiset(r)[x] == if Shown(students, filter, x) then multiset(queue)[x] else 0
  {
    if queue == [] then []
    else
      var rest := Visible(queue[1..], students, filter);
      assert queue == [queue[0]] + queue[1..];
      if Shown(students, filter, queue[0]) then [queue[0]] + rest else rest
  }

  /** The feed of a queue is the feed of its front followed by the feed of
      its back: `filter` keeps the shown rows in queue order. */
  lemma {:induction false} VisibleAppend(a: seq<PickupRequest>, b: seq<PickupRequest>, students: seq<Student>, filter: string)
    ensures Visible(a + b, students, filter) == Visible(a, students, filter) + Visible(b, students, filter)
  {
    if a == [] {
      assert a + b == b;
    } else {
      assert (a + b)[1..] == a[1..] + b;
      VisibleAppend(a[1..], b, students, filter);
    }
  }

  predicate SortedByTimeDesc(s: seq<PickupRequest>) {
    forall i, j :: 0 <= i < j < |s| ==> s[i].timestamp >= s[j].timestamp
  }

  /** A newest-first sequence stays so with an element at least as new as its head in front. */
  lemma SortedCons(x: PickupRequest, s: seq<PickupRequest>)
    requires SortedByTimeDesc(s)
    requires s != [] ==> x.timestamp >= s[0].timestamp
    ensures SortedByTimeDesc([x] + s)
  {
    var r := [x] + s;
    forall i, j | 0 <= i < j < |r| ensures r[i].timestamp >= r[j].timestamp {
      if i == 0 {
        assert r[j] == s[j - 1];
      }
    }
  }

  /** Places `x` before the first element that is not newer than it. */
  function InsertByTime(x: PickupRequest, s: seq<PickupRequest>): (r: seq<PickupRequest>)
    requires SortedByTimeDesc(s)
    ensures SortedByTimeDesc(r)
    ensures multiset(r) == multiset(s) + multiset{x}
    ensures r[0] == x || (s != [] && r[0] == s[0])
  {
    if s == [] || x.timestamp >= s[0].timestamp then
      SortedCons(x, s);
      [x] + s
    else
      var rest := InsertByTime(x, s[1..]);
      assert s == [s[0]] + s[1..];
      SortedCons(s[0], rest);
      [s[0]] + rest
  }

  /** `sort((a, b) => b.timestamp - a.timestamp)`: newest first. */
  function SortByTimeDesc(s: seq<PickupRequest>): (r: seq<PickupRequest>)
    ensures SortedByTimeDesc(r)
    ensures multiset(r) == multiset(s)
  {
    if s == [] then []
    else
      assert s == [s[0]] + s[1..];
      InsertByTime(s[0], SortByTimeDesc(s[1..]))
  }

  /** Two sequences with the same multiset have the same elements. */
  lemma SameElements(a: seq<PickupRequest>, b: seq<PickupRequest>)
    requires multiset(a) == multiset(b)
    ensures forall x :: x in a <==> x in b
  {
    forall x ensures x in a <==> x in b {
      assert x in a <==> x in multiset(a);
      assert x in b <==> x in multiset(b);
    }
  }

  /** `activeRequests`: the requests the dashboard lists, newest first. */
  function ActiveRequests(queue: seq<PickupRequest>, students: seq<Student>, filter: string): (r: seq<PickupRequest>)
    ensures forall i :: 0 <= i < |r| ==> r[i].status != Scheduled && r[i].status != Dismissed
    ensures filter == AllRooms ==> forall x :: x in queue && InFeed(x) ==> x in r
    ensures filter != AllRooms ==> forall i :: 0 <= i < |r| ==>
      StudentWithId(students, r[i].studentId).Some? &&
      students[StudentWithId(students, r[i].studentId).value].classroom == filter
    ensures forall x :: x in r <==> x in queue && Shown(students, filter, x)
    ensures SortedByTimeDesc(r)
    ensures multiset(r) <= multiset(queue)
    ensures forall x :: multiset(r)[x] == if Shown(students, filter, x) then multiset(queue)[x] else 0
  {
    var v := Visible(queue, students, filter);
    var r := SortByTimeDesc(v);
    SameElements(r, v);
    assert forall i :: 0 <= i < |r| ==> r[i] in v;
    r
  }

  // ---------------------------------------------------------------------------
  // Automatic announcement

  /** A request the automatic scan picks: arrived, not yet announced, and
      not already being announced. */
  predicate Selectable(r: PickupRequest, inFlight: set<string>) {
    r.status == Arrived && !Announced(r) && r.id !in inFlight
  }

  /** The requests one scan of the feed announces, in feed order, when the
      in-flight set is `inFlight` at the start of the scan. */
  function Selected(feed: seq<PickupRequest>, inFlight: set<string>): (r: seq<PickupRequest>)
    ensures forall x :: x in r <==> x in feed && Selectable(x, inFlight)
    ensures multiset(r) <= multiset(feed)
  {
    if feed == [] then []
    else
      var last := feed[|feed| - 1];
      var rest := Selected(feed[..|feed| - 1], inFlight);
      assert feed == feed[..|feed| - 1] + [last];
      if Selectable(last, inFlight) then rest + [last] else rest
  }

  /** A scan that looks at one more request picks it or not, and nothing else changes. */
  lemma SelectedStep(feed: seq<PickupRequest>, i: nat, inFlight: set<string>)
    requires i < |feed|
    ensures Selected(feed[..i + 1], inFlight) ==
      Selected(feed[..i], inFlight) + (if Selectable(feed[i], inFlight) then [feed[i]] else [])
  {
    assert feed[..i + 1][..i] == feed[..i];
  }

  /** The speech service: the payload it returns for the three arguments
      the dashboard passes it, or `None` when it yields nothing. */
  type Speech = (string, string, string) -> Option<string>

  /** What `playAndCacheAudio` does with a request: skip it, or announce it,
      caching newly generated audio and playing audio when not muted. */
  datatype Plan = Skip | Announce(cache: Option<string>, play: Option<string>)

  function PlanFor(req: PickupRequest, students: seq<Student>, parents: seq<Parent>,
                   isMuted: bool, speak: Speech): (p: Plan)
    // without cached audio, a missing student or parent stops everything
    ensures p.Skip? <==> (!Truthy(req.audioBase64) &&
      (StudentWithId(students, req.studentId).None? || ParentWithId(parents, req.parentId).None?))
    // only generated, non-empty audio is cached, and only when none was cached before
    ensures p.Announce? && p.cache.Some? ==> !Truthy(req.audioBase64) && p.cache.value != ""
    ensures p.Announce? && Truthy(req.audioBase64) ==> p.cache.None?
    ensures p.Announce? && !Truthy(req.audioBase64) ==>
      var s := students[StudentWithId(students, req.studentId).value];
      var a := speak(s.name, parents[ParentWithId(parents, req.parentId).value].name, s.classroom);
      p.cache == (if Truthy(a) then a else None)
    // audio is played exactly when some is available and sound is on
    ensures p.Announce? && p.play.Some? ==> !isMuted && p.play.value != ""
    ensures p.Announce? && !isMuted && Truthy(req.audioBase64) ==> p.play == req.audioBase64
    ensures p.Announce? && !isMuted && p.cache.Some? ==> p.play == p.cache
    ensures p.Announce? ==>
      p.play == (if isMuted then None else if Truthy(req.audioBase64) then req.audioBase64 else p.cache)
  {
    if Truthy(req.audioBase64) then
      Announce(None, if isMuted then None else req.audioBase64)
    else
      match StudentWithId(students, req.studentId)
      case None => Skip
      case Some(s) =>
        match ParentWithId(parents, req.parentId)
        case None => Skip
        case Some(q) =>
          var audio := speak(students[s].name, parents[q].name, students[s].classroom);
          var cache := if Truthy(audio) then audio else None;
          Announce(cache, if isMuted then None else cache)
  }

  /** The queue after carrying out a plan for `req`. */
  function AfterAnnouncement(queue: seq<PickupRequest>, req: PickupRequest, plan: Plan): (r: seq<PickupRequest>)
    ensures plan.Skip? ==> r == queue
    ensures plan.Announce? ==> |r| == |queue|
    ensures plan.Announce? ==> forall i :: 0 <= i < |queue| && queue[i].id == req.id ==> Announced(r[i])
    ensures plan.Announce? ==> forall i :: 0 <= i < |queue| && queue[i].id != req.id ==> r[i] == queue[i]
    ensures plan.Announce? ==> forall i :: 0 <= i < |queue| && queue[i].id == req.id ==>
      r[i].audioBase64 == (if plan.cache.Some? then plan.cache else queue[i].audioBase64)
    // an announced row keeps its status, chat, timestamps, text and ids
    ensures plan.Announce? ==> forall i :: 0 <= i < |queue| && queue[i].id == req.id ==>
      r[i] == queue[i].(audioBase64 := if plan.cache.Some? then plan.cache else queue[i].audioBase64,
                        hasAnnounced := Some(true))
  {
    match plan
    case Skip => queue
    case Announce(cache, _) =>
      var q := if cache.Some? then WithAudio(queue, req.id, cache.value) else queue;
      WithAnnounced(q, req.id)
  }

  /** Muting changes only whether audio plays: the request is marked, and
      audio cached, exactly as it would be with sound on. */
  lemma MuteDoesNotChangeQueue(queue: seq<PickupRequest>, req: PickupRequest, students: seq<Student>,
                               parents: seq<Parent>, speak: Speech)
    ensures AfterAnnouncement(queue, req, PlanFor(req, students, parents, true, speak))
         == AfterAnnouncement(queue, req, PlanFor(req, students, parents, false, speak))
    ensures PlanFor(req, students, parents, true, speak).Announce? ==>
      PlanFor(req, students, parents, true, speak).play.None?
  {
  }

  /** Once announced, no request with that id is picked by a later scan,
      whatever is in flight: announcing cannot loop. */
  lemma AnnouncedIsNotReselected(queue: seq<PickupRequest>, req: PickupRequest, plan: Plan,
                                 students: seq<Student>, filter: string, inFlight: set<string>)
    requires plan.Announce?
    ensures forall x :: (x in Selected(ActiveRequests(AfterAnnouncement(queue, req, plan), students, filter), inFlight)
      ==> x.id != req.id)
  {
    var r := AfterAnnouncement(queue, req, plan);
    forall x | x in Selected(ActiveRequests(r, students, filter), inFlight)
      ensures x.id != req.id
    {
      assert x in r;
      var i :| 0 <= i < |r| && r[i] == x;
      assert Announced(r[i]) || queue[i].id != req.id;
    }
  }

  /** The effect on the queue of announcing `reqs` one after the other. */
  function AnnounceAll(queue: seq<PickupRequest>, reqs: seq<PickupRequest>, students: seq<Student>,
                       parents: seq<Parent>, isMuted: bool, speak: Speech): seq<PickupRequest>
  {
    if reqs == [] then queue
    else
      var last := reqs[|reqs| - 1];
      AfterAnnouncement(AnnounceAll(queue, reqs[..|reqs| - 1], students, parents, isMuted, speak),
                        last, PlanFor(last, students, parents, isMuted, speak))
  }

  lemma AnnounceAllStep(queue: seq<PickupRequest>, reqs: seq<PickupRequest>, req: PickupRequest,
                        students: seq<Student>, parents: seq<Parent>, isMuted: bool, speak: Speech)
    ensures AnnounceAll(queue, reqs + [req], students, parents, isMuted, speak)
         == AfterAnnouncement(AnnounceAll(queue, reqs, students, parents, isMuted, speak), req,
                              PlanFor(req, students, parents, isMuted, speak))
  {
    assert (reqs + [req])[..|reqs|] == reqs;
  }

  /** `playAndCacheAudio`; returns the payload handed to the player, if any. */
  method PlayAndCacheAudio(store: AppStore, req: PickupRequest, speak: Speech) returns (played: Option<string>)
    modifies store`pickupQueue
    ensures var plan := PlanFor(req, store.students, store.parents, store.isMuted, speak);
      store.pickupQueue == AfterAnnouncement(old(store.pickupQueue), req, plan) &&
      played == (if plan.Announce? then plan.play else None)
    ensures store.isMuted ==> played.None?
    ensures played.Some? ==> played.value != ""
    ensures !store.isMuted && Truthy(req.audioBase64) ==> played == req.audioBase64
    ensures forall i :: 0 <= i < |old(store.pickupQueue)| && old(store.pickupQueue)[i].id == req.id ==>
      store.pickupQueue[i].status == old(store.pickupQueue)[i].status &&
      store.pickupQueue[i].chatHistory == old(store.pickupQueue)[i].chatHistory
  {
    played := None;
    var audio := req.audioBase64;
    if !Truthy(audio) {
      var s := StudentWithId(store.students, req.studentId);
      var p := ParentWithId(store.parents, req.parentId);
      if s.None? || p.None? {
        return;
      }
      audio := speak(store.students[s.value].name, store.parents[p.value].name, store.students[s.value].classroom);
      if Truthy(audio) {
        store.SetAudioAnnouncement(req.id, audio.value);
      }
    }
    if Truthy(audio) && !store.isMuted {
      played := audio;
    }
    store.MarkAsAnnounced(req.id);
  }

  /** The dashboard's announcement state: `processingRef` and `processingId`. */
  class Announcer {
    var processing: set<string>
    var processingId: Option<string>

    constructor ()
      ensures processing == {} && processingId == None
    {
      processing := {};
      processingId := None;
    }

    /** The check and claim at the head of the scan's loop body: a selectable
        request's id goes into the in-flight set, after which no scan can
        select any request with that id. */
    method Claim(req: PickupRequest) returns (claimed: bool)
      modifies this
      ensures claimed == Selectable(req, old(processing))
      ensures claimed ==> processing == old(processing) + {req.id} && processingId == Some(req.id)
      ensures claimed ==> forall r: PickupRequest :: r.id == req.id ==> !Selectable(r, processing)
      ensures !claimed ==> processing == old(processing) && processingId == old(processingId)
    {
      claimed := req.status == Arrived && !Announced(req) && req.id !in processing;
      if claimed {
        processing := processing + {req.id};
        processingId := Some(req.id);
      }
    }

    /** The end of an announcement: the id leaves the in-flight set. */
    method Release(req: PickupRequest)
      modifies this
      ensures processing == old(processing) - {req.id} && processingId == None
    {
      processingId := None;
      processing := processing - {req.id};
    }

    /** One pass of the scan's loop body: claim the request if it is
        selectable, announce it, and release it. */
    method AnnounceIfSelectable(store: AppStore, req: PickupRequest, speak: Speech) returns (claimed: bool)
      modifies this, store`pickupQueue
      ensures claimed == Selectable(req, old(processing))
      ensures processing == old(processing)
      ensures processingId == if claimed then None else old(processingId)
      ensures store.pickupQueue == if claimed
        then AfterAnnouncement(old(store.pickupQueue), req,
                               PlanFor(req, store.students, store.parents, store.isMuted, speak))
        else old(store.pickupQueue)
    {
      claimed := Claim(req);
      if claimed {
        var _ := PlayAndCacheAudio(store, req, speak);
        Release(req);
      }
    }

    /** `checkAndAnnounce`: announces, one after the other, exactly the
        requests of the feed that are selectable when the scan starts, and
        leaves the in-flight set as it found it. */
    method CheckAndAnnounce(store: AppStore, feed: seq<PickupRequest>, speak: Speech)
      returns (announced: seq<PickupRequest>)
      modifies this, store`pickupQueue
      ensures announced == Selected(feed, old(processing))
      ensures processing == old(processing)
      ensures processingId == if announced == [] then old(processingId) else None
      ensures store.pickupQueue ==
        AnnounceAll(old(store.pickupQueue), announced, store.students, store.parents, store.isMuted, speak)
    {
      announced := [];
      ghost var q0 := store.pickupQueue;
      ghost var sel := old(processing);
      var i := 0;
      while i < |feed|
        invariant 0 <= i <= |feed|
        invariant announced == Selected(feed[..i], sel)
        invariant processing == sel
        invariant processingId == if announced == [] then old(processingId) else None
        invariant store.pickupQueue == AnnounceAll(q0, announced, store.students, store.parents, store.isMuted, speak)
      {
        var req := feed[i];
        SelectedStep(feed, i, sel);
        var claimed := AnnounceIfSelectable(store, req, speak);
        if claimed {
          AnnounceAllStep(q0, announced, req, store.students, store.parents, store.isMuted, speak);
          announced := announced + [req];
        }
        i := i + 1;
      }
      assert feed[..|feed|] == feed;
    }

    /** `handleManualAnnounce`: ignored while the request is in flight;
        otherwise it announces the request without entering it in the
        in-flight set. */
    method ManualAnnounce(store: AppStore, req: PickupRequest, speak: Speech) returns (ran: bool)
      modifies this`processingId, store`pickupQueue
      ensures ran == (req.id !in processing)
      ensures ran ==> (processingId == None &&
        store.pickupQueue == AfterAnnouncement(old(store.pickupQueue), req,
                                               PlanFor(req, store.students, store.parents, store.isMuted, speak)))
      ensures !ran ==> processingId == old(processingId) && store.pickupQueue == old(store.pickupQueue)
    {
      ran := req.id !in processing;
      if !ran {
        return;
      }
      processingId := Some(req.id);
      var _ := PlayAndCacheAudio(store, req, speak);
      processingId := None;
    }
  }

  // ---------------------------------------------------------------------------
  // The demo family on the dashboard

  /** A one-request queue lists its request exactly when it is shown. */
  lemma ActiveSingleton(r: PickupRequest, students: seq<Student>, filter: string)
    ensures ActiveRequests([r], students, filter) == if Shown(students, filter, r) then [r] else []
  {
    assert [r][1..] == [];
  }

  /** A scan of a one-request feed picks it exactly when it is selectable. */
  lemma SelectedSingleton(r: PickupRequest, inFlight: set<string>)
    ensures Selected([r], inFlight) == if Selectable(r, inFlight) then [r] else []
  {
    assert [r][..0] == [];
  }

  /** Salle 1's tab lists Leo's request as soon as it is on the way, but no
      scan announces it yet. */
  lemma LeoListedOnTheWay(r: PickupRequest)
    requires r.studentId == "s1" && r.status == OnWay
    ensures ActiveRequests([r], MockStudents, "Salle 1") == [r]
    ensures Selected(ActiveRequests([r], MockStudents, AllRooms), {}) == []
  {
    assert StudentWithId(MockStudents, "s1") == Some(0);
    ActiveSingleton(r, MockStudents, "Salle 1");
    ActiveSingleton(r, MockStudents, AllRooms);
    SelectedSingleton(r, {});
  }

  /** A scan of the ALL tab picks Leo's arrived, unannounced request. */
  lemma LeoArrivedIsSelected(r: PickupRequest)
    requires r.studentId == "s1" && r.status == Arrived && !Announced(r)
    ensures Selected(ActiveRequests([r], MockStudents, AllRooms), {}) == [r]
  {
    ActiveSingleton(r, MockStudents, AllRooms);
    SelectedSingleton(r, {});
  }

  /** Leo's request always has a student and a parent to name, so the
      announcement is never skipped, and `AnnouncedIsNotReselected` then
      applies to it. */
  lemma LeoIsAnnounced(r: PickupRequest, isMuted: bool, speak: Speech)
    requires r.studentId == "s1" && r.parentId == "p1"
    ensures PlanFor(r, MockStudents, MockParents, isMuted, speak).Announce?
  {
    assert StudentWithId(MockStudents, "s1") == Some(0);
    assert ParentWithId(MockParents, "p1") == Some(0);
  }
}
