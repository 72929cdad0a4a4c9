/**
 The request handlers that change or summarise the attendance tables
 (attendance_app/views.py): the code check-in of `mark_attendance`, the faculty's
 `activate_code`, `complete_class` and `regenerate_code`, the tally of
 `api_attendance_chart`, and the attendance rate of the student dashboard.

 A request is reduced to what the handler reads: the signed-in user, the submitted
 text, the current time and the two address headers. Rendering, redirects and
 flash messages are not modelled; each handler returns which of its outcomes it took.
 */
module Views {
  import opened Basics
  import opened Models
  import opened Forms
  import opened AiService

  // ---------------------------------------------------------------------------
  // mark_attendance
  // ---------------------------------------------------------------------------

  /** The outcomes of a submitted check-in, in the order the handler tests for them. */
  datatype CheckIn =
    | NoProfile               // get_object_or_404 on the profile
    | NotStudent              // "Only students can mark attendance."
    | BadForm(error: CodeError)
    | InvalidCode             // no session holds the code
    | NotEnrolled
    | NotActive               // the session's code is not valid now
    | AlreadyMarked
    | Marked(session: SessionId)

  /** `makeup.course.students.filter(pk=user).exists()` */
  predicate Enrolled(courses: map<CourseId, Course>, s: Session, user: UserId) {
    s.course in courses && user in courses[s.course].students
  }

  /** The outcome `mark_attendance` reaches for a POSTed code, before anything is written. */
  function CheckInOutcome(
    sessions: seq<Session>, courses: map<CourseId, Course>, profiles: map<UserId, Role>,
    records: seq<AttendanceRecord>, user: UserId, raw: string, now: Timestamp): (o: CheckIn)
    ensures o.Marked? ==>
      && o.session < |sessions|
      && user in profiles && profiles[user] == Student
      && Enrolled(courses, sessions[o.session], user)
      && IsCodeValid(sessions[o.session], now)
      && !HasRecord(records, o.session, user)
  {
    if user !in profiles then NoProfile
    else if profiles[user] != Student then NotStudent
    else match CleanRemedialCode(raw)
      case Err(e) => BadForm(e)
      case Ok(code) =>
        match FindByCode(sessions, code)
        case None => InvalidCode
        case Some(id) =>
          if !Enrolled(courses, sessions[id], user) then NotEnrolled
          else if !IsCodeValid(sessions[id], now) then NotActive
          else if HasRecord(records, id, user) then AlreadyMarked
          else Marked(id)
  }

  /** A successful check-in is for the session whose code is the normal form of the submitted text. */
  lemma MarkedCodeMatches(
    sessions: seq<Session>, courses: map<CourseId, Course>, profiles: map<UserId, Role>,
    records: seq<AttendanceRecord>, user: UserId, raw: string, now: Timestamp)
    requires CheckInOutcome(sessions, courses, profiles, records, user, raw, now).Marked?
    ensures var id := CheckInOutcome(sessions, courses, profiles, records, user, raw, now).session;
      sessions[id].code == Normalize(raw)
  {
    CleanedCodeIsNormalized(raw);
  }

  /** The first comma-separated field of a header: `header.split(',')[0]`. */
  function FirstField(header: string): (f: string)
    ensures f <= header
    ensures ',' !in f
    ensures |f| < |header| ==> header[|f|] == ','
  {
    if header == [] || header[0] == ',' then []
    else [header[0]] + FirstField(header[1..])
  }

  /**
   The client address recorded with a check-in: the first field of X-Forwarded-For when
   that header is present and non-empty, otherwise REMOTE_ADDR.
   */
  function ClientIp(forwarded: Option<string>, remote: Option<string>): (ip: Option<string>)
    ensures forwarded.Some? && forwarded.value != [] ==>
              && ip.Some? && ip.value <= forwarded.value && ',' !in ip.value
              && (|ip.value| < |forwarded.value| ==> forwarded.value[|ip.value|] == ',')
    ensures forwarded.None? || forwarded.value == [] ==> ip == remote
  {
    if forwarded.Some? && forwarded.value != [] then Some(FirstField(forwarded.value)) else remote
  }

  /** Adding a first record of a student for a stored session, and a notification about it, keeps the tables consistent. */
  lemma MarkKeepsConsistent(
    sessions: seq<Session>, courses: map<CourseId, Course>, records: seq<AttendanceRecord>,
    notifications: seq<Notification>, record: AttendanceRecord, notice: Notification)
    requires Consistent(sessions, courses, records, notifications)
    requires record.session < |sessions| && !HasRecord(records, record.session, record.student)
    requires notice.related == Some(record.session)
    ensures Consistent(sessions, courses, records + [record], notifications + [notice])
  {
    var records' := records + [record];
    forall i, j | 0 <= i < j < |records'|
      ensures records'[i].session != records'[j].session || records'[i].student != records'[j].student
    {
      if j == |records| {
        assert records'[i] == records[i];
      }
    }
  }

  /**
   `mark_attendance` on a POST. Every outcome but success leaves the tables as they were;
   success adds one present record, verified by code, and one notification to the
   session's faculty.
   */
  method MarkAttendance(
    db: Database, user: UserId, raw: string, now: Timestamp,
    forwarded: Option<string>, remote: Option<string>) returns (o: CheckIn)
    requires db.Valid()
    modifies db
    ensures db.Valid()
    ensures o == CheckInOutcome(old(db.sessions), old(db.courses), old(db.profiles), old(db.records), user, raw, now)
    ensures db.sessions == old(db.sessions) && db.courses == old(db.courses) && db.profiles == old(db.profiles)
    ensures !o.Marked? ==> db.records == old(db.records) && db.notifications == old(db.notifications)
    ensures o.Marked? ==>
      && db.records == old(db.records) + [AttendanceRecord(o.session, user, true, ByCode, ClientIp(forwarded, remote))]
      && db.notifications == old(db.notifications)
                             + [Notification(db.sessions[o.session].faculty, AttendanceMarked, Some(o.session), false)]
  {
    o := CheckInOutcome(db.sessions, db.courses, db.profiles, db.records, user, raw, now);
    if o.Marked? {
      var id := o.session;
      var record := AttendanceRecord(id, user, true, ByCode, ClientIp(forwarded, remote));
      var notice := Notification(db.sessions[id].faculty, AttendanceMarked, Some(id), false);
      MarkKeepsConsistent(db.sessions, db.courses, db.records, db.notifications, record, notice);
      db.records := db.records + [record];
      db.notifications := db.notifications + [notice];
    }
  }

  /**
   A student who types a stored code, in any mix of cases and with any surrounding
   whitespace, while the code is valid, is marked present for that session unless
   already marked or not enrolled; and enrolment is tested before validity and
   validity before the earlier record.
   */
  lemma {:induction false} TypedCodeLadder(
    sessions: seq<Session>, courses: map<CourseId, Course>, profiles: map<UserId, Role>,
    records: seq<AttendanceRecord>, user: UserId, now: Timestamp,
    id: SessionId, typed: string, w1: string, w2: string)
    requires CodesUnique(sessions)
    requires user in profiles && profiles[user] == Student
    requires id < |sessions| && IsRemedialCode(sessions[id].code)
    requires AllSpace(w1) && AllSpace(w2)
    requires |typed| == |sessions[id].code|
    requires forall i :: 0 <= i < |typed| ==> UpperChar(typed[i]) == sessions[id].code[i]
    ensures var o := CheckInOutcome(sessions, courses, profiles, records, user, w1 + typed + w2, now);
      && (o == NotEnrolled <==> !Enrolled(courses, sessions[id], user))
      && (o == NotActive <==> Enrolled(courses, sessions[id], user) && !IsCodeValid(sessions[id], now))
      && (o == AlreadyMarked <==> Enrolled(courses, sessions[id], user) && IsCodeValid(sessions[id], now)
                                  && HasRecord(records, id, user))
      && (o == Marked(id) <==> Enrolled(courses, sessions[id], user) && IsCodeValid(sessions[id], now)
                               && !HasRecord(records, id, user))
  {
    TypedCodeAccepted(sessions[id].code, typed, w1, w2);
    FindByCodeUnique(sessions, sessions[id].code, id);
  }

  /** A code that no session holds is answered with the invalid-code error, whatever else holds. */
  lemma UnknownCodeIsInvalid(
    sessions: seq<Session>, courses: map<CourseId, Course>, profiles: map<UserId, Role>,
    records: seq<AttendanceRecord>, user: UserId, raw: string, now: Timestamp)
    requires user in profiles && profiles[user] == Student
    requires CleanRemedialCode(raw).Ok?
    requires forall i :: 0 <= i < |sessions| ==> sessions[i].code != Normalize(raw)
    ensures CheckInOutcome(sessions, courses, profiles, records, user, raw, now) == InvalidCode
  {
    CleanedCodeIsNormalized(raw);
  }

  /** The role gate comes before any lookup: a user without a profile, or a faculty member, is turned away whatever was typed. */
  lemma RoleGateFirst(
    sessions: seq<Session>, courses: map<CourseId, Course>, profiles: map<UserId, Role>,
    records: seq<AttendanceRecord>, user: UserId, raw: string, now: Timestamp)
    ensures user !in profiles ==> CheckInOutcome(sessions, courses, profiles, records, user, raw, now) == NoProfile
    ensures user in profiles && profiles[user] == Faculty ==>
              CheckInOutcome(sessions, courses, profiles, records, user, raw, now) == NotStudent
  {
  }

  /**
   Once a check-in has succeeded, no later check-in of the same student, with any text at
   any time, is marked for that session again.
   */
  lemma MarkedOnce(
    sessions: seq<Session>, courses: map<CourseId, Course>, profiles: map<UserId, Role>,
    records: seq<AttendanceRecord>, user: UserId, raw: string, now: Timestamp,
    ip: Option<string>, raw': string, now': Timestamp)
    requires CheckInOutcome(sessions, courses, profiles, records, user, raw, now).Marked?
    ensures var id := CheckInOutcome(sessions, courses, profiles, records, user, raw, now).session;
      var records' := records + [AttendanceRecord(id, user, true, ByCode, ip)];
      && AttendanceCount(records', id) == AttendanceCount(records, id) + 1
      && CheckInOutcome(sessions, courses, profiles, records', user, raw', now') != Marked(id)
  {
    var id := CheckInOutcome(sessions, courses, profiles, records, user, raw, now).session;
    var records' := records + [AttendanceRecord(id, user, true, ByCode, ip)];
    AttendanceCountAppend(records, AttendanceRecord(id, user, true, ByCode, ip), id);
    assert records'[|records|].session == id && records'[|records|].student == user;
    assert HasRecord(records', id, user);
  }

  // ---------------------------------------------------------------------------
  // activate_code, complete_class, regenerate_code
  // ---------------------------------------------------------------------------

  /** What a faculty action on a session answered. */
  datatype Outcome =
    | NotFound    // a 404: no profile, or no session with this key taught by the user
    | Forbidden   // the 403 of regenerate_code for a non-faculty user
    | Conflict    // the unique constraint refused the new code
    | Done

  /** `get_object_or_404(MakeUpClass, pk=id, faculty=user)` finds the session. */
  predicate Owns(sessions: seq<Session>, id: SessionId, user: UserId) {
    id < |sessions| && sessions[id].faculty == user
  }

  /** A stored session keeps its own code when saved again: the unique constraint cannot refuse it. */
  lemma OwnCodeIsFree(sessions: seq<Session>, id: SessionId)
    requires CodesUnique(sessions) && id < |sessions|
    ensures !CodeTaken(sessions, sessions[id].code, id)
  {
    forall j | 0 <= j < |sessions| && j != id
      ensures sessions[j].code != sessions[id].code
    {
      if j < id {
        assert sessions[j].code != sessions[id].code;
      }
    }
  }

  /**
   Writes a new status into a session the user teaches and saves it. The expiry is
   already set, so saving keeps it; the status is overwritten whatever it was.
   */
  method SetStatus(db: Database, user: UserId, id: SessionId, status: Status) returns (o: Outcome)
    requires db.Valid()
    modifies db
    ensures db.Valid()
    ensures o == (if Owns(old(db.sessions), id, user) then Done else NotFound)
    ensures db.sessions == if o == Done then old(db.sessions)[id := old(db.sessions)[id].(status := status)]
                           else old(db.sessions)
    ensures db.courses == old(db.courses) && db.profiles == old(db.profiles)
    ensures db.records == old(db.records) && db.notifications == old(db.notifications)
  {
    if !Owns(db.sessions, id, user) {
      return NotFound;
    }
    var makeup := db.sessions[id].(status := status);
    OwnCodeIsFree(db.sessions, id);
    var saved := db.Update(id, makeup);
    assert saved;
    o := Done;
  }

  /**
   `activate_code`: the session becomes active, keeping its expiry, and every enrolled
   student is sent a "code generated" notification.
   */
  method ActivateCode(db: Database, user: UserId, id: SessionId) returns (o: Outcome, notified: nat)
    requires db.Valid()
    modifies db
    ensures db.Valid()
    ensures o == (if Owns(old(db.sessions), id, user) then Done else NotFound)
    ensures db.courses == old(db.courses) && db.profiles == old(db.profiles) && db.records == old(db.records)
    ensures o == NotFound ==> db.sessions == old(db.sessions) && db.notifications == old(db.notifications)
    ensures o == Done ==>
      && db.sessions == old(db.sessions)[id := old(db.sessions)[id].(status := Active)]
      && notified == |db.courses[db.sessions[id].course].students|
      && Announced(old(db.notifications), db.notifications, db.courses[db.sessions[id].course].students,
                   CodeGenerated, id)
  {
    notified := 0;
    o := SetStatus(db, user, id, Active);
    if o == Done {
      notified := SendCodeNotification(db, id);
    }
  }

  /** `complete_class`: the session becomes completed; nothing else changes. */
  method CompleteClass(db: Database, user: UserId, id: SessionId) returns (o: Outcome)
    requires db.Valid()
    modifies db
    ensures db.Valid()
    ensures o == (if Owns(old(db.sessions), id, user) then Done else NotFound)
    ensures db.sessions == if o == Done then old(db.sessions)[id := old(db.sessions)[id].(status := Completed)]
                           else old(db.sessions)
    ensures db.courses == old(db.courses) && db.profiles == old(db.profiles)
    ensures db.records == old(db.records) && db.notifications == old(db.notifications)
  {
    o := SetStatus(db, user, id, Completed);
  }

  /**
   `regenerate_code`: a faculty member replaces the code of a session they teach by a
   freshly drawn one. Only the code changes; a draw that collides with another
   session's code is refused by the unique constraint and nothing is written.
   */
  method RegenerateCode(db: Database, user: UserId, id: SessionId, draws: seq<nat>) returns (o: Outcome)
    requires db.Valid() && IsDraws(draws)
    modifies db
    ensures db.Valid()
    ensures o == NotFound <==> user !in old(db.profiles)
                               || (old(db.profiles)[user] == Faculty && !Owns(old(db.sessions), id, user))
    ensures o == Forbidden <==> user in old(db.profiles) && old(db.profiles)[user] != Faculty
    ensures o == Conflict <==> user in old(db.profiles) && old(db.profiles)[user] == Faculty
                               && Owns(old(db.sessions), id, user)
                               && CodeTaken(old(db.sessions), GenerateRemedialCode(draws), id)
    ensures db.sessions == if o == Done then old(db.sessions)[id := old(db.sessions)[id].(code := GenerateRemedialCode(draws))]
                           else old(db.sessions)
    ensures db.courses == old(db.courses) && db.profiles == old(db.profiles)
    ensures db.records == old(db.records) && db.notifications == old(db.notifications)
  {
    if user !in db.profiles {
      return NotFound;
    }
    if db.profiles[user] != Faculty {
      return Forbidden;
    }
    if !Owns(db.sessions, id, user) {
      return NotFound;
    }
    var makeup := db.sessions[id].(code := GenerateRemedialCode(draws));
    var saved := db.Update(id, makeup);
    o := if saved then Done else Conflict;
  }

  /**
   Activating a session makes its code acceptable exactly until the expiry it already
   had: an enrolled student without a record who types the code is marked present
   before that instant and turned away as not active from it on.
   */
  lemma {:induction false} ActivatedCodeWindow(
    sessions: seq<Session>, courses: map<CourseId, Course>, profiles: map<UserId, Role>,
    records: seq<AttendanceRecord>, user: UserId, now: Timestamp, id: SessionId)
    requires CodesUnique(sessions) && ExpiriesSet(sessions)
    requires id < |sessions| && IsRemedialCode(sessions[id].code)
    requires user in profiles && profiles[user] == Student
    requires Enrolled(courses, sessions[id], user) && !HasRecord(records, id, user)
    ensures var activated := sessions[id := sessions[id].(status := Active)];
      var o := CheckInOutcome(activated, courses, profiles, records, user, sessions[id].code, now);
      && (o == Marked(id) <==> now < sessions[id].expiry.value)
      && (o == NotActive <==> sessions[id].expiry.value <= now)
  {
    var activated := sessions[id := sessions[id].(status := Active)];
    var code := sessions[id].code;
    StatusWriteKeepsCodes(sessions, id, Active);
    assert activated[id].code == code && activated[id].expiry == sessions[id].expiry;
    assert IsCodeValid(activated[id], now) <==> now < sessions[id].expiry.value;
    assert Enrolled(courses, activated[id], user);
    assert [] + code + [] == code;
    assert forall i :: 0 <= i < |code| ==> UpperChar(code[i]) == code[i];
    TypedCodeLadder(activated, courses, profiles, records, user, now, id, code, [], []);
  }

  /** Writing a session's status leaves every code where it was, so the codes stay unique. */
  lemma StatusWriteKeepsCodes(sessions: seq<Session>, id: SessionId, status: Status)
    requires CodesUnique(sessions) && id < |sessions|
    ensures CodesUnique(sessions[id := sessions[id].(status := status)])
  {
    var written := sessions[id := sessions[id].(status := status)];
    forall i, j | 0 <= i < j < |written|
      ensures written[i].code != written[j].code
    {
      assert written[i].code == sessions[i].code && written[j].code == sessions[j].code;
    }
  }

  // ---------------------------------------------------------------------------
  // api_attendance_chart and the student dashboard
  // ---------------------------------------------------------------------------

  /** `part / whole * 100` guarded against an empty whole, as both views compute it. */
  function Percentage(part: nat, whole: nat): (rate: real)
    ensures whole == 0 ==> rate == 0.0
    ensures whole > 0 ==> rate * whole as real == 100.0 * part as real
    ensures part <= whole ==> 0.0 <= rate <= 100.0
  {
    if whole == 0 then 0.0
    else
      var q := part as real / whole as real;
      assert q * whole as real == part as real;
      MulNonNegative(q, 100.0);
      if part <= whole then MulMonotone(q, 1.0, 100.0); q * 100.0 else q * 100.0
  }

  datatype Chart = Chart(present: nat, absent: nat, enrolled: nat, rate: real)

  /**
   `api_attendance_chart`: the session's present records against its course's
   enrolment, with the absentees clamped at zero. An unknown session is a 404 (None).
   */
  function AttendanceChart(sessions: seq<Session>, courses: map<CourseId, Course>,
                           records: seq<AttendanceRecord>, id: SessionId): (r: Option<Chart>)
    ensures r.None? <==> id >= |sessions|
    ensures r.Some? ==>
      && r.value.present == AttendanceCount(records, id)
      && r.value.enrolled == (if sessions[id].course in courses then |courses[sessions[id].course].students| else 0)
      && r.value.present + r.value.absent == (if r.value.present < r.value.enrolled then r.value.enrolled else r.value.present)
      && (r.value.absent == 0 <==> r.value.present >= r.value.enrolled)
      && r.value.rate == Percentage(r.value.present, r.value.enrolled)
  {
    if id >= |sessions| then None
    else
      var present := AttendanceCount(records, id);
      var course := sessions[id].course;
      var enrolled := if course in courses then |courses[course].students| else 0;
      var absent := enrolled - present;
      Some(Chart(present, if absent > 0 then absent else 0, enrolled, Percentage(present, enrolled)))
  }

  /** A session counts toward a student's possible attendance when it is completed and in an enrolled course. */
  predicate CountsToward(sessions: seq<Session>, courses: map<CourseId, Course>, id: SessionId, user: UserId) {
    id < |sessions| && sessions[id].status == Completed && Enrolled(courses, sessions[id], user)
  }

  /** The completed sessions of the student's courses: `total_possible` is their number. */
  function PossibleSessions(sessions: seq<Session>, courses: map<CourseId, Course>, user: UserId): (s: set<SessionId>)
    ensures forall id :: id in s <==> CountsToward(sessions, courses, id, user)
  {
    set id | 0 <= id < |sessions| && CountsToward(sessions, courses, id, user)
  }

  /** `my_attendance` as the dashboard counts it: every present record of the student. */
  function PresentRecords(records: seq<AttendanceRecord>, user: UserId): (n: nat)
    ensures n <= |records|
  {
    if records == [] then 0
    else
      var last := records[|records| - 1];
      PresentRecords(records[..|records| - 1], user) + (if last.student == user && last.present then 1 else 0)
  }

  /** The dashboard's attendance rate, as written. */
  function DashboardRate(sessions: seq<Session>, courses: map<CourseId, Course>,
                         records: seq<AttendanceRecord>, user: UserId): (rate: real)
    ensures PossibleSessions(sessions, courses, user) == {} ==> rate == 0.0
    ensures 0.0 <= rate
  {
    Percentage(PresentRecords(records, user), |PossibleSessions(sessions, courses, user)|)
  }

  /**
   The rate as written can exceed 100%: a student enrolled in one course who checked in
   to a session since completed and to a session still active has two present records
   against one completed session, and is shown 200%.
   */
  lemma DashboardRateExceedsHundred()
    ensures var sessions := [
        Session(0, 1, 739000, 32400, 37800, "AAAAAAAA", Some(63849603600), Completed),
        Session(0, 1, 739001, 32400, 37800, "BBBBBBBB", Some(63849690000), Active)];
      var courses := map[0 := Course(Some(1), {7})];
      var records := [AttendanceRecord(0, 7, true, ByCode, None), AttendanceRecord(1, 7, true, ByCode, None)];
      && Consistent(sessions, courses, records, [])
      && DashboardRate(sessions, courses, records, 7) == 200.0
  {
    var sessions := [
        Session(0, 1, 739000, 32400, 37800, "AAAAAAAA", Some(63849603600), Completed),
        Session(0, 1, 739001, 32400, 37800, "BBBBBBBB", Some(63849690000), Active)];
    var courses := map[0 := Course(Some(1), {7})];
    var records := [AttendanceRecord(0, 7, true, ByCode, None), AttendanceRecord(1, 7, true, ByCode, None)];
    assert PossibleSessions(sessions, courses, 7) == {0};
    assert records[..1][..0] == [];
    assert PresentRecords(records, 7) == 2;
  }

  /** Present records of the student whose session counts toward the total: the corrected `my_attendance`. */
  function CountedRecords(sessions: seq<Session>, courses: map<CourseId, Course>,
                          records: seq<AttendanceRecord>, user: UserId): (n: nat)
    ensures n <= PresentRecords(records, user)
  {
    if records == [] then 0
    else
      var last := records[|records| - 1];
      CountedRecords(sessions, courses, records[..|records| - 1], user)
        + (if last.student == user && last.present && CountsToward(sessions, courses, last.session, user) then 1 else 0)
  }

  /** The sessions of the records CountedRecords counts. */
  ghost function CountedSessions(sessions: seq<Session>, courses: map<CourseId, Course>,
                                 records: seq<AttendanceRecord>, user: UserId): (s: set<SessionId>)
    ensures s <= PossibleSessions(sessions, courses, user)
  {
    if records == [] then {}
    else
      var last := records[|records| - 1];
      CountedSessions(sessions, courses, records[..|records| - 1], user)
        + (if last.student == user && last.present && CountsToward(sessions, courses, last.session, user)
           then {last.session} else {})
  }

  /** Dropping the last record keeps the records unique, and the last one had no earlier twin. */
  lemma UniqueFront(records: seq<AttendanceRecord>)
    requires RecordsUnique(records) && records != []
    ensures var n := |records| - 1;
      RecordsUnique(records[..n]) && !HasRecord(records[..n], records[n].session, records[n].student)
  {
    var n := |records| - 1;
    var front := records[..n];
    assert forall k :: 0 <= k < n ==> front[k] == records[k];
  }

  /** A record of the front is a record of the whole table. */
  lemma HasRecordFront(records: seq<AttendanceRecord>, id: SessionId, user: UserId)
    requires records != [] && HasRecord(records[..|records| - 1], id, user)
    ensures HasRecord(records, id, user)
  {
    var front := records[..|records| - 1];
    var k :| 0 <= k < |front| && front[k].session == id && front[k].student == user;
    assert records[k] == front[k];
  }

  /** Under the one-record-per-student-and-session constraint, counting records is counting sessions. */
  lemma {:induction false} CountedRecordsAreSessions(sessions: seq<Session>, courses: map<CourseId, Course>,
                                                   records: seq<AttendanceRecord>, user: UserId)
    requires RecordsUnique(records)
    ensures CountedRecords(sessions, courses, records, user) == |CountedSessions(sessions, courses, records, user)|
    ensures forall id :: id in CountedSessions(sessions, courses, records, user) ==> HasRecord(records, id, user)
  {
    if records != [] {
      var n := |records| - 1;
      var front := records[..n];
      var last := records[n];
      UniqueFront(records);
      CountedRecordsAreSessions(sessions, courses, front, user);
      forall id | id in CountedSessions(sessions, courses, front, user)
        ensures HasRecord(records, id, user)
      {
        HasRecordFront(records, id, user);
      }
      if last.student == user && last.present && CountsToward(sessions, courses, last.session, user) {
        assert HasRecord(records, last.session, user) by {
          assert records[n].session == last.session && records[n].student == user;
        }
        assert last.session !in CountedSessions(sessions, courses, front, user);
      }
    }
  }

  lemma {:induction false} SubsetCardinality<T>(a: set<T>, b: set<T>)
    requires a <= b
    ensures |a| <= |b|
  {
    if a != {} {
      var x :| x in a;
      SubsetCardinality(a - {x}, b - {x});
    }
  }

  /** The dashboard's rate with `my_attendance` restricted to the sessions `total_possible` counts. */
  function CorrectedDashboardRate(sessions: seq<Session>, courses: map<CourseId, Course>,
                                  records: seq<AttendanceRecord>, user: UserId): (rate: real)
    ensures PossibleSessions(sessions, courses, user) == {} ==> rate == 0.0
  {
    Percentage(CountedRecords(sessions, courses, records, user), |PossibleSessions(sessions, courses, user)|)
  }

  /** In a consistent store the corrected rate is a percentage: between 0 and 100. */
  lemma CorrectedRateAtMostHundred(sessions: seq<Session>, courses: map<CourseId, Course>,
                                   records: seq<AttendanceRecord>, user: UserId)
    requires RecordsUnique(records)
    ensures 0.0 <= CorrectedDashboardRate(sessions, courses, records, user) <= 100.0
  {
    CountedRecordsAreSessions(sessions, courses, records, user);
    SubsetCardinality(CountedSessions(sessions, courses, records, user), PossibleSessions(sessions, courses, user));
  }
}
