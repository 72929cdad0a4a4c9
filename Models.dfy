/**
 The stored entities of the attendance tracker (attendance_app/models.py): remedial codes,
 makeup-class sessions with their default code expiry and validity window, attendance
 records, notifications, courses, and the database that holds them as tables.
 */
module Models {
  import opened Basics

  type UserId = nat
  type CourseId = nat
  /** A session's primary key: its position in the session table. */
  type SessionId = nat

  // ---------------------------------------------------------------------------
  // Remedial codes
  // ---------------------------------------------------------------------------

  const CodeLength := 8
  /** `string.ascii_uppercase + string.digits` has 36 characters. */
  const AlphabetSize := 36

  predicate IsCodeChar(c: char) {
    'A' <= c <= 'Z' || '0' <= c <= '9'
  }

  /** The k-th character of `string.ascii_uppercase + string.digits`. */
  function AlphabetChar(k: nat): (c: char)
    requires k < AlphabetSize
    ensures IsCodeChar(c)
    ensures k < 26 <==> 'A' <= c <= 'Z'
  {
    if k < 26 then ('A' as int + k) as char else ('0' as int + (k - 26)) as char
  }

  /** The position of a code character in the alphabet; the inverse of AlphabetChar. */
  function AlphabetIndex(c: char): (k: nat)
    requires IsCodeChar(c)
    ensures k < AlphabetSize && AlphabetChar(k) == c
  {
    if 'A' <= c <= 'Z' then c as int - 'A' as int else c as int - '0' as int + 26
  }

  /** The shape of every code `generate_remedial_code` can return. */
  predicate IsRemedialCode(code: string) {
    |code| == CodeLength && forall i :: 0 <= i < |code| ==> IsCodeChar(code[i])
  }

  /** The eight random draws of `random.choices(..., k=8)`, each an index into the alphabet. */
  predicate IsDraws(draws: seq<nat>) {
    |draws| == CodeLength && forall i :: 0 <= i < |draws| ==> draws[i] < AlphabetSize
  }

  /** `generate_remedial_code`, with its random draws passed in. */
  function GenerateRemedialCode(draws: seq<nat>): (code: string)
    requires IsDraws(draws)
    ensures IsRemedialCode(code)
  {
    seq(CodeLength, i requires 0 <= i < CodeLength => AlphabetChar(draws[i]))
  }

  /** The draws that produce a given code. */
  function DrawsOf(code: string): (draws: seq<nat>)
    requires IsRemedialCode(code)
    ensures IsDraws(draws)
  {
    seq(CodeLength, i requires 0 <= i < CodeLength => AlphabetIndex(code[i]))
  }

  /** Every 8-character upper-case alphanumeric string is a code the generator can produce. */
  lemma EveryCodeIsGenerated(code: string)
    requires IsRemedialCode(code)
    ensures GenerateRemedialCode(DrawsOf(code)) == code
  {
    var g := GenerateRemedialCode(DrawsOf(code));
    forall i | 0 <= i < CodeLength
      ensures g[i] == code[i]
    {
      assert AlphabetChar(AlphabetIndex(code[i])) == code[i];
    }
  }

  /** Different draws give different codes: no two draw sequences collide. */
  lemma GenerationIsInjective(d1: seq<nat>, d2: seq<nat>)
    requires IsDraws(d1) && IsDraws(d2)
    requires GenerateRemedialCode(d1) == GenerateRemedialCode(d2)
    ensures d1 == d2
  {
    forall i | 0 <= i < CodeLength
      ensures d1[i] == d2[i]
    {
      var c1, c2 := GenerateRemedialCode(d1)[i], GenerateRemedialCode(d2)[i];
      assert c1 == AlphabetChar(d1[i]) && c2 == AlphabetChar(d2[i]);
      assert AlphabetIndex(c1) == d1[i];
      assert AlphabetIndex(c2) == d2[i];
    }
  }

  // ---------------------------------------------------------------------------
  // Sessions (MakeUpClass)
  // ---------------------------------------------------------------------------

  datatype Status = Scheduled | Active | Completed | Cancelled

  /**
   A makeup-class session as stored. Title, description, venue, reason, capacity and the
   AI fields are free data that no modelled operation inspects, so they are omitted.
   */
  datatype Session = Session(
    course: CourseId,
    faculty: UserId,
    date: Day,
    start: TimeOfDay,
    end: TimeOfDay,
    code: string,
    expiry: Option<Timestamp>,
    status: Status)

  /** The grace window added to the end of the session: `timedelta(hours=1)`. */
  const ExpiryGrace := SecondsPerHour

  /**
   A session as built by the form before its first save: the default status, no expiry. Its
   first save stores it scheduled, expiring an hour after its end, and its code is not
   accepted at any time until it is activated.
   */
  function NewSession(course: CourseId, faculty: UserId, date: Day, start: TimeOfDay, end: TimeOfDay, code: string): (s: Session)
    ensures WithDefaultExpiry(s)
            == Session(course, faculty, date, start, end, code, Some(Combine(date, end) + ExpiryGrace), Scheduled)
    ensures forall now :: !IsCodeValid(WithDefaultExpiry(s), now)
  {
    Session(course, faculty, date, start, end, code, None, Scheduled)
  }

  /**
   What `MakeUpClass.save` does to the instance before writing it: an unset expiry becomes the
   end of the session plus one hour; a set expiry is kept. Date and end time are NOT NULL
   columns, so the guard on their presence always holds.
   */
  function WithDefaultExpiry(s: Session): (r: Session)
    ensures r.expiry.Some?
    ensures r.(expiry := s.expiry) == s
    ensures s.expiry.Some? ==> r.expiry == s.expiry
    ensures s.expiry.None? ==> r.expiry.value == Combine(s.date, s.end) + ExpiryGrace
  {
    if s.expiry.None? then s.(expiry := Some(Combine(s.date, s.end) + ExpiryGrace)) else s
  }

  /** Saving twice is saving once: the expiry is computed on the first save only. */
  lemma SaveIsIdempotent(s: Session)
    ensures WithDefaultExpiry(WithDefaultExpiry(s)) == WithDefaultExpiry(s)
  {
  }

  /** A default expiry falls strictly after the session ends, and within the hour after. */
  lemma DefaultExpiryWindow(s: Session)
    requires s.expiry.None?
    ensures Combine(s.date, s.end) < WithDefaultExpiry(s).expiry.value
    ensures WithDefaultExpiry(s).expiry.value <= Combine(s.date, s.end) + SecondsPerHour
  {
  }

  /** `is_code_valid`: the session is active, has an expiry, and now is strictly before it. */
  predicate IsCodeValid(s: Session, now: Timestamp) {
    s.status == Active && s.expiry.Some? && now < s.expiry.value
  }

  /** At the instant of expiry, or at any later time, the code is no longer valid. */
  lemma ExpiredAtBoundary(s: Session, now: Timestamp)
    requires s.expiry.Some? && now >= s.expiry.value
    ensures !IsCodeValid(s, now)
  {
  }

  /** A code valid now was valid at every earlier moment of the same session state. */
  lemma ValidityIsDownwardClosed(s: Session, earlier: Timestamp, now: Timestamp)
    requires earlier <= now && IsCodeValid(s, now)
    ensures IsCodeValid(s, earlier)
  {
  }

  /**
   For a session saved with the default expiry and then activated, the code is valid exactly
   until one hour after the session's end.
   */
  lemma SavedActiveWindow(s: Session, now: Timestamp)
    requires s.expiry.None?
    ensures IsCodeValid(WithDefaultExpiry(s.(status := Active)), now)
            <==> now < Combine(s.date, s.end) + ExpiryGrace
  {
  }

  // ---------------------------------------------------------------------------
  // Attendance records, notifications, courses, roles
  // ---------------------------------------------------------------------------

  datatype Verification = ByCode | ByFace | Manual

  datatype AttendanceRecord = AttendanceRecord(
    session: SessionId,
    student: UserId,
    present: bool,
    verification: Verification,
    ip: Option<string>)

  datatype NotificationKind =
    | MakeupScheduled | CodeGenerated | AttendanceMarked | Reminder | Alert | AiSuggestion

  /** A notification, without its free-text title and message. */
  datatype Notification = Notification(
    recipient: UserId,
    kind: NotificationKind,
    related: Option<SessionId>,
    read: bool)

  datatype Course = Course(faculty: Option<UserId>, students: set<UserId>)

  datatype Role = Faculty | Student

  /** `attendance_count`: the number of records of the session whose presence flag is set. */
  function AttendanceCount(records: seq<AttendanceRecord>, id: SessionId): (n: nat)
    ensures n <= |records|
  {
    if records == [] then 0
    else
      var last := records[|records| - 1];
      AttendanceCount(records[..|records| - 1], id) + (if last.session == id && last.present then 1 else 0)
  }

  /** The positions of the session's present records. */
  ghost function PresentIndices(records: seq<AttendanceRecord>, id: SessionId): set<nat> {
    set i | 0 <= i < |records| && records[i].session == id && records[i].present
  }

  /** The count equals the number of present records of the session, counted as a set of rows. */
  lemma {:induction false} AttendanceCountIsCardinality(records: seq<AttendanceRecord>, id: SessionId)
    ensures AttendanceCount(records, id) == |PresentIndices(records, id)|
  {
    if records != [] {
      var n := |records| - 1;
      var front := records[..n];
      AttendanceCountIsCardinality(front, id);
      var last := records[n];
      if last.session == id && last.present {
        assert PresentIndices(records, id) == PresentIndices(front, id) + {n};
        assert n !in PresentIndices(front, id);
      } else {
        assert PresentIndices(records, id) == PresentIndices(front, id);
      }
    }
  }

  /** Appending one record changes the count by one exactly when it is a present record of the session. */
  lemma AttendanceCountAppend(records: seq<AttendanceRecord>, r: AttendanceRecord, id: SessionId)
    ensures AttendanceCount(records + [r], id)
            == AttendanceCount(records, id) + (if r.session == id && r.present then 1 else 0)
  {
    assert (records + [r])[..|records|] == records;
  }

  // ---------------------------------------------------------------------------
  // Table invariants: the unique constraints and the foreign keys
  // ---------------------------------------------------------------------------

  /** `remedial_code` is declared `unique=True`. */
  ghost predicate CodesUnique(sessions: seq<Session>) {
    forall i, j :: 0 <= i < j < |sessions| ==> sessions[i].code != sessions[j].code
  }

  /** `unique_together = ['makeup_class', 'student']`. */
  ghost predicate RecordsUnique(records: seq<AttendanceRecord>) {
    forall i, j :: 0 <= i < j < |records| ==>
      records[i].session != records[j].session || records[i].student != records[j].student
  }

  /** Every stored session has been through `save`, so its expiry is set. */
  ghost predicate ExpiriesSet(sessions: seq<Session>) {
    forall i :: 0 <= i < |sessions| ==> sessions[i].expiry.Some?
  }

  ghost predicate ForeignKeysHold(
    sessions: seq<Session>, courses: map<CourseId, Course>,
    records: seq<AttendanceRecord>, notifications: seq<Notification>)
  {
    && (forall i :: 0 <= i < |sessions| ==> sessions[i].course in courses)
    && (forall i :: 0 <= i < |records| ==> records[i].session < |sessions|)
    && (forall i :: 0 <= i < |notifications| && notifications[i].related.Some? ==>
          notifications[i].related.value < |sessions|)
  }

  ghost predicate Consistent(
    sessions: seq<Session>, courses: map<CourseId, Course>,
    records: seq<AttendanceRecord>, notifications: seq<Notification>)
  {
    && CodesUnique(sessions)
    && RecordsUnique(records)
    && ExpiriesSet(sessions)
    && ForeignKeysHold(sessions, courses, records, notifications)
  }

  /** `MakeUpClass.objects.get(remedial_code=code)`: the first session holding the code, if any. */
  function FindByCode(sessions: seq<Session>, code: string): (r: Option<SessionId>)
    ensures r.Some? ==> r.value < |sessions| && sessions[r.value].code == code
    ensures r.None? <==> forall i :: 0 <= i < |sessions| ==> sessions[i].code != code
  {
    if sessions == [] then None
    else
      var n := |sessions| - 1;
      var r := FindByCode(sessions[..n], code);
      if r.Some? then r
      else if sessions[n].code == code then Some(n)
      else None
  }

  /** Under the unique constraint, the lookup finds the one session that holds the code. */
  lemma FindByCodeUnique(sessions: seq<Session>, code: string, i: SessionId)
    requires CodesUnique(sessions)
    requires i < |sessions| && sessions[i].code == code
    ensures FindByCode(sessions, code) == Some(i)
  {
  }

  /** True when some session other than `except` already holds the code. */
  predicate CodeTaken(sessions: seq<Session>, code: string, except: int) {
    exists j :: 0 <= j < |sessions| && j != except && sessions[j].code == code
  }

  /** Whether the student already has a record for the session. */
  predicate HasRecord(records: seq<AttendanceRecord>, id: SessionId, student: UserId) {
    exists k :: 0 <= k < |records| && records[k].session == id && records[k].student == student
  }

  /** The tables of the relational store. */
  class Database {
    var sessions: seq<Session>
    var courses: map<CourseId, Course>
    var profiles: map<UserId, Role>
    var records: seq<AttendanceRecord>
    var notifications: seq<Notification>

    ghost predicate Valid()
      reads this
    {
      Consistent(sessions, courses, records, notifications)
    }

    constructor (courses: map<CourseId, Course>, profiles: map<UserId, Role>)
      ensures Valid()
      ensures this.courses == courses && this.profiles == profiles
      ensures sessions == [] && records == [] && notifications == []
    {
      this.courses := courses;
      this.profiles := profiles;
      sessions := [];
      records := [];
      notifications := [];
    }

    /**
     `save()` of a new MakeUpClass: the default expiry is filled in and the row is inserted
     under the next key. A code already held by another session violates the unique
     constraint: nothing is written and None is returned (the source does not retry).
     */
    method Insert(s: Session) returns (id: Option<SessionId>)
      requires Valid()
      requires s.course in courses
      modifies this
      ensures Valid()
      ensures id.None? <==> CodeTaken(old(sessions), s.code, -1)
      ensures id.Some? ==> id.value == |old(sessions)| && sessions == old(sessions) + [WithDefaultExpiry(s)]
      ensures id.None? ==> sessions == old(sessions)
      ensures courses == old(courses) && profiles == old(profiles)
      ensures records == old(records) && notifications == old(notifications)
    {
      if CodeTaken(sessions, s.code, -1) {
        id := None;
      } else {
        id := Some(|sessions|);
        sessions := sessions + [WithDefaultExpiry(s)];
      }
    }

    /**
     Scheduling a makeup class: a new session from the form's fields, saved for the first
     time. It is stored scheduled with the default expiry iff no session holds its code.
     */
    method Create(course: CourseId, faculty: UserId, date: Day, start: TimeOfDay, end: TimeOfDay, code: string)
      returns (id: Option<SessionId>)
      requires Valid()
      requires course in courses
      modifies this
      ensures Valid()
      ensures id.None? <==> CodeTaken(old(sessions), code, -1)
      ensures id.Some? ==>
                && id.value == |old(sessions)|
                && sessions == old(sessions)
                               + [Session(course, faculty, date, start, end, code, Some(Combine(date, end) + ExpiryGrace), Scheduled)]
      ensures id.None? ==> sessions == old(sessions)
      ensures courses == old(courses) && profiles == old(profiles)
      ensures records == old(records) && notifications == old(notifications)
    {
      id := Insert(NewSession(course, faculty, date, start, end, code));
    }

    /**
     `save()` of an existing MakeUpClass row. The new code must not be held by another
     session; when it is, the unique constraint rejects the write and nothing changes.
     */
    method Update(id: SessionId, s: Session) returns (ok: bool)
      requires Valid()
      requires id < |sessions| && s.course in courses
      modifies this
      ensures Valid()
      ensures ok <==> !CodeTaken(old(sessions), s.code, id)
      ensures sessions == if ok then old(sessions)[id := WithDefaultExpiry(s)] else old(sessions)
      ensures courses == old(courses) && profiles == old(profiles)
      ensures records == old(records) && notifications == old(notifications)
    {
      ok := !CodeTaken(sessions, s.code, id);
      if ok {
        sessions := sessions[id := WithDefaultExpiry(s)];
      }
    }
  }
}
