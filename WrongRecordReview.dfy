/**
 * Wrong-answer records and their spaced-repetition review: a record climbs an
 * interval ladder of 1, 3, 7 and 15 days on each correct review, is marked
 * mastered on the correct review after the fourth, and falls back to the
 * bottom (review tomorrow) on a wrong one. Times are milliseconds.
 */
module WrongRecordReview {
  import opened Common
  import opened Sorting

  /** The review intervals in days. */
  function ReviewIntervals(): seq<int> { [1, 3, 7, 15, 30] }

  const DayMs := 86_400_000

  /** The days reported for a review that masters the record. */
  const MasteredDays := 999

  datatype WrongRecord = WrongRecord(
    id: int, studentId: int, questionId: int, paperId: Option<int>, wrongReason: Option<string>,
    createTime: int, isMastered: int, reviewCount: Option<int>, nextReviewTime: Option<int>)

  /** The state a record is in after a review, and the days reported to the student. */
  datatype Review = Review(record: WrongRecord, daysToAdd: int)

  /**
   * One review of a stored record; `None` is the index-out-of-range exception
   * a negative stored count raises on a correct answer.
   */
  function ReviewRecord(r: WrongRecord, isCorrect: bool, now: int): Option<Review>
  {
    if isCorrect then
      var currentCount := if r.reviewCount.None? then 0 else r.reviewCount.value;
      if currentCount >= |ReviewIntervals()| - 1 then Some(Review(r.(isMastered := 1), MasteredDays))
      else if currentCount < 0 then None
      else
        var days := ReviewIntervals()[currentCount];
        Some(Review(r.(reviewCount := Some(currentCount + 1), nextReviewTime := Some(now + days * DayMs)), days))
    else Some(Review(r.(reviewCount := Some(0), nextReviewTime := Some(now + DayMs)), 1))
  }

  /** A correct review below the top of the ladder schedules the interval of the current count and counts one more review. */
  lemma CorrectReviewClimbs(r: WrongRecord, now: int, c: int)
    requires (if r.reviewCount.None? then 0 else r.reviewCount.value) == c && 0 <= c < 4
    ensures var rv := ReviewRecord(r, true, now);
      && rv.Some?
      && rv.value.daysToAdd == ReviewIntervals()[c]
      && rv.value.record == r.(reviewCount := Some(c + 1), nextReviewTime := Some(now + ReviewIntervals()[c] * DayMs))
  {
  }

  /** A correct review at count 4 or above masters the record and reports 999 days, leaving the schedule as it was. */
  lemma CorrectReviewMasters(r: WrongRecord, now: int)
    requires r.reviewCount.Some? && r.reviewCount.value >= 4
    ensures ReviewRecord(r, true, now) == Some(Review(r.(isMastered := 1), MasteredDays))
  {
  }

  /** A wrong review puts the record back at count 0, due tomorrow; whether it was mastered is left as it was. */
  lemma WrongReviewResets(r: WrongRecord, now: int)
    ensures var rv := ReviewRecord(r, false, now);
      && rv.Some? && rv.value.daysToAdd == 1
      && rv.value.record == r.(reviewCount := Some(0), nextReviewTime := Some(now + DayMs))
      && rv.value.record.isMastered == r.isMastered
  {
  }

  /** The count stays on the ladder [0, 4]; a record on the ladder never raises the exception. */
  predicate OnLadder(r: WrongRecord)
  {
    r.reviewCount.None? || 0 <= r.reviewCount.value <= 4
  }

  lemma ReviewKeepsLadder(r: WrongRecord, isCorrect: bool, now: int)
    requires OnLadder(r)
    ensures var rv := ReviewRecord(r, isCorrect, now);
      rv.Some? && OnLadder(rv.value.record)
  {
  }

  /**
   * The last interval of the ladder is never scheduled: a review reports 1,
   * 3, 7, 15 or 999 days and never schedules beyond 15 days ahead.
   */
  lemma ThirtyDaysNeverScheduled(r: WrongRecord, isCorrect: bool, now: int)
    ensures var rv := ReviewRecord(r, isCorrect, now);
      rv.Some? ==>
        && rv.value.daysToAdd in {1, 3, 7, 15, MasteredDays}
        && (rv.value.record.nextReviewTime != r.nextReviewTime ==>
              rv.value.record.nextReviewTime.Some? && rv.value.record.nextReviewTime.value <= now + 15 * DayMs)
  {
  }

  /** Reviews in order, record by record; `None` once one raises. */
  function ReviewAll(r: WrongRecord, answers: seq<bool>, times: seq<int>): Option<Review>
    requires |times| == |answers| > 0
    decreases |answers|
  {
    var rv := ReviewRecord(r, answers[0], times[0]);
    if |answers| == 1 || rv.None? then rv else ReviewAll(rv.value.record, answers[1..], times[1..])
  }

  /** A fresh record is mastered by five correct reviews in a row, after stepping through 1, 3, 7 and 15 days. */
  lemma FiveCorrectReviewsMaster(r: WrongRecord, times: seq<int>)
    requires r.reviewCount == Some(0) && |times| == 5
    ensures var rv := ReviewAll(r, [true, true, true, true, true], times);
      && rv.Some? && rv.value.record.isMastered == 1 && rv.value.daysToAdd == MasteredDays
      && rv.value.record.reviewCount == Some(4)
      && rv.value.record.nextReviewTime == Some(times[3] + 15 * DayMs)
  {
    var a := [true, true, true, true, true];
    var r1 := ReviewRecord(r, true, times[0]).value.record;
    var r2 := ReviewRecord(r1, true, times[1]).value.record;
    var r3 := ReviewRecord(r2, true, times[2]).value.record;
    var r4 := ReviewRecord(r3, true, times[3]).value.record;
    assert ReviewAll(r4, a[4..], times[4..]) == ReviewRecord(r4, true, times[4]);
    assert ReviewAll(r3, a[3..], times[3..]) == ReviewAll(r4, a[4..], times[4..]) by {
      assert a[3..][1..] == a[4..] && times[3..][1..] == times[4..];
    }
    assert ReviewAll(r2, a[2..], times[2..]) == ReviewAll(r3, a[3..], times[3..]) by {
      assert a[2..][1..] == a[3..] && times[2..][1..] == times[3..];
    }
    assert ReviewAll(r1, a[1..], times[1..]) == ReviewAll(r2, a[2..], times[2..]) by {
      assert a[1..][1..] == a[2..] && times[1..][1..] == times[2..];
    }
  }

  // ---------------------------------------------------------------------------
  // Creating records
  // ---------------------------------------------------------------------------

  /** The request to record a question as wrongly answered by some students; `None` stands for null. */
  datatype WrongRecordRequest = WrongRecordRequest(
    questionId: Option<int>, studentIds: Option<seq<int>>, paperId: Option<int>, wrongReason: Option<string>)

  /** An unmastered record of student `s` for question `q`. */
  predicate IsOpen(r: WrongRecord, s: int, q: int)
  {
    r.studentId == s && r.questionId == q && r.isMastered == 0
  }

  /** The count query: the unmastered records of `s` for `q`. */
  function CountOpen(rows: seq<WrongRecord>, s: int, q: int): (n: nat)
    ensures n > 0 <==> exists k :: 0 <= k < |rows| && IsOpen(rows[k], s, q)
  {
    if rows == [] then 0
    else
      var n := CountOpen(rows[..|rows| - 1], s, q);
      assert forall k :: 0 <= k < |rows| - 1 ==> rows[..|rows| - 1][k] == rows[k];
      n + (if IsOpen(rows[|rows| - 1], s, q) then 1 else 0)
  }

  /** The stored table: its rows in insertion order and the next id the database will assign. */
  datatype Table = Table(rows: seq<WrongRecord>, nextId: int)

  /** A new record: review count 0, not mastered, due one day after creation. */
  function NewRecord(id: int, s: int, q: int, req: WrongRecordRequest, now: int): WrongRecord
  {
    WrongRecord(id, s, q, req.paperId, req.wrongReason, now, 0, Some(0), Some(now + DayMs))
  }

  /** One student of the request: skipped when an unmastered record of the question exists, else given a new record. */
  function AddStudent(t: Table, s: int, q: int, req: WrongRecordRequest, now: int): Table
  {
    if CountOpen(t.rows, s, q) > 0 then t
    else Table(t.rows + [NewRecord(t.nextId, s, q, req, now)], t.nextId + 1)
  }

  function AddStudents(t: Table, students: seq<int>, q: int, req: WrongRecordRequest, now: int): Table
  {
    if students == [] then t
    else AddStudent(AddStudents(t, students[..|students| - 1], q, req, now), students[|students| - 1], q, req, now)
  }

  /** Ids are distinct and below the next id. */
  predicate WellKeyed(t: Table)
  {
    && (forall i, j :: 0 <= i < j < |t.rows| ==> t.rows[i].id != t.rows[j].id)
    && (forall k :: 0 <= k < |t.rows| ==> t.rows[k].id < t.nextId)
  }

  /** No student holds two unmastered records of one question. */
  predicate UniqueOpen(rows: seq<WrongRecord>)
  {
    forall i, j :: 0 <= i < j < |rows| && rows[i].isMastered == 0 ==> !IsOpen(rows[j], rows[i].studentId, rows[i].questionId)
  }

  /** A record made by this request at `now`, for whichever student and id. */
  predicate MadeBy(r: WrongRecord, q: int, req: WrongRecordRequest, now: int)
  {
    r == NewRecord(r.id, r.studentId, q, req, now)
  }

  /** Creation keeps the existing rows as they were and only appends. */
  lemma {:induction false} AddStudentsExtends(t: Table, students: seq<int>, q: int, req: WrongRecordRequest, now: int)
    ensures var t' := AddStudents(t, students, q, req, now);
      |t.rows| <= |t'.rows| && t'.rows[..|t.rows|] == t.rows && t.nextId <= t'.nextId
  {
    if students != [] {
      var init := students[..|students| - 1];
      AddStudentsExtends(t, init, q, req, now);
      var m := AddStudents(t, init, q, req, now);
      AddStudentCovers(m, students[|students| - 1], q, req, now);
      var t' := AddStudents(t, students, q, req, now);
      assert t'.rows[..|t.rows|] == m.rows[..|t.rows|];
    }
  }

  /** Creation keeps the ids well keyed and the open records unique. */
  lemma {:induction false} AddStudentsKeeps(t: Table, students: seq<int>, q: int, req: WrongRecordRequest, now: int)
    requires WellKeyed(t) && UniqueOpen(t.rows)
    ensures var t' := AddStudents(t, students, q, req, now);
      WellKeyed(t') && UniqueOpen(t'.rows)
  {
    if students != [] {
      var init := students[..|students| - 1];
      AddStudentsKeeps(t, init, q, req, now);
      AddStudentEffect(AddStudents(t, init, q, req, now), students[|students| - 1], q, req, now);
    }
  }

  /** After creation every listed student holds an unmastered record of the question. */
  lemma {:induction false} AddStudentsCovers(t: Table, students: seq<int>, q: int, req: WrongRecordRequest, now: int)
    ensures var t' := AddStudents(t, students, q, req, now);
      forall k :: 0 <= k < |students| ==> CountOpen(t'.rows, students[k], q) > 0
  {
    if students != [] {
      var init := students[..|students| - 1];
      AddStudentsCovers(t, init, q, req, now);
      var m := AddStudents(t, init, q, req, now);
      AddStudentCovers(m, students[|students| - 1], q, req, now);
      var t' := AddStudents(t, students, q, req, now);
      forall k | 0 <= k < |init|
        ensures CountOpen(t'.rows, students[k], q) > 0
      {
        assert init[k] == students[k];
        OpenSurvivesPrefix(m.rows, t'.rows, students[k], q);
      }
    }
  }

  /** Every row creation adds is a new record of a listed student, made by this request. */
  lemma {:induction false} AddStudentsAddsFresh(t: Table, students: seq<int>, q: int, req: WrongRecordRequest, now: int)
    ensures var t' := AddStudents(t, students, q, req, now);
      forall k :: |t.rows| <= k < |t'.rows| ==> MadeBy(t'.rows[k], q, req, now) && t'.rows[k].studentId in students
  {
    if students != [] {
      var init := students[..|students| - 1];
      AddStudentsAddsFresh(t, init, q, req, now);
      AddStudentsExtends(t, init, q, req, now);
      var m := AddStudents(t, init, q, req, now);
      AddStudentCovers(m, students[|students| - 1], q, req, now);
      var t' := AddStudents(t, students, q, req, now);
      forall k | |t.rows| <= k < |t'.rows|
        ensures MadeBy(t'.rows[k], q, req, now) && t'.rows[k].studentId in students
      {
        if k < |m.rows| {
          assert t'.rows[k] == m.rows[k];
          assert m.rows[k].studentId in init;
        }
      }
    }
  }

  lemma OpenSurvivesPrefix(a: seq<WrongRecord>, b: seq<WrongRecord>, s: int, q: int)
    requires |a| <= |b| && b[..|a|] == a && CountOpen(a, s, q) > 0
    ensures CountOpen(b, s, q) > 0
  {
    var k :| 0 <= k < |a| && IsOpen(a[k], s, q);
    assert b[k] == a[k];
  }

  lemma AddStudentCovers(t: Table, s: int, q: int, req: WrongRecordRequest, now: int)
    ensures var t' := AddStudent(t, s, q, req, now);
      && |t.rows| <= |t'.rows| <= |t.rows| + 1 && t'.rows[..|t.rows|] == t.rows && CountOpen(t'.rows, s, q) > 0
      && t.nextId <= t'.nextId
      && (forall k :: |t.rows| <= k < |t'.rows| ==> t'.rows[k] == NewRecord(t.nextId, s, q, req, now))
  {
    var t' := AddStudent(t, s, q, req, now);
    if CountOpen(t.rows, s, q) == 0 {
      assert IsOpen(t'.rows[|t.rows|], s, q);
    }
  }

  lemma AddStudentEffect(t: Table, s: int, q: int, req: WrongRecordRequest, now: int)
    requires WellKeyed(t) && UniqueOpen(t.rows)
    ensures var t' := AddStudent(t, s, q, req, now);
      && |t.rows| <= |t'.rows| && t'.rows[..|t.rows|] == t.rows
      && WellKeyed(t') && UniqueOpen(t'.rows) && t.nextId <= t'.nextId
      && CountOpen(t'.rows, s, q) > 0
      && (forall k :: |t.rows| <= k < |t'.rows| ==> t'.rows[k] == NewRecord(t.nextId, s, q, req, now))
      && (|t'.rows| == |t.rows| || |t'.rows| == |t.rows| + 1)
  {
    var t' := AddStudent(t, s, q, req, now);
    if CountOpen(t.rows, s, q) == 0 {
      var n := |t.rows|;
      assert t'.rows[n] == NewRecord(t.nextId, s, q, req, now);
      assert t'.rows[..n] == t.rows;
      assert IsOpen(t'.rows[n], s, q);
    }
  }

  // ---------------------------------------------------------------------------
  // Daily review list
  // ---------------------------------------------------------------------------

  /** The question details shown with a record. */
  datatype Question = Question(content: Option<string>, options: Option<string>, imageUrl: Option<string>)

  /** A record due for review with its question. */
  datatype ReviewItem = ReviewItem(
    id: int, studentId: int, questionId: int, wrongReason: Option<string>, createTime: int,
    questionContent: Option<string>, options: Option<string>, imageUrl: Option<string>)

  /** Unmastered, of the student, and due at `now` (a record without a next review time is never due). */
  predicate IsDue(r: WrongRecord, studentId: int, now: int)
  {
    r.studentId == studentId && r.isMastered == 0 && r.nextReviewTime.Some? && r.nextReviewTime.value <= now
  }

  function Due(rows: seq<WrongRecord>, studentId: int, now: int): (r: seq<WrongRecord>)
    ensures forall k :: 0 <= k < |r| ==> IsDue(r[k], studentId, now) && r[k] in rows
    ensures forall x :: x in r <==> x in rows && IsDue(x, studentId, now)
  {
    if rows == [] then []
    else
      var init := Due(rows[..|rows| - 1], studentId, now);
      assert rows == rows[..|rows| - 1] + [rows[|rows| - 1]];
      assert forall k :: 0 <= k < |init| ==> init[k] in rows by {
        assert forall x :: x in rows[..|rows| - 1] ==> x in rows;
      }
      init + (if IsDue(rows[|rows| - 1], studentId, now) then [rows[|rows| - 1]] else [])
  }

  /** The sort key of the query: the next review time. */
  function NextTimeKey(r: WrongRecord): real
  {
    if r.nextReviewTime.Some? then r.nextReviewTime.value as real else 0.0
  }

  /**
   * The query's records by next review time, latest first (`orderByDesc`):
   * the most recently due record leads, not the most overdue one that the
   * source's inline comment names.
   */
  function DueSorted(rows: seq<WrongRecord>, studentId: int, now: int): seq<WrongRecord>
  {
    SortDesc(Due(rows, studentId, now), NextTimeKey)
  }

  function ItemOf(r: WrongRecord, q: Question): ReviewItem
  {
    ReviewItem(r.id, r.studentId, r.questionId, r.wrongReason, r.createTime, q.content, q.options, q.imageUrl)
  }

  /** `item` shows record `r` with its question. */
  predicate Shows(item: ReviewItem, r: WrongRecord, questions: map<int, Question>)
  {
    r.questionId in questions && item == ItemOf(r, questions[r.questionId])
  }

  /** The records whose question was found, as review items, in order. */
  function Items(records: seq<WrongRecord>, questions: map<int, Question>): (items: seq<ReviewItem>)
    ensures |items| <= |records|
  {
    if records == [] then []
    else
      var r := records[|records| - 1];
      Items(records[..|records| - 1], questions) + (if r.questionId in questions then [ItemOf(r, questions[r.questionId])] else [])
  }

  /** Every item shows one of the records with its question. */
  lemma {:induction false} ItemsShowRecords(records: seq<WrongRecord>, questions: map<int, Question>)
    ensures forall k :: 0 <= k < |Items(records, questions)| ==>
      exists j :: 0 <= j < |records| && Shows(Items(records, questions)[k], records[j], questions)
  {
    if records != [] {
      var init := records[..|records| - 1];
      ItemsShowRecords(init, questions);
      var items := Items(records, questions);
      var a := Items(init, questions);
      forall k | 0 <= k < |items|
        ensures exists j :: 0 <= j < |records| && Shows(items[k], records[j], questions)
      {
        if k < |a| {
          assert items[k] == a[k];
          var j :| 0 <= j < |init| && Shows(a[k], init[j], questions);
          assert records[j] == init[j];
        } else {
          var j := |records| - 1;
          assert Shows(items[k], records[j], questions);
        }
      }
    } else {
      assert Items(records, questions) == [];
    }
  }

  /** Every record of the list whose question is known is shown. */
  lemma {:induction false} ItemsShowEveryKnown(records: seq<WrongRecord>, questions: map<int, Question>, j: int)
    requires 0 <= j < |records| && records[j].questionId in questions
    ensures exists k :: 0 <= k < |Items(records, questions)| && Shows(Items(records, questions)[k], records[j], questions)
  {
    var init := records[..|records| - 1];
    var items := Items(records, questions);
    if j < |init| {
      ItemsShowEveryKnown(init, questions, j);
      var k :| 0 <= k < |Items(init, questions)| && Shows(Items(init, questions)[k], init[j], questions);
      assert items[k] == Items(init, questions)[k] && records[j] == init[j];
    } else {
      assert Shows(items[|items| - 1], records[j], questions);
    }
  }

  /** The due list is in non-increasing next-review order and holds every due record exactly as often as the table does. */
  lemma DueSortedIsOrderedDue(rows: seq<WrongRecord>, studentId: int, now: int)
    ensures SortedDesc(DueSorted(rows, studentId, now), NextTimeKey)
    ensures multiset(DueSorted(rows, studentId, now)) == multiset(Due(rows, studentId, now))
    ensures forall k :: 0 <= k < |DueSorted(rows, studentId, now)| ==> IsDue(DueSorted(rows, studentId, now)[k], studentId, now)
  {
    SortDescSorted(Due(rows, studentId, now), NextTimeKey);
    var d := Due(rows, studentId, now);
    var s := DueSorted(rows, studentId, now);
    forall k | 0 <= k < |s|
      ensures IsDue(s[k], studentId, now)
    {
      assert s[k] in multiset(d);
      var j :| 0 <= j < |d| && d[j] == s[k];
    }
  }

  /** The record with id `id`, if stored. */
  function FindById(rows: seq<WrongRecord>, id: int): (i: int)
    ensures -1 <= i < |rows|
    ensures i >= 0 ==> rows[i].id == id
    ensures i == -1 ==> forall k :: 0 <= k < |rows| ==> rows[k].id != id
  {
    if rows == [] then -1
    else if rows[|rows| - 1].id == id then |rows| - 1
    else FindById(rows[..|rows| - 1], id)
  }

  /** submitReviewResult on the table: the reported days (`None` for the exception) and the new rows. */
  function SubmitReview(rows: seq<WrongRecord>, recordId: int, isCorrect: bool, now: int): (seq<WrongRecord>, Option<int>)
  {
    var i := FindById(rows, recordId);
    if i == -1 then (rows, Some(0))
    else
      match ReviewRecord(rows[i], isCorrect, now)
      case None => (rows, None)
      case Some(rv) => (rows[i := rv.record], Some(rv.daysToAdd))
  }

  /** A missing record reports 0 days and changes nothing; otherwise only that record changes, and its id stays. */
  lemma SubmitReviewTouchesOneRecord(t: Table, recordId: int, isCorrect: bool, now: int)
    requires WellKeyed(t)
    ensures var (rows', days) := SubmitReview(t.rows, recordId, isCorrect, now);
      && (FindById(t.rows, recordId) == -1 ==> rows' == t.rows && days == Some(0))
      && |rows'| == |t.rows|
      && (forall k :: 0 <= k < |t.rows| && t.rows[k].id != recordId ==> rows'[k] == t.rows[k])
      && (forall k :: 0 <= k < |t.rows| ==> rows'[k].id == t.rows[k].id)
      && WellKeyed(Table(rows', t.nextId))
  {
  }

  /** The stored wrong-answer records. */
  class WrongRecordService {
    var rows: seq<WrongRecord>
    var nextId: int

    function Model(): Table
      reads this
    {
      Table(rows, nextId)
    }

    constructor ()
      ensures Model() == Table([], 1)
    {
      rows := [];
      nextId := 1;
    }

    /** createWrongRecord: false for a null request, question or student list, or an empty list. */
    method CreateWrongRecord(req: WrongRecordRequest, now: int) returns (ok: bool)
      modifies this
      ensures ok <==> req.questionId.Some? && req.studentIds.Some? && req.studentIds.value != []
      ensures !ok ==> Model() == old(Model())
      ensures ok ==> Model() == AddStudents(old(Model()), req.studentIds.value, req.questionId.value, req, now)
    {
      if req.questionId.None? || req.studentIds.None? || req.studentIds.value == [] {
        return false;
      }
      var students := req.studentIds.value;
      var q := req.questionId.value;
      ghost var start := Model();
      for i := 0 to |students|
        invariant Model() == AddStudents(start, students[..i], q, req, now)
      {
        assert students[..i + 1][..i] == students[..i];
        var studentId := students[i];
        var count := CountOpen(rows, studentId, q);
        if count > 0 {
          continue;
        }
        rows := rows + [NewRecord(nextId, studentId, q, req, now)];
        nextId := nextId + 1;
      }
      assert students[..|students|] == students;
      return true;
    }

    /** submitReviewResult; `None` stands for the exception, which leaves the table unchanged. */
    method SubmitReviewResult(recordId: int, isCorrect: bool, now: int) returns (days: Option<int>)
      modifies this
      ensures (rows, days) == SubmitReview(old(rows), recordId, isCorrect, now)
      ensures nextId == old(nextId)
    {
      var i := FindById(rows, recordId);
      if i == -1 {
        return Some(0);
      }
      var rv := ReviewRecord(rows[i], isCorrect, now);
      if rv.None? {
        return None;
      }
      rows := rows[i := rv.value.record];
      days := Some(rv.value.daysToAdd);
    }

    /** getDailyReviewRecords: the due records of the student, latest due first, that have a known question. */
    method DailyReviewRecords(studentId: int, now: int, questions: map<int, Question>) returns (voList: seq<ReviewItem>)
      ensures voList == Items(DueSorted(rows, studentId, now), questions)
    {
      var records := DueSorted(rows, studentId, now);
      if records == [] {
        return [];
      }
      voList := [];
      for i := 0 to |records|
        invariant voList == Items(records[..i], questions)
      {
        assert records[..i + 1][..i] == records[..i];
        var record := records[i];
        if record.questionId in questions {
          var q := questions[record.questionId];
          voList := voList + [ItemOf(record, q)];
        }
      }
      assert records[..|records|] == records;
    }
  }
}
