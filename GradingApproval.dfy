/**
 * Re-grading approval: whether a changed score needs approval, the approval
 * record a change creates, its PENDING -> APPROVED / REJECTED lifecycle (only
 * approval writes the new score into the exam result), and the per-status
 * statistics. The database tables are maps from ids to records.
 */
module GradingApproval {
  import opened Common

  /** The configured switch and thresholds (defaults: enabled, 10 points, 20 percent). */
  datatype Config = Config(approvalEnabled: bool, scoreThreshold: int, percentageThreshold: int)

  const DefaultConfig := Config(true, 10, 20)

  /**
   * BigDecimal(change).multiply(100).divide(base, 2, HALF_UP) in hundredths of
   * a percent: change * 100 / base rounded half-up to two decimals.
   */
  function PercentHundredths(change: nat, base: int): (p: nat)
    requires base > 0
    ensures 2 * base * p - base <= 20000 * change < 2 * base * p + base
  {
    var n, d := 20000 * change + base, 2 * base;
    DivBounds(n, d);
    n / d
  }

  lemma DivBounds(n: nat, d: int)
    requires d > 0
    ensures d * (n / d) <= n < d * (n / d) + d
  {
  }

  /** The rounded percentage reaches t percent exactly when the exact one reaches t - 0.005 percent. */
  lemma PercentReaches(change: nat, base: int, t: int)
    requires base > 0
    ensures PercentHundredths(change, base) >= 100 * t <==> 20000 * change >= (200 * t - 1) * base
  {
    var p := PercentHundredths(change, base);
    if p >= 100 * t {
      assert 2 * base * p >= 2 * base * (100 * t) by {
        MulMonotone(2 * base, 100 * t, p);
      }
    } else {
      assert 2 * base * p + base <= 2 * base * (100 * t) - base by {
        MulMonotone(2 * base, p + 1, 100 * t);
      }
    }
  }

  lemma MulMonotone(k: int, a: int, b: int)
    requires k > 0 && a <= b
    ensures k * a <= k * b
  {
  }

  /** needsApproval; `None` stands for a null score. */
  function NeedsApproval(cfg: Config, oldScore: Option<int>, newScore: Option<int>): bool
  {
    if !cfg.approvalEnabled then false
    else if oldScore.None? || newScore.None? then false
    else
      var scoreChange := Abs(newScore.value - oldScore.value);
      if scoreChange >= cfg.scoreThreshold then true
      else if oldScore.value != 0 then
        PercentHundredths(scoreChange, Abs(oldScore.value)) >= cfg.percentageThreshold * 100
      else false
  }

  /**
   * Approval is needed exactly when approvals are enabled, both scores are
   * present, and the change reaches the point threshold or, for a non-zero
   * old score, its rounded percentage of the old score reaches the
   * percentage threshold.
   */
  lemma NeedsApprovalExactly(cfg: Config, oldScore: Option<int>, newScore: Option<int>)
    ensures !cfg.approvalEnabled || oldScore.None? || newScore.None? ==> !NeedsApproval(cfg, oldScore, newScore)
    ensures cfg.approvalEnabled && oldScore.Some? && newScore.Some? ==>
      var change := Abs(newScore.value - oldScore.value);
      var base := Abs(oldScore.value);
      (NeedsApproval(cfg, oldScore, newScore) <==>
        change >= cfg.scoreThreshold
        || (base != 0 && 20000 * change >= (200 * cfg.percentageThreshold - 1) * base))
  {
    if cfg.approvalEnabled && oldScore.Some? && newScore.Some? && oldScore.value != 0 {
      PercentReaches(Abs(newScore.value - oldScore.value), Abs(oldScore.value), cfg.percentageThreshold);
    }
  }

  /** A larger change from the same old score never needs approval less. */
  lemma NeedsApprovalMonotone(cfg: Config, previous: int, new1: int, new2: int)
    requires Abs(new1 - previous) <= Abs(new2 - previous)
    ensures NeedsApproval(cfg, Some(previous), Some(new1)) ==> NeedsApproval(cfg, Some(previous), Some(new2))
  {
    NeedsApprovalExactly(cfg, Some(previous), Some(new1));
    NeedsApprovalExactly(cfg, Some(previous), Some(new2));
    if previous != 0 && 20000 * Abs(new1 - previous) >= (200 * cfg.percentageThreshold - 1) * Abs(previous) {
      MulMonotone(20000, Abs(new1 - previous), Abs(new2 - previous));
    }
  }

  /** The status strings PENDING, APPROVED and REJECTED. */
  datatype Status = Pending | Approved | Rejected

  /** The exam result fields this service reads and writes. */
  datatype ExamResult = ExamResult(id: int, studentId: int, paperId: int, paperName: string,
    score: Option<int>, comment: Option<string>)

  datatype Approval = Approval(
    id: int, examResultId: int, studentId: int, studentName: string, paperId: int, paperTitle: string,
    oldScore: Option<int>, newScore: int, scoreChange: int, changePercentage: Option<nat>,
    oldComment: Option<string>, newComment: Option<string>,
    graderId: int, graderName: string, reason: string,
    status: Status, submitTime: int,
    approverId: Option<int>, approverName: Option<string>, approvalComment: Option<string>, approvalTime: Option<int>)

  /** The decimal digits of a natural number. */
  function NatToString(n: nat): (s: string)
    ensures |s| >= 1 && forall k :: 0 <= k < |s| ==> '0' <= s[k] <= '9'
    decreases n
  {
    var d := ['0' + (n % 10) as char];
    if n < 10 then d else NatToString(n / 10) + d
  }

  /** Long.toString */
  function IntToString(n: int): string
  {
    if n < 0 then "-" + NatToString(-n) else NatToString(n)
  }

  /**
   * createApproval: the record for changing `exam`'s score to `newScore`;
   * `id` and `now` stand for the key the database assigns and the clock.
   */
  function NewApproval(exam: ExamResult, newScore: int, newComment: Option<string>, reason: string,
                          graderId: int, graderName: string, id: int, now: int): (a: Approval)
    ensures a.status == Pending && a.id == id && a.examResultId == exam.id
    ensures a.oldScore == exam.score && a.newScore == newScore
    ensures a.scoreChange + (if exam.score.Some? then exam.score.value else 0) == newScore
    ensures a.changePercentage.Some? <==> exam.score.Some? && exam.score.value != 0
    ensures a.approverId.None? && a.approvalTime.None? && a.approvalComment.None?
  {
    var oldScore := exam.score;
    var scoreChange := newScore - (if oldScore.Some? then oldScore.value else 0);
    var changePercentage :=
      if oldScore.Some? && oldScore.value != 0 then Some(PercentHundredths(Abs(scoreChange), Abs(oldScore.value)))
      else None;
    Approval(id, exam.id, exam.studentId, "Student-" + IntToString(exam.studentId), exam.paperId, exam.paperName,
      oldScore, newScore, scoreChange, changePercentage,
      exam.comment, newComment, graderId, graderName, reason,
      Pending, now, None, None, None, None)
  }

  /** The percentage recorded on an approval is the one needsApproval compares against its threshold. */
  lemma RecordedPercentageAgrees(cfg: Config, exam: ExamResult, newScore: int, newComment: Option<string>, reason: string,
                                 graderId: int, graderName: string, id: int, now: int)
    requires cfg.approvalEnabled && exam.score.Some? && exam.score.value != 0
    requires Abs(newScore - exam.score.value) < cfg.scoreThreshold
    ensures var a := NewApproval(exam, newScore, newComment, reason, graderId, graderName, id, now);
      NeedsApproval(cfg, exam.score, Some(newScore)) <==> a.changePercentage.value >= cfg.percentageThreshold * 100
  {
  }

  /** The two tables the lifecycle touches. */
  datatype Tables = Tables(approvals: map<int, Approval>, examResults: map<int, ExamResult>)

  datatype Outcome = Outcome(ok: bool, tables: Tables)

  /** approve: a PENDING approval becomes APPROVED and its new score and (non-null) comment are written to the exam result. */
  function ApplyApproval(t: Tables, approvalId: int, approvalComment: Option<string>, approverId: int,
                   approverName: string, now: int): Outcome
  {
    if approvalId !in t.approvals then Outcome(false, t)
    else
      var a := t.approvals[approvalId];
      if a.status != Pending then Outcome(false, t)
      else
        var a' := a.(status := Approved, approverId := Some(approverId), approverName := Some(approverName),
                     approvalComment := approvalComment, approvalTime := Some(now));
        var approvals := t.approvals[approvalId := a'];
        if a.examResultId in t.examResults then
          var e := t.examResults[a.examResultId];
          var e' := e.(score := Some(a.newScore), comment := if a.newComment.Some? then a.newComment else e.comment);
          Outcome(true, Tables(approvals, t.examResults[a.examResultId := e']))
        else Outcome(true, Tables(approvals, t.examResults))
  }

  /** reject: a PENDING approval becomes REJECTED; exam results are not touched. */
  function ApplyRejection(t: Tables, approvalId: int, approvalComment: Option<string>, approverId: int,
                  approverName: string, now: int): Outcome
  {
    if approvalId !in t.approvals then Outcome(false, t)
    else
      var a := t.approvals[approvalId];
      if a.status != Pending then Outcome(false, t)
      else
        var a' := a.(status := Rejected, approverId := Some(approverId), approverName := Some(approverName),
                     approvalComment := approvalComment, approvalTime := Some(now));
        Outcome(true, Tables(t.approvals[approvalId := a'], t.examResults))
  }

  /**
   * approve succeeds exactly on an existing PENDING approval and changes
   * nothing otherwise; on success that approval, and no other, becomes
   * APPROVED with the approver's details, and the exam result it refers to,
   * and no other, now holds the new score.
   */
  lemma ApproveOnlyPending(t: Tables, id: int, c: Option<string>, approver: int, name: string, now: int)
    ensures var o := ApplyApproval(t, id, c, approver, name, now);
      && (o.ok <==> id in t.approvals && t.approvals[id].status == Pending)
      && (!o.ok ==> o.tables == t)
      && (o.ok ==>
            && o.tables.approvals.Keys == t.approvals.Keys
            && o.tables.approvals[id].status == Approved
            && o.tables.approvals[id].approverId == Some(approver)
            && o.tables.approvals[id].newScore == t.approvals[id].newScore
            && (forall k :: k in t.approvals && k != id ==> o.tables.approvals[k] == t.approvals[k])
            && o.tables.examResults.Keys == t.examResults.Keys
            && (var e := t.approvals[id].examResultId;
                && (e in t.examResults ==> o.tables.examResults[e].score == Some(t.approvals[id].newScore))
                && (forall k :: k in t.examResults && k != e ==> o.tables.examResults[k] == t.examResults[k])))
  {
  }

  /** reject succeeds exactly on an existing PENDING approval, makes it REJECTED, and never changes an exam result. */
  lemma RejectOnlyPending(t: Tables, id: int, c: Option<string>, approver: int, name: string, now: int)
    ensures var o := ApplyRejection(t, id, c, approver, name, now);
      && (o.ok <==> id in t.approvals && t.approvals[id].status == Pending)
      && (!o.ok ==> o.tables == t)
      && o.tables.examResults == t.examResults
      && (o.ok ==>
            && o.tables.approvals.Keys == t.approvals.Keys
            && o.tables.approvals[id].status == Rejected
            && o.tables.approvals[id].approverId == Some(approver)
            && (forall k :: k in t.approvals && k != id ==> o.tables.approvals[k] == t.approvals[k]))
  {
  }

  /** A decided approval cannot be decided again: after approval or rejection both approve and reject fail. */
  lemma DecidedOnce(t: Tables, id: int, c: Option<string>, approver: int, name: string, now: int,
                    c2: Option<string>, approver2: int, name2: string, now2: int)
    ensures var o := ApplyApproval(t, id, c, approver, name, now);
      o.ok ==> !ApplyApproval(o.tables, id, c2, approver2, name2, now2).ok && !ApplyRejection(o.tables, id, c2, approver2, name2, now2).ok
    ensures var o := ApplyRejection(t, id, c, approver, name, now);
      o.ok ==> !ApplyApproval(o.tables, id, c2, approver2, name2, now2).ok && !ApplyRejection(o.tables, id, c2, approver2, name2, now2).ok
  {
  }

  // ---------------------------------------------------------------------------
  // Status statistics
  // ---------------------------------------------------------------------------

  /** The map after putting each (status, count) row in order onto `m`; a later row overwrites an earlier one. */
  function PutAll(m: map<string, int>, rows: seq<(string, int)>): (r: map<string, int>)
    ensures m.Keys <= r.Keys
  {
    if rows == [] then m else PutAll(m, rows[..|rows| - 1])[rows[|rows| - 1].0 := rows[|rows| - 1].1]
  }

  const StatisticsBase: map<string, int> := map["PENDING" := 0, "APPROVED" := 0, "REJECTED" := 0]

  /** The statistics for the rows of the count-by-status query: the three statuses from zero, each row put in order, and TOTAL. */
  function Statistics(stats: seq<(string, int)>): (r: map<string, int>)
    ensures "PENDING" in r && "APPROVED" in r && "REJECTED" in r && "TOTAL" in r
  {
    var m := PutAll(StatisticsBase, stats);
    m["TOTAL" := m["PENDING"] + m["APPROVED"] + m["REJECTED"]]
  }

  /** getStatusStatistics over the rows of the count-by-status query. */
  method StatusStatistics(stats: seq<(string, int)>) returns (result: map<string, int>)
    ensures result == Statistics(stats)
  {
    result := map[];
    result := result["PENDING" := 0];
    result := result["APPROVED" := 0];
    result := result["REJECTED" := 0];
    assert result == StatisticsBase;
    for i := 0 to |stats|
      invariant result == PutAll(StatisticsBase, stats[..i])
    {
      assert stats[..i + 1][..i] == stats[..i];
      var (status, count) := stats[i];
      result := result[status := count];
    }
    assert stats[..|stats|] == stats;
    result := result["TOTAL" := result["PENDING"] + result["APPROVED"] + result["REJECTED"]];
  }

  /** Putting at most one more row. */
  lemma PutAllAppend(m: map<string, int>, rows: seq<(string, int)>, more: seq<(string, int)>)
    requires |more| <= 1
    ensures PutAll(m, rows + more) == if more == [] then PutAll(m, rows) else PutAll(m, rows)[more[0].0 := more[0].1]
  {
    if more == [] {
      assert rows + more == rows;
    } else {
      assert (rows + more)[..|rows + more| - 1] == rows;
    }
  }

  /** Whatever rows the query returns, TOTAL is the sum of the three statuses' entries. */
  lemma StatisticsTotal(stats: seq<(string, int)>)
    ensures var r := Statistics(stats); r["TOTAL"] == r["PENDING"] + r["APPROVED"] + r["REJECTED"]
  {
  }

  /** The number of approvals with status `s`. */
  function CountStatus(statuses: seq<Status>, s: Status): (n: nat)
    ensures n <= |statuses|
  {
    if statuses == [] then 0
    else CountStatus(statuses[..|statuses| - 1], s) + (if statuses[|statuses| - 1] == s then 1 else 0)
  }

  /** Every approval has one of the three statuses, so their counts add up to the number of approvals. */
  lemma {:induction false} CountsPartition(statuses: seq<Status>)
    ensures CountStatus(statuses, Pending) + CountStatus(statuses, Approved) + CountStatus(statuses, Rejected) == |statuses|
  {
    if statuses != [] {
      CountsPartition(statuses[..|statuses| - 1]);
    }
  }

  /** The row a GROUP BY status query returns for a status held by `n` approvals: none when n is 0. */
  function CountRow(code: string, n: nat): (row: seq<(string, int)>)
    ensures |row| <= 1
  {
    if n > 0 then [(code, n as int)] else []
  }

  /** The rows of the count-by-status query over the statuses of the approval table. */
  function CountByStatus(statuses: seq<Status>): seq<(string, int)>
  {
    CountRow("PENDING", CountStatus(statuses, Pending))
      + CountRow("APPROVED", CountStatus(statuses, Approved))
      + CountRow("REJECTED", CountStatus(statuses, Rejected))
  }

  /** The statistics of rows giving p pending, a approved and r rejected approvals. */
  lemma StatisticsOfRows(p: nat, a: nat, r: nat)
    ensures var m := Statistics(CountRow("PENDING", p) + CountRow("APPROVED", a) + CountRow("REJECTED", r));
      m["PENDING"] == p && m["APPROVED"] == a && m["REJECTED"] == r && m["TOTAL"] == p + a + r
  {
    var q1, q2, q3 := CountRow("PENDING", p), CountRow("APPROVED", a), CountRow("REJECTED", r);
    assert "PENDING"[0] != "APPROVED"[0] && "PENDING"[0] != "REJECTED"[0] && "APPROVED"[0] != "REJECTED"[0];
    PutAllAppend(StatisticsBase, [], q1);
    assert [] + q1 == q1;
    PutAllAppend(StatisticsBase, q1, q2);
    PutAllAppend(StatisticsBase, q1 + q2, q3);
  }

  /**
   * For the rows the count-by-status query returns, the statistics hold the
   * number of approvals with each status, and TOTAL is the number of
   * approvals.
   */
  lemma StatisticsOfCounts(statuses: seq<Status>)
    ensures var r := Statistics(CountByStatus(statuses));
      && r["PENDING"] == CountStatus(statuses, Pending)
      && r["APPROVED"] == CountStatus(statuses, Approved)
      && r["REJECTED"] == CountStatus(statuses, Rejected)
      && r["TOTAL"] == |statuses|
  {
    StatisticsOfRows(CountStatus(statuses, Pending), CountStatus(statuses, Approved), CountStatus(statuses, Rejected));
    CountsPartition(statuses);
  }

  /** The grading approval service over its two tables; `nextId` stands for the database's key generator. */
  class GradingApprovalService {
    const config: Config
    var approvals: map<int, Approval>
    var examResults: map<int, ExamResult>
    var nextId: int

    function Model(): Tables
      reads this
    {
      Tables(approvals, examResults)
    }

    constructor (cfg: Config, results: map<int, ExamResult>)
      ensures config == cfg && Model() == Tables(map[], results)
    {
      config := cfg;
      approvals := map[];
      examResults := results;
      nextId := 1;
    }

    method CreateApproval(exam: ExamResult, newScore: int, newComment: Option<string>, reason: string,
                          graderId: int, graderName: string, now: int) returns (approval: Approval)
      modifies this
      ensures approval == NewApproval(exam, newScore, newComment, reason, graderId, graderName, old(nextId), now)
      ensures approvals == old(approvals)[old(nextId) := approval]
      ensures examResults == old(examResults) && nextId == old(nextId) + 1
    {
      approval := NewApproval(exam, newScore, newComment, reason, graderId, graderName, nextId, now);
      approvals := approvals[nextId := approval];
      nextId := nextId + 1;
    }

    method Approve(approvalId: int, approvalComment: Option<string>, approverId: int, approverName: string, now: int)
      returns (ok: bool)
      modifies this
      ensures Outcome(ok, Model()) == ApplyApproval(old(Model()), approvalId, approvalComment, approverId, approverName, now)
      ensures nextId == old(nextId)
    {
      if approvalId !in approvals {
        return false;
      }
      var approval := approvals[approvalId];
      if approval.status != Pending {
        return false;
      }
      approval := approval.(status := Approved, approverId := Some(approverId), approverName := Some(approverName),
                            approvalComment := approvalComment, approvalTime := Some(now));
      approvals := approvals[approvalId := approval];
      if approval.examResultId in examResults {
        var examResult := examResults[approval.examResultId];
        examResult := examResult.(score := Some(approval.newScore));
        if approval.newComment.Some? {
          examResult := examResult.(comment := approval.newComment);
        }
        examResults := examResults[approval.examResultId := examResult];
      }
      return true;
    }

    method Reject(approvalId: int, approvalComment: Option<string>, approverId: int, approverName: string, now: int)
      returns (ok: bool)
      modifies this
      ensures Outcome(ok, Model()) == ApplyRejection(old(Model()), approvalId, approvalComment, approverId, approverName, now)
      ensures nextId == old(nextId)
    {
      if approvalId !in approvals {
        return false;
      }
      var approval := approvals[approvalId];
      if approval.status != Pending {
        return false;
      }
      approval := approval.(status := Rejected, approverId := Some(approverId), approverName := Some(approverName),
                            approvalComment := approvalComment, approvalTime := Some(now));
      approvals := approvals[approvalId := approval];
      return true;
    }
  }
}
