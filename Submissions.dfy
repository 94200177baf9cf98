/**
 * The submission record that the judge callbacks and the dispatcher update in place, and the
 * live-update posts they emit (judge/bridge/judgecallback.py, judge/judgeapi.py).
 */
module Submissions {
  import opened Wrappers
  import opened Codes
  import opened Aggregation

  /** The fields of a problem that grading reads. */
  datatype Problem = Problem(
    code: string,
    points: real,
    partial: bool,
    isPublic: bool,
    timeLimit: real,
    memoryLimit: int,
    shortCircuit: bool)

  /** The contest row of a contest submission: its contest and the contest problem's scoring. */
  datatype ContestProblem = ContestProblem(contestId: int, points: real, partial: bool)

  /** Where a live update goes: `sub_<id>`, the `submissions` feed, or `contest_<id>`. */
  datatype Channel = SubmissionChannel(id: int) | SubmissionsFeed | ContestChannel(contestId: int)

  /** The payloads this core publishes (the `type` of each post, with the fields the model keeps). */
  datatype Event =
    | ProcessingEvent
    | GradingBeginEvent
    | TestCaseEvent(position: int, status: CaseStatus, time: real, memory: int, points: real, total: real, output: string)
    | GradingEndEvent(time: real, memory: int, points: real, total: real, result: CaseStatus)
    | CompileErrorEvent(log: string)
    | CompileMessageEvent
    | InternalErrorEvent
    | AbortedEvent
    | UpdateSubmission(state: string)
    | DoneSubmission
    | ContestUpdate
    | Dispatched(newStatus: Status)

  datatype Post = Post(channel: Channel, event: Event)

  /** Every mutable field of a submission at one moment. */
  datatype SubmissionState = SubmissionState(
    status: Status,
    result: Option<ResultCode>,
    error: Option<string>,
    isPretested: bool,
    currentTestcase: int,
    batch: bool,
    time: Option<real>,
    memory: Option<int>,
    points: Option<real>,
    casePoints: real,
    caseTotal: real,
    contestPoints: Option<real>,
    judgedOn: Option<string>,
    cases: seq<TestCase>)

  /** A submission row together with its stored test-case rows. */
  class Submission {
    const id: int
    const problem: Problem
    const language: string
    const source: string
    const contest: Option<ContestProblem>

    var status: Status
    var result: Option<ResultCode>
    var error: Option<string>
    var isPretested: bool
    var currentTestcase: int
    var batch: bool
    var time: Option<real>
    var memory: Option<int>
    var points: Option<real>
    var casePoints: real
    var caseTotal: real
    var contestPoints: Option<real>
    var judgedOn: Option<string>
    var cases: seq<TestCase>

    function State(): SubmissionState
      reads this
    {
      SubmissionState(status, result, error, isPretested, currentTestcase, batch, time, memory, points,
                      casePoints, caseTotal, contestPoints, judgedOn, cases)
    }

    /** A new submission, queued and not yet graded. */
    constructor (id: int, problem: Problem, language: string, source: string, contest: Option<ContestProblem>)
      ensures this.id == id && this.problem == problem && this.language == language
      ensures this.source == source && this.contest == contest
      ensures State() == SubmissionState(Queued, None, None, false, 0, false, None, None, None,
                                         0.0, 0.0, None, None, [])
    {
      this.id, this.problem, this.language, this.source, this.contest := id, problem, language, source, contest;
      status, result, error, isPretested, currentTestcase, batch := Queued, None, None, false, 0, false;
      time, memory, points, casePoints, caseTotal := None, None, None, 0.0, 0.0;
      contestPoints, judgedOn, cases := None, None, [];
    }
  }

  /** Records the outcome of grading end: status D with the aggregate and the awarded points. */
  method RecordGraded(s: Submission, time: real, memory: int, casePoints: real, caseTotal: real,
                      points: real, result: CaseStatus, contestPoints: Option<real>)
    modifies s
    ensures s.State() == old(s.State()).(status := Done, time := Some(time), memory := Some(memory),
                                         casePoints := casePoints, caseTotal := caseTotal, points := Some(points),
                                         result := Some(Graded(result)), contestPoints := contestPoints)
  {
    s.status, s.time, s.memory := Done, Some(time), Some(memory);
    s.casePoints, s.caseTotal, s.points := casePoints, caseTotal, Some(points);
    s.result, s.contestPoints := Some(Graded(result)), contestPoints;
  }

  /** The submission after the reset that precedes dispatch to a judge. */
  function Cleared(before: SubmissionState, contestPretests: Option<bool>): SubmissionState {
    before.(time := None, memory := None, points := None, result := None, error := None,
            isPretested := contestPretests.GetOr(before.isPretested), cases := [])
  }

  /** Clears the result fields and stored cases; a contest row, when present, sets the pretest flag. */
  method ResetForJudging(s: Submission, contestPretests: Option<bool>)
    modifies s
    ensures s.State() == Cleared(old(s.State()), contestPretests)
  {
    s.time, s.memory, s.points, s.result, s.error := None, None, None, None, None;
    if contestPretests.Some? {
      s.isPretested := contestPretests.value;
    }
    s.cases := [];
  }

  /** Sets the status and nothing else. */
  method SetStatus(s: Submission, status: Status)
    modifies s
    ensures s.State() == old(s.State()).(status := status)
  {
    s.status := status;
  }

  /** The post on the submission's own channel, and the feed update when its problem is public. */
  function Announce(s: Submission, event: Event, state: string): (r: seq<Post>)
    ensures |r| == if s.problem.isPublic then 2 else 1
    ensures r[0] == Post(SubmissionChannel(s.id), event)
    ensures s.problem.isPublic ==> r[1] == Post(SubmissionsFeed, UpdateSubmission(state))
  {
    [Post(SubmissionChannel(s.id), event)] +
    (if s.problem.isPublic then [Post(SubmissionsFeed, UpdateSubmission(state))] else [])
  }
}
