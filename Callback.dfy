/**
 * The coordinator side of one judge connection (judge/bridge/judgecallback.py, DjangoJudgeHandler):
 * the handlers of judge packets that move a submission through its states, the grading-end scorer, the
 * live-update rate limiter, the disconnect rule, and the judge registry rows written on connect,
 * disconnect and ping.
 */
module Callback {
  import opened Wrappers
  import opened Codes
  import opened Aggregation
  import opened RateLimit
  import opened Submissions

  /** The submission rows a packet handler may touch: the one with that id, if it exists. */
  function Found(db: map<int, Submission>, id: int): (r: set<Submission>)
    ensures id in db ==> r == {db[id]}
    ensures id !in db ==> r == {}
  {
    if id in db then {db[id]} else {}
  }

  /** The limits a judge grades a submission under (`get_related_submission_data`). */
  datatype Limits = Limits(timeLimit: real, memoryLimit: int, shortCircuit: bool, isPretested: bool)

  /**
   * The problem's time and memory limits, overridden by the language limit for (problem, language)
   * when one exists; no result for an unknown submission.
   */
  function RelatedSubmissionData(db: map<int, Submission>, id: int,
                                 languageLimits: map<(string, string), (real, int)>): (r: Option<Limits>)
    reads db.Values
    ensures r.Some? <==> id in db
    ensures id in db ==>
              var s := db[id];
              var key := (s.problem.code, s.language);
              r.value.shortCircuit == s.problem.shortCircuit && r.value.isPretested == s.isPretested &&
              (key in languageLimits ==> (r.value.timeLimit, r.value.memoryLimit) == languageLimits[key]) &&
              (key !in languageLimits ==> (r.value.timeLimit, r.value.memoryLimit) == (s.problem.timeLimit, s.problem.memoryLimit))
  {
    if id !in db then None
    else
      var s := db[id];
      var (time, memory) := (s.problem.timeLimit, s.problem.memoryLimit);
      var (time', memory') := if (s.problem.code, s.language) in languageLimits
                              then languageLimits[(s.problem.code, s.language)] else (time, memory);
      Some(Limits(time', memory', s.problem.shortCircuit, s.isPretested))
  }

  /**
   * Setting the language limit for `key` changes the data of exactly the submissions of that
   * (problem, language), and for them only the time and memory limits, which become the new ones.
   */
  lemma LanguageLimitOverrides(db: map<int, Submission>, id: int,
                               languageLimits: map<(string, string), (real, int)>, key: (string, string), v: (real, int))
    ensures RelatedSubmissionData(db, id, languageLimits[key := v]) ==
            if id in db && (db[id].problem.code, db[id].language) == key
            then Some(RelatedSubmissionData(db, id, languageLimits).value.(timeLimit := v.0, memoryLimit := v.1))
            else RelatedSubmissionData(db, id, languageLimits)
  {
  }

  /**
   * The submission after grading end with aggregate `a`: done, with the aggregate's time, memory,
   * case points and result, and the problem's (and contest problem's) points awarded by `Score`.
   */
  ghost function AfterGradingEnd(s: Submission, before: SubmissionState, a: Totals): (r: SubmissionState)
    ensures r.status == Done && r.result == Some(Graded(a.result))
    ensures r.time == Some(a.time) && r.memory == Some(a.memory)
    ensures r.casePoints == a.points && r.caseTotal == a.total
    ensures r.points == Some(Score(a.points, a.total, s.problem.points, s.problem.partial))
    ensures r.points.Some? && (!s.problem.partial ==> r.points.value == 0.0 || r.points.value == s.problem.points)
    ensures s.contest.Some? ==> r.contestPoints == Some(Score(a.points, a.total, s.contest.value.points, s.contest.value.partial))
    ensures s.contest.Some? && !s.contest.value.partial ==>
              r.contestPoints.value == 0.0 || r.contestPoints.value == s.contest.value.points
    ensures s.contest.None? ==> r.contestPoints == before.contestPoints
    ensures r.error == before.error && r.isPretested == before.isPretested && r.currentTestcase == before.currentTestcase
    ensures r.batch == before.batch && r.judgedOn == before.judgedOn && r.cases == before.cases
  {
    before.(
      status := Done,
      time := Some(a.time),
      memory := Some(a.memory),
      casePoints := a.points,
      caseTotal := a.total,
      points := Some(Score(a.points, a.total, s.problem.points, s.problem.partial)),
      result := Some(Graded(a.result)),
      contestPoints := if s.contest.Some?
                       then Some(Score(a.points, a.total, s.contest.value.points, s.contest.value.partial))
                       else before.contestPoints)
  }

  /**
   * With every case's points within its total, grading end awards between nothing and the
   * problem's points, and on an all-or-nothing problem exactly one of the two.
   */
  lemma GradedPointsWithinProblem(s: Submission, before: SubmissionState, cs: seq<TestCase>)
    requires forall i :: 0 <= i < |cs| ==> 0.0 <= cs[i].points <= cs[i].total
    requires 0.0 <= s.problem.points
    ensures var after := AfterGradingEnd(s, before, Aggregate(cs));
            && after.points.Some?
            && 0.0 <= after.points.value <= s.problem.points
            && (!s.problem.partial ==> after.points.value == 0.0 || after.points.value == s.problem.points)
  {
    PointsWithinTotal(cs);
  }

  /** The posts of grading end: the result, the contest's update, and the feed's done notice. */
  function GradingEndPosts(s: Submission, a: Totals): (r: seq<Post>)
    ensures |r| == 1 + (if s.contest.Some? then 1 else 0) + (if s.problem.isPublic then 1 else 0)
    ensures r[0] == Post(SubmissionChannel(s.id), GradingEndEvent(a.time, a.memory, a.points, s.problem.points, a.result))
    ensures r[|r| - 1] == Post(SubmissionsFeed, DoneSubmission) <==> s.problem.isPublic
    ensures forall i :: 0 <= i < |r| && r[i].channel.ContestChannel? ==>
              s.contest.Some? && r[i] == Post(ContestChannel(s.contest.value.contestId), ContestUpdate)
    ensures s.contest.Some? ==> 2 <= |r| && r[1] == Post(ContestChannel(s.contest.value.contestId), ContestUpdate)
  {
    [Post(SubmissionChannel(s.id), GradingEndEvent(a.time, a.memory, a.points, s.problem.points, a.result))] +
    (if s.contest.Some? then [Post(ContestChannel(s.contest.value.contestId), ContestUpdate)] else []) +
    (if s.problem.isPublic then [Post(SubmissionsFeed, DoneSubmission)] else [])
  }

  /** One judge connection. */
  class JudgeHandler {
    const name: string
    /** The submission this judge is grading (kept by the connection's base class). */
    var working: Option<int>
    /** `update_counter`: per submission, (updates, last reset). */
    var updateCounter: Counter
    /** The live updates published so far, in order. */
    var posts: seq<Post>

    constructor (name: string)
      ensures this.name == name && working == None && updateCounter == map[] && posts == []
    {
      this.name := name;
      working, updateCounter, posts := None, map[], [];
    }

    /** Connection closed: the submission still being graded becomes IE. */
    method OnClose(db: map<int, Submission>) returns (found: bool)
      modifies if working.Some? then Found(db, working.value) else {}
      ensures found <==> working.Some? ==> working.value in db
      ensures working.Some? && working.value in db ==>
                db[working.value].State() == old(db[working.value].State()).(status := InternalError)
    {
      found := true;
      if working.Some? {
        if working.value in db {
          var s := db[working.value];
          s.status := InternalError;
        } else {
          found := false;
        }
      }
    }

    /** `processing`: status P, graded on this judge when the judge row exists. */
    method OnSubmissionProcessing(db: map<int, Submission>, id: int, judgeExists: bool)
      modifies this`posts, Found(db, id)
      ensures id !in db ==> posts == old(posts)
      ensures id in db ==>
                db[id].State() == old(db[id].State()).(status := Processing,
                                                       judgedOn := if judgeExists then Some(name) else old(db[id].judgedOn)) &&
                posts == old(posts) + Announce(db[id], ProcessingEvent, "processing")
    {
      if id !in db {
        return;
      }
      var s := db[id];
      if judgeExists {
        s.judgedOn := Some(name);
      }
      s.status := Processing;
      posts := posts + Announce(s, ProcessingEvent, "processing");
    }

    /** `grading-begin`: status G, pretested as reported, counter and batch flag reset, old cases deleted. */
    method OnGradingBegin(db: map<int, Submission>, id: int, pretested: bool)
      modifies this`posts, Found(db, id)
      ensures id !in db ==> posts == old(posts)
      ensures id in db ==>
                db[id].State() == old(db[id].State()).(status := Grading, isPretested := pretested,
                                                       currentTestcase := 1, batch := false, cases := []) &&
                posts == old(posts) + Announce(db[id], GradingBeginEvent, "grading-begin")
    {
      if id !in db {
        return;
      }
      var s := db[id];
      s.status := Grading;
      s.isPretested := pretested;
      s.currentTestcase := 1;
      s.batch := false;
      s.cases := [];
      posts := posts + Announce(s, GradingBeginEvent, "grading-begin");
    }

    /** `_submission_is_batch`: marks the submission as batched; false when the row is missing. */
    method SubmissionIsBatch(db: map<int, Submission>, id: int) returns (found: bool)
      modifies Found(db, id)
      ensures found <==> id in db
      ensures id in db ==> db[id].State() == old(db[id].State()).(batch := true)
    {
      found := id in db;
      if found {
        db[id].batch := true;
      }
    }

    /** `grading-end`: aggregates the stored cases, scores them and marks the submission done. */
    method OnGradingEnd(db: map<int, Submission>, id: int)
      modifies this`posts, Found(db, id)
      ensures id !in db ==> posts == old(posts)
      ensures id in db ==>
                db[id].State() == AfterGradingEnd(db[id], old(db[id].State()), Aggregate(old(db[id].cases))) &&
                posts == old(posts) + GradingEndPosts(db[id], Aggregate(old(db[id].cases)))
    {
      if id !in db {
        return;
      }
      var s := db[id];
      var a := AggregateCases(s.cases);
      var subPoints := Score(a.points, a.total, s.problem.points, s.problem.partial);
      var contestPoints := s.contestPoints;
      if s.contest.Some? {
        contestPoints := Some(Score(a.points, a.total, s.contest.value.points, s.contest.value.partial));
      }
      RecordGraded(s, a.time, a.memory, a.points, a.total, subPoints, a.result, contestPoints);
      posts := posts + GradingEndPosts(s, a);
    }

    /** `compile-error`: status and result CE, the log kept as the error. */
    method OnCompileError(db: map<int, Submission>, id: int, log: string)
      modifies this`posts, Found(db, id)
      ensures id !in db ==> posts == old(posts)
      ensures id in db ==>
                db[id].State() == old(db[id].State()).(status := CompileError, result := Some(CompileFailed), error := Some(log)) &&
                posts == old(posts) + Announce(db[id], CompileErrorEvent(log), "compile-error")
    {
      if id !in db {
        return;
      }
      var s := db[id];
      s.status, s.result := CompileError, Some(CompileFailed);
      s.error := Some(log);
      posts := posts + Announce(s, CompileErrorEvent(log), "compile-error");
    }

    /** `compile-message`: only the error text changes. */
    method OnCompileMessage(db: map<int, Submission>, id: int, log: string)
      modifies this`posts, Found(db, id)
      ensures id !in db ==> posts == old(posts)
      ensures id in db ==>
                db[id].State() == old(db[id].State()).(error := Some(log)) &&
                posts == old(posts) + [Post(SubmissionChannel(db[id].id), CompileMessageEvent)]
    {
      if id !in db {
        return;
      }
      var s := db[id];
      s.error := Some(log);
      posts := posts + [Post(SubmissionChannel(s.id), CompileMessageEvent)];
    }

    /** `internal-error`: status and result IE, the message kept as the error. */
    method OnInternalError(db: map<int, Submission>, id: int, message: string)
      modifies this`posts, Found(db, id)
      ensures id !in db ==> posts == old(posts)
      ensures id in db ==>
                db[id].State() == old(db[id].State()).(status := InternalError, result := Some(InternalFailure), error := Some(message)) &&
                posts == old(posts) + Announce(db[id], InternalErrorEvent, "internal-error")
    {
      if id !in db {
        return;
      }
      var s := db[id];
      s.status, s.result := InternalError, Some(InternalFailure);
      s.error := Some(message);
      posts := posts + Announce(s, InternalErrorEvent, "internal-error");
    }

    /** `submission-terminated`: status and result AB; published only for a public problem. */
    method OnSubmissionTerminated(db: map<int, Submission>, id: int)
      modifies this`posts, Found(db, id)
      ensures id !in db ==> posts == old(posts)
      ensures id in db ==>
                db[id].State() == old(db[id].State()).(status := Aborted, result := Some(AbortedResult)) &&
                posts == old(posts) + (if db[id].problem.isPublic
                                       then [Post(SubmissionChannel(db[id].id), AbortedEvent),
                                             Post(SubmissionsFeed, UpdateSubmission("terminated"))]
                                       else [])
    {
      if id !in db {
        return;
      }
      var s := db[id];
      s.status, s.result := Aborted, Some(AbortedResult);
      if s.problem.isPublic {
        posts := posts + [Post(SubmissionChannel(s.id), AbortedEvent), Post(SubmissionsFeed, UpdateSubmission("terminated"))];
      }
    }

    /**
     * `test-case`: stores the decoded case under the current batch (if any), moves the case
     * counter past it, and publishes it unless the rate limiter drops it.
     */
    method OnTestCase(db: map<int, Submission>, id: int, position: int, mask: nat, time: real, memory: int,
                      points: real, total: real, feedback: Option<string>, output: string,
                      inBatch: bool, batchId: int, now: real)
      returns (published: bool)
      modifies this`posts, this`updateCounter, Found(db, id)
      ensures id !in db ==> posts == old(posts) && updateCounter == old(updateCounter) && !published
      ensures id in db ==>
                var s := db[id];
                var c := TestCase(position, DecodeStatus(mask), time, memory, points, total,
                                  if inBatch then Some(batchId) else None, feedback.GetOr(""), output);
                s.State() == old(s.State()).(currentTestcase := position + 1, cases := old(s.cases) + [c]) &&
                (updateCounter, published) == Throttle(old(updateCounter), s.id, now) &&
                posts == old(posts) + (if published
                                       then Announce(s, TestCaseEvent(position, c.status, time, memory, points, total, output), "test-case")
                                       else [])
    {
      published := false;
      if id !in db {
        return;
      }
      var s := db[id];
      var c := TestCase(position, DecodeStatus(mask), time, memory, points, total,
                        if inBatch then Some(batchId) else None, feedback.GetOr(""), output);
      s.currentTestcase := position + 1;
      s.cases := s.cases + [c];

      published := true;
      if s.id in updateCounter {
        var (cnt, reset) := updateCounter[s.id];
        cnt := cnt + 1;
        if now - reset > UpdateRateTime {
          updateCounter := updateCounter - {s.id};
        } else {
          updateCounter := updateCounter[s.id := (cnt, reset)];
          if cnt > UpdateRateLimit {
            published := false;
          }
        }
      }
      if s.id !in updateCounter {
        updateCounter := updateCounter[s.id := (1, now)];
      }

      if published {
        posts := posts + Announce(s, TestCaseEvent(position, c.status, time, memory, points, total, output), "test-case");
      }
    }
  }

  // -----------------------------------------------------------------------------------------------
  // The judge registry: judge rows and their runtime versions.

  datatype JudgeRecord = JudgeRecord(
    authKey: string,
    online: bool,
    startTime: int,
    problems: set<string>,
    runtimes: set<string>,
    lastIp: string,
    ping: real,
    load: real)

  /** One RuntimeVersion row: a judge's executor for a language, with its priority. */
  datatype RuntimeVersion = RuntimeVersion(judge: string, language: string, name: string, version: string, priority: nat)

  function Digit(d: nat): (c: char)
    requires d < 10
    ensures '0' <= c <= '9' && c as int - '0' as int == d
  {
    ('0' as int + d) as char
  }

  /** The number a string of decimal digits denotes. */
  function Value(s: string): (n: nat)
    requires forall c :: c in s ==> '0' <= c <= '9'
    decreases |s|
  {
    if s == [] then 0
    else
      var init := s[..|s| - 1];
      assert forall c :: c in init ==> c in s;
      assert s[|s| - 1] in s;
      Value(init) * 10 + (s[|s| - 1] as int - '0' as int)
  }

  function Decimal(n: nat): (r: string)
    ensures r != [] && forall c :: c in r ==> '0' <= c <= '9'
    decreases n
  {
    if n < 10 then [Digit(n)] else Decimal(n / 10) + [Digit(n % 10)]
  }

  /** `str(n)` denotes `n`. */
  lemma {:induction false} DecimalValue(n: nat)
    ensures Value(Decimal(n)) == n
    decreases n
  {
    if n >= 10 {
      DecimalValue(n / 10);
      var d := Decimal(n / 10) + [Digit(n % 10)];
      assert d[..|d| - 1] == Decimal(n / 10);
    }
  }

  /** `'.'.join(map(str, version))`: the decimal of each component, one dot between two. */
  function VersionString(v: seq<nat>): (r: string)
    ensures forall c :: c in r ==> c == '.' || '0' <= c <= '9'
    ensures |v| == 1 ==> r == Decimal(v[0])
    decreases |v|
  {
    if v == [] then ""
    else
      var head := Decimal(v[0]);
      if |v| == 1 then head else head + "." + VersionString(v[1..])
  }

  /** Joining `|v|` components puts exactly `|v| - 1` dots in the string. */
  lemma {:induction false} VersionDots(v: seq<nat>)
    ensures multiset(VersionString(v))['.'] == if v == [] then 0 else |v| - 1
    decreases |v|
  {
    if v != [] {
      var head := Decimal(v[0]);
      assert multiset(head)['.'] == 0 by { assert '.' !in head; }
      if |v| > 1 {
        VersionDots(v[1..]);
        assert VersionString(v) == head + "." + VersionString(v[1..]);
      }
    }
  }

  /**
   * The join read from the other end: the string of all components but the last, a dot, and
   * the decimal of the last one.
   */
  lemma {:induction false} VersionJoin(v: seq<nat>)
    requires |v| >= 2
    ensures VersionString(v) == VersionString(v[..|v| - 1]) + "." + Decimal(v[|v| - 1])
    decreases |v|
  {
    var init, tail, last := v[..|v| - 1], v[1..], Decimal(v[|v| - 1]);
    var head := Decimal(v[0]);
    assert VersionString(v) == head + "." + VersionString(tail);
    if |v| > 2 {
      VersionJoin(tail);
      assert tail[..|tail| - 1] == init[1..] && tail[|tail| - 1] == v[|v| - 1];
      assert VersionString(tail) == VersionString(init[1..]) + "." + last;
      assert init[0] == v[0];
      assert VersionString(init) == head + "." + VersionString(init[1..]);
    } else {
      assert VersionString(tail) == last;
      assert VersionString(init) == head;
    }
  }

  /** Version (3, 10) is stored as "3.10". */
  lemma VersionExample()
    ensures VersionString([3, 10]) == "3.10"
  {
    assert [3, 10][1..] == [10];
    assert Decimal(10) == Decimal(1) + [Digit(0)];
  }

  /** Row `r` is the entry of `judge` at position `r.priority` of the executor list of one of `langs`. */
  ghost predicate Declared(r: RuntimeVersion, judge: string, langs: set<string>,
                           executors: map<string, seq<(string, seq<nat>)>>)
  {
    r.judge == judge && r.language in langs && r.language in executors &&
    r.priority < |executors[r.language]| &&
    r.name == executors[r.language][r.priority].0 &&
    r.version == VersionString(executors[r.language][r.priority].1)
  }

  /** The runtime-version rows of every judge but `judge`, in their order. */
  function WithoutJudge(rows: seq<RuntimeVersion>, judge: string): (r: seq<RuntimeVersion>)
    ensures forall x :: x in r <==> x in rows && x.judge != judge
    ensures |r| <= |rows|
  {
    if rows == [] then []
    else (if rows[0].judge == judge then [] else [rows[0]]) + WithoutJudge(rows[1..], judge)
  }

  /** No runtime-version row occurs twice. */
  predicate Distinct(rows: seq<RuntimeVersion>) {
    forall i, j :: 0 <= i < j < |rows| ==> rows[i] != rows[j]
  }

  /**
   * Appending the rows of one more language `lang` to the rows declared for `done` gives, each
   * once, the rows declared for `done` and `lang` together.
   */
  lemma AppendDeclared(added: seq<RuntimeVersion>, rows: seq<RuntimeVersion>, judge: string, done: set<string>,
                       lang: string, executors: map<string, seq<(string, seq<nat>)>>)
    requires lang !in done
    requires forall r :: r in added <==> Declared(r, judge, done, executors)
    requires forall r :: r in rows <==> Declared(r, judge, {lang}, executors)
    requires Distinct(added)
    requires forall p :: 0 <= p < |rows| ==> rows[p].priority == p
    ensures forall r :: r in added + rows <==> Declared(r, judge, done + {lang}, executors)
    ensures Distinct(added + rows)
  {
    var all := added + rows;
    forall i, j | 0 <= i < j < |all|
      ensures all[i] != all[j]
    {
      if j < |added| {
        assert all[i] == added[i] && all[j] == added[j];
      } else if i < |added| {
        assert all[j] == rows[j - |added|] && all[j] in rows;
        assert all[i] == added[i] && all[i] in added;
      } else {
        assert all[i] == rows[i - |added|] && all[j] == rows[j - |added|];
      }
    }
  }

  /** The runtime-version rows of one language: one per executor entry, its position as priority. */
  method DeclaredRows(judge: string, lang: string, executors: map<string, seq<(string, seq<nat>)>>)
    returns (rows: seq<RuntimeVersion>)
    requires lang in executors
    ensures |rows| == |executors[lang]|
    ensures forall r :: r in rows <==> Declared(r, judge, {lang}, executors)
    ensures forall p :: 0 <= p < |rows| ==> rows[p].priority == p
  {
    var entries := executors[lang];
    rows := [];
    for idx := 0 to |entries|
      invariant |rows| == idx
      invariant forall p :: 0 <= p < idx ==>
                  rows[p] == RuntimeVersion(judge, lang, entries[p].0, VersionString(entries[p].1), p)
    {
      var (executor, version) := entries[idx];
      rows := rows + [RuntimeVersion(judge, lang, executor, VersionString(version), idx)];
    }
    forall r
      ensures r in rows <==> Declared(r, judge, {lang}, executors)
    {
      if Declared(r, judge, {lang}, executors) {
        assert rows[r.priority] == r;
      }
    }
  }

  class Registry {
    /** The Judge rows, by name. */
    var judges: map<string, JudgeRecord>
    /** The RuntimeVersion rows. */
    var versions: seq<RuntimeVersion>
    /** The codes of the existing problems and the keys of the existing languages. */
    const problemCodes: set<string>
    const languageKeys: set<string>

    constructor (judges: map<string, JudgeRecord>, problemCodes: set<string>, languageKeys: set<string>)
      ensures this.judges == judges && versions == []
      ensures this.problemCodes == problemCodes && this.languageKeys == languageKeys
    {
      this.judges, versions := judges, [];
      this.problemCodes, this.languageKeys := problemCodes, languageKeys;
    }

    /** `_authenticate`: the judge exists and its key matches exactly. */
    function Authenticate(id: string, key: string): (ok: bool)
      reads this
      ensures ok <==> id in judges && judges[id].authKey == key
    {
      id in judges && judges[id].authKey == key
    }

    /** A judge is let in by one key only. */
    lemma KeyIsUnique(id: string, key: string, other: string)
      requires Authenticate(id, key) && Authenticate(id, other)
      ensures key == other
    {
    }

    /**
     * `_connected`: the judge goes online with the known problems and languages it declares, and
     * each executor of each such language gets a runtime-version row whose priority is its
     * position in the declared list.
     */
    method Connected(name: string, now: int, address: string, problems: set<string>,
                     executors: map<string, seq<(string, seq<nat>)>>)
      requires name in judges
      modifies this`judges, this`versions
      ensures judges == old(judges)[name := old(judges[name]).(startTime := now, online := true,
                                                               problems := problems * problemCodes,
                                                               runtimes := executors.Keys * languageKeys,
                                                               lastIp := address)]
      ensures |old(versions)| <= |versions| && versions[..|old(versions)|] == old(versions)
      ensures forall r :: r in versions <==> r in old(versions) || Declared(r, name, executors.Keys * languageKeys, executors)
      ensures forall r :: r in versions[|old(versions)|..] <==> Declared(r, name, executors.Keys * languageKeys, executors)
      ensures Distinct(versions[|old(versions)|..])
      ensures forall id, key :: Authenticate(id, key) == old(Authenticate(id, key))
    {
      var langs := executors.Keys * languageKeys;
      var todo := langs;
      while todo != {}
        invariant todo <= langs && judges == old(judges)
        invariant |old(versions)| <= |versions| && versions[..|old(versions)|] == old(versions)
        invariant forall r :: r in versions <==> r in old(versions) || Declared(r, name, langs - todo, executors)
        invariant forall r :: r in versions[|old(versions)|..] <==> Declared(r, name, langs - todo, executors)
        invariant Distinct(versions[|old(versions)|..])
        decreases todo
      {
        var lang :| lang in todo;
        var rows := DeclaredRows(name, lang, executors);
        AppendDeclared(versions[|old(versions)|..], rows, name, langs - todo, lang, executors);
        assert (versions + rows)[|old(versions)|..] == versions[|old(versions)|..] + rows;
        assert langs - (todo - {lang}) == (langs - todo) + {lang};
        versions := versions + rows;
        todo := todo - {lang};
      }
      judges := judges[name := judges[name].(startTime := now, online := true, problems := problems * problemCodes,
                                             runtimes := langs, lastIp := address)];
    }

    /** `_disconnected`: the judge goes offline and every one of its runtime-version rows is deleted. */
    method Disconnected(name: string)
      modifies this`judges, this`versions
      ensures judges == if name in old(judges) then old(judges)[name := old(judges[name]).(online := false)] else old(judges)
      ensures versions == WithoutJudge(old(versions), name)
      ensures forall r :: r in versions ==> r.judge != name
      ensures forall id, key :: Authenticate(id, key) == old(Authenticate(id, key))
    {
      if name in judges {
        judges := judges[name := judges[name].(online := false)];
      }
      versions := WithoutJudge(versions, name);
    }

    /** `_update_ping`: records the judge's latency and load. */
    method UpdatePing(name: string, latency: real, load: real)
      modifies this`judges
      ensures judges == if name in old(judges) then old(judges)[name := old(judges[name]).(ping := latency, load := load)] else old(judges)
      ensures forall id, key :: Authenticate(id, key) == old(Authenticate(id, key))
    {
      if name in judges {
        judges := judges[name := judges[name].(ping := latency, load := load)];
      }
    }

    /** `supported-problems`: the judge's problems become the known ones among those it declares. */
    method OnSupportedProblems(name: string, problems: set<string>)
      requires name in judges
      modifies this`judges
      ensures judges == old(judges)[name := old(judges[name]).(problems := problems * problemCodes)]
      ensures forall id, key :: Authenticate(id, key) == old(Authenticate(id, key))
    {
      judges := judges[name := judges[name].(problems := problems * problemCodes)];
    }
  }
}
