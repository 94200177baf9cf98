# Judge bridge, judge dispatch and contest views — a Dafny model

This project models the coordinator side of an online judge. It covers three parts.

- **The judge connection handler** (`DjangoJudgeHandler`). A judge sends packets over its
  connection, and the handler moves the submission through its states: processing, grading,
  done, compile error, internal error, aborted.
  - It stores each test case, decoding the judge's status bitmask into a verdict.
  - It throttles the live updates: at most 5 per half second per submission.
  - At grading end it aggregates the stored cases. Standalone cases are summed. A batch adds
    the minimum of its points and the maximum of its totals. Time is summed, and memory and
    verdict severity are maximised. The points are then awarded in proportion, or
    all-or-nothing.
  - It keeps the judge registry: the judge's row and its runtime-version rows, written on
    connect, disconnect, ping and supported-problem updates.
- **Dispatch to the judges** (`judge_request`, `judge_submission`, `abort_submission`).
  - Requests and replies are framed by a 4-byte big-endian length. An empty read means the
    judge did not respond.
  - `judge_submission` resets the submission's result fields. It takes the pretest flag from
    the contest row when there is one. It sets QU or IE from the reply and reports whether the
    request went through.
- **The contest pages.**
  - The past/present/future split of the contest list, with the future list sorted by start.
  - Calendar month navigation and its 404 range check.
  - The calendar's one-day, start-day and end-day buckets.
  - The state of a ranking cell.
  - Joining and leaving a contest.

Objects the source updates in place are classes: a submission (`Submissions.Submission`), a
judge connection (`Callback.JudgeHandler`), the judge tables (`Callback.Registry`) and a user
profile (`Contests.Profile`). Their methods state the whole new state. Each handler method's
`ensures` ties the new state to a specification function. That function's properties are
proved as lemmas: order independence and the min/max meaning of the aggregate, the burst
behaviour of the limiter, and round trips of the framing.

Inputs the handlers read from elsewhere are parameters:
- the submission rows (`db: map<int, Submission>`);
- the current time;
- the judge's batch state (`in_batch`, `batch_id`);
- whether the judge row exists;
- the language limits;
- the coordinator's response bytes;
- the JSON/zlib codec.

## Model

| member | source | states |
|---|---|---|
| Codes.Severity | judge/bridge/judgecallback.py:154-169 | a verdict's index is its position in the severity list `status_codes` |
| Codes.DecodeStatus | judge/bridge/judgecallback.py:301-317 | the verdict is AC or the verdict of a bit of the priority list that is set in the mask |
| Codes.FirstSetBit | judge/bridge/judgecallback.py:302-317 | the first bit of the priority list TLE, MLE, OLE, RTE, IR, WA, SC that is set; every earlier bit is clear |
| Codes.DecodeFollowsPriority | judge/bridge/judgecallback.py:302-317 | the decoded verdict is that of the highest-priority set bit; AC exactly when none of the seven bits is set |
| Codes.TimeLimitBeatsWrongAnswer | judge/bridge/judgecallback.py:302-313 | a mask with both the TLE and WA bits decodes to TLE |
| Aggregation.Fold | judge/bridge/judgecallback.py:149-171 | the loop's worst-status index always lies inside `status_codes` |
| Aggregation.AggregateCases | judge/bridge/judgecallback.py:149-175 | the two loops of grading end compute exactly the aggregate of the stored cases |
| Aggregation.SumBatchesRemove | judge/bridge/judgecallback.py:173-175 | the sum over the batches is the same whichever batch is added first |
| Aggregation.MergeCommutes | judge/bridge/judgecallback.py:159-167 | folding two cases into the batch map gives the same map in either order |
| Aggregation.StepCommutes | judge/bridge/judgecallback.py:157-171 | one loop iteration per case: two cases read in either order leave the same loop variables |
| Aggregation.FoldSwap | judge/bridge/judgecallback.py:157-171 | swapping two adjacent cases does not change the loop's result |
| Aggregation.FoldMoveLast | judge/bridge/judgecallback.py:157-171 | moving any one case to the end does not change the loop's result |
| Aggregation.FoldPermutation | judge/bridge/judgecallback.py:157-171 | any two orderings of the same cases give the same loop variables |
| Aggregation.AggregateOrderIndependent | judge/bridge/judgecallback.py:157-175 | the time, memory, points, total and result of grading end do not depend on the order the database returns the cases in |
| Aggregation.BatchesPresent | judge/bridge/judgecallback.py:159-167 | a batch number has an entry exactly when some case of that batch (batch not 0 or None) was read |
| Aggregation.BatchesAreBounds | judge/bridge/judgecallback.py:163-167 | a batch's entry is at most the points and at least the total of each of its cases |
| Aggregation.BatchesAreMinMax | judge/bridge/judgecallback.py:163-167 | a batch's points and total are each attained by one of its cases, so with the bounds they are the minimum and the maximum |
| Aggregation.MemoryIsMaximum | judge/bridge/judgecallback.py:150-168 | memory is the largest case memory, or 0 with no cases |
| Aggregation.StatusIsWorst | judge/bridge/judgecallback.py:153-171 | the status index is the highest severity among the cases, or SC's with no cases |
| Aggregation.NoCasesGiveShortCircuit | judge/bridge/judgecallback.py:149-175 | with no stored cases the result is SC with zero time, memory, points and total |
| Aggregation.PointsWithinTotal | judge/bridge/judgecallback.py:157-175 | case points within their totals keep the aggregate points within the aggregate total |
| Aggregation.Score | judge/bridge/judgecallback.py:182-184 | with partial credit, points in proportion to the case points when the total is positive; 0 when the total is not positive; without partial credit 0 unless the proportional value is exactly the full points; a perfect run gives the full points; between 0 and the full points for valid cases |
| Aggregation.AllOrNothingExamples | judge/bridge/judgecallback.py:182-184 | 9.5 of 10 on an all-or-nothing problem worth 10 gives 0; 10 of 10 gives 10 |
| Aggregation.BatchExample | judge/bridge/judgecallback.py:163-167 | a batch of cases scoring 3/5 and 5/5 contributes 3 of 5, in either order |
| RateLimit.Throttle | judge/bridge/judgecallback.py:329-341 | an expired or missing counter restarts at (1, now) and publishes; inside the window the count goes up and publishes only up to 5; other submissions' counters are untouched |
| RateLimit.WithinWindow | judge/bridge/judgecallback.py:331-339 | inside one window the i-th further packet is published exactly when the running count stays within 5 |
| RateLimit.Burst | judge/bridge/judgecallback.py:329-341 | a burst within half a second of its first packet publishes exactly its first five packets |
| RateLimit.SevenThenOne | judge/bridge/judgecallback.py:329-341 | seven packets within half a second publish five; a packet after the window resets the counter and is published |
| Submissions.RecordGraded | judge/bridge/judgecallback.py:179-190 | grading end writes status D, time, memory, case points and total, points, result and contest points, and nothing else |
| Submissions.ResetForJudging | judge/judgeapi.py:44-57 | time, memory, points, result and error are cleared and the stored cases deleted; the pretest flag changes only when a contest row exists |
| Submissions.Announce | judge/bridge/judgecallback.py:105-112 | the event on the submission's channel first, then, exactly when the problem is public, the feed's update of the submission's state |
| Callback.RelatedSubmissionData | judge/bridge/judgecallback.py:42-55 | the language limit for (problem, language) overrides the problem's limits when it exists; short-circuit and pretest flags come from the rows |
| Callback.LanguageLimitOverrides | judge/bridge/judgecallback.py:42-55 | setting the language limit of one (problem, language) changes the time and memory limits of exactly that pair's submissions, to the new limit, and nothing else |
| Callback.AfterGradingEnd | judge/bridge/judgecallback.py:179-200 | grading end marks the submission done with the aggregate's verdict, time, memory, case points and case total, awards the `Score` of the aggregate as problem points (and as contest points when in a contest), and keeps the fields grading end does not write |
| Callback.GradingEndPosts | judge/bridge/judgecallback.py:202-221 | exactly one to three posts: the result post with the aggregate's time, memory, points, the problem's points and the verdict goes first on the submission's channel, a contest update follows exactly for a contest submission, and the feed's done notice comes last exactly for a public problem |
| Callback.GradedPointsWithinProblem | judge/bridge/judgecallback.py:179-190 | with case points within case totals the awarded points lie between 0 and the problem's points, and are one of the two on an all-or-nothing problem |
| Callback.JudgeHandler.constructor | judge/bridge/judgecallback.py:29-33 | a new connection has an empty update counter and nothing published |
| Callback.JudgeHandler.OnClose | judge/bridge/judgecallback.py:35-40 | closing a connection turns the submission being graded into IE and changes nothing else |
| Callback.JudgeHandler.OnSubmissionProcessing | judge/bridge/judgecallback.py:92-112 | unknown id: nothing happens; otherwise status P, judged on this judge when its row exists, and the processing posts |
| Callback.JudgeHandler.OnGradingBegin | judge/bridge/judgecallback.py:114-134 | status G, pretest flag as reported, current case 1, batch flag off, stored cases deleted, grading-begin posts |
| Callback.JudgeHandler.SubmissionIsBatch | judge/bridge/judgecallback.py:136-139 | only the batch flag is set |
| Callback.JudgeHandler.OnGradingEnd | judge/bridge/judgecallback.py:141-221 | the submission becomes the aggregate of its stored cases, scored for the problem and for the contest problem; result, contest update and done posts follow |
| Callback.JudgeHandler.OnCompileError | judge/bridge/judgecallback.py:223-241 | status and result CE, the log becomes the error, compile-error posts |
| Callback.JudgeHandler.OnCompileMessage | judge/bridge/judgecallback.py:243-254 | only the error text changes; one post on the submission's channel |
| Callback.JudgeHandler.OnInternalError | judge/bridge/judgecallback.py:256-273 | status and result IE, the message becomes the error, internal-error posts |
| Callback.JudgeHandler.OnSubmissionTerminated | judge/bridge/judgecallback.py:275-291 | status and result AB; both posts only for a public problem |
| Callback.JudgeHandler.OnTestCase | judge/bridge/judgecallback.py:293-358 | the decoded case is appended under the current batch, the case counter moves past it, the counter follows the limiter, and the case is published exactly when the limiter allows |
| Callback.VersionString | judge/bridge/judgecallback.py:74 | the version is written in digits and dots; one component is its decimal |
| Callback.DecimalValue | judge/bridge/judgecallback.py:74 | the decimal string of a component denotes that component |
| Callback.VersionDots | judge/bridge/judgecallback.py:74 | `n` components are joined with exactly `n - 1` dots |
| Callback.VersionJoin | judge/bridge/judgecallback.py:74 | the string of two or more components is the string of all but the last, a dot, and the decimal of the last |
| Callback.VersionExample | judge/bridge/judgecallback.py:74 | version (3, 10) becomes "3.10" |
| Callback.DeclaredRows | judge/bridge/judgecallback.py:71-76 | one row per executor entry of the language, exactly the declared ones, with its list position as priority |
| Callback.AppendDeclared | judge/bridge/judgecallback.py:70-77 | adding one more language's rows keeps the new rows exactly the declared ones, each once |
| Callback.WithoutJudge | judge/bridge/judgecallback.py:80-82 | the runtime rows left are exactly those of other judges |
| Callback.Registry.Authenticate | judge/bridge/judgecallback.py:57-62 | accepted exactly when the judge exists and its key matches; connecting, disconnecting, pings and supported-problem updates never change which (judge, key) pairs are accepted |
| Callback.Registry.KeyIsUnique | judge/bridge/judgecallback.py:57-62 | a judge is accepted under one key only |
| Callback.Registry.Connected | judge/bridge/judgecallback.py:64-78 | the judge is online with its start time, address and the known problems and languages it declares; the appended runtime rows are exactly its declared executors, each once, with its list position as priority; the old rows stay in front; authentication is unchanged |
| Callback.Registry.Disconnected | judge/bridge/judgecallback.py:80-82 | the judge goes offline and none of its runtime rows remain; authentication is unchanged |
| Callback.Registry.UpdatePing | judge/bridge/judgecallback.py:84-86 | only the judge's ping and load change; authentication is unchanged |
| Callback.Registry.OnSupportedProblems | judge/bridge/judgecallback.py:360-365 | the judge's problems become the known ones among those declared; authentication is unchanged |
| Framing.Pack | judge/judgeapi.py:11-21 | a length packs to 4 bytes exactly when it is below 2^32 |
| Framing.Unpack | judge/judgeapi.py:27-30 | exactly 4 bytes unpack, to a number below 2^32 |
| Framing.UnpackPack | judge/judgeapi.py:21-30 | unpacking a packed length gives it back |
| Framing.PackUnpack | judge/judgeapi.py:21-30 | every 4-byte prefix is what packing the length it unpacks to gives |
| Framing.Frame | judge/judgeapi.py:18-22 | a frame is the 4-byte length followed by the payload |
| Framing.ReadReply | judge/judgeapi.py:25-33 | an empty stream is no response; a reply read is a non-empty slice after the prefix, no longer than the announced length |
| Framing.ReadFrame | judge/judgeapi.py:20-33 | a framed non-empty payload reads back as itself whatever follows it |
| Framing.EmptyFrameIsNoResponse | judge/judgeapi.py:31-33 | a frame announcing zero bytes reads as no response |
| JudgeApi.JudgeRequest | judge/judgeapi.py:14-39 | an unreachable judge is an error; success sends the framed request and has a reply exactly when one was asked for; an empty response is no response |
| JudgeApi.RequestRoundTrip | judge/judgeapi.py:14-39 | a judge answering with a framed, decodable reply is heard with that reply |
| JudgeApi.AbortSubmission | judge/judgeapi.py:84-85 | a terminate request that succeeds exactly when the judge is reachable, and reads no reply |
| JudgeApi.AbortReadsNothing | judge/judgeapi.py:84-85 | aborting does not depend on what the judge would answer |
| JudgeApi.Acknowledge | judge/judgeapi.py:72-73 | QU exactly for `submission-received` with this submission's id; IE for any other name or id; a missing field raises |
| JudgeApi.JudgeSubmission | judge/judgeapi.py:42-81 | after the reset, a failed request gives IE and false; a reply gives QU or IE, a feed post for a public problem, and true; a missing reply field raises |
| Contests.PhaseOf | judge/views/contests.py:72-78 | past exactly when ended before now, future exactly when not ended and starting after now, present exactly when now lies in [start, end] |
| Contests.Having | judge/views/contests.py:71-78 | every contest in a phase's list is in that phase, and the list is no longer than the input |
| Contests.HavingMembers | judge/views/contests.py:71-79 | a contest is in a phase's list exactly when it is in the input and in that phase |
| Contests.PartitionIsExact | judge/views/contests.py:71-79 | past, present and future together are the input, each contest exactly once |
| Contests.InsertByStart | judge/views/contests.py:79 | insertion adds exactly the one contest |
| Contests.InsertKeepsOrder | judge/views/contests.py:79 | inserting into a list sorted by start keeps it sorted |
| Contests.SortByStart | judge/views/contests.py:79 | the result is sorted by start and is a permutation of the input |
| Contests.PartitionContests | judge/views/contests.py:68-85 | the one-pass split gives the past and present lists in input order and the future list sorted by start |
| Contests.BeforeIsIndexOrder | judge/views/contests.py:261-265 | the (year, month) tuple order is the order of month numbers |
| Contests.PrevMonth | judge/views/contests.py:272 | the previous month is numbered 1 to 12 and is exactly one month earlier (December of the year before January) |
| Contests.NextMonth | judge/views/contests.py:277 | the next month is numbered 1 to 12 and is exactly one month later (January of the year after December) |
| Contests.NavigationRoundTrip | judge/views/contests.py:271-279 | next of previous and previous of next are the month itself |
| Contests.MonthView | judge/views/contests.py:252-280 | a page exists exactly for a valid date between the first contest month and the later of the last contest month and today; prev is absent exactly at the first month, next exactly at the last |
| Contests.NavigationStaysInRange | judge/views/contests.py:261-279 | following prev or next never leads to a 404 |
| Contests.Window | judge/views/contests.py:229-231 | the contests kept are exactly those starting or ending in the displayed days |
| Contests.Push | judge/views/contests.py:236-240 | appending to a day leaves every other day unchanged |
| Contests.ContestBuckets | judge/views/contests.py:228-241 | the loop's buckets are the bucketing of the contests in the window |
| Contests.Place | judge/views/contests.py:234-240 | a contest is appended to the one-day list of its day when it starts and ends on the same local date, otherwise to the start list of its start day and the end list of its end day; every other list is unchanged |
| Contests.BucketMembership | judge/views/contests.py:236-240 | a contest is one-day on its day exactly when it starts and ends that day; otherwise it is listed on its start day and on its end day only |
| Contests.CellFor | judge/views/contests.py:328-333 | no cell without a best; failed for 0, full for the problem's points, partial otherwise |
| Contests.AllOrNothingIsNeverPartial | judge/views/contests.py:328-333 | points from an all-or-nothing contest problem never make a partial cell |
| Contests.Join | judge/views/contests.py:167-191 | refused when the contest is not ongoing, when already in a contest, or when the existing participation has ended; otherwise the participation, new or existing, becomes current, and an existing one that becomes current has not ended |
| Contests.Leave | judge/views/contests.py:194-207 | succeeds exactly when the current contest is this one, and then clears it |

## Left out

- Sockets, the `makefile` readers and writers, zlib and JSON. The payload codec is a pair of
  function parameters (`encode`, `decode`), and the judge's answer is a byte sequence
  parameter.
- A reply read takes the announced number of bytes, or all that remain when fewer arrived
  (a short read). A socket that delivers a frame over several reads is not modelled.
- `round(..., 1)` of points and totals is not modelled: the model takes it as the identity.
  The `"%.3f"` time string is not modelled either.
- Aggregation.Score: without rounding, case points that only round to the total are not a
  perfect run. For example, 9.96 of 10 on an all-or-nothing problem worth 10 gets 10 in the
  source (it rounds to 10.0) and 0 in the model.
- The Django ORM: `save()`, `get()`, filters and bulk creation.
  - Submission rows are a map from id to object.
  - A missing row (`DoesNotExist`) makes a handler do nothing. Three members differ from
    the source here, listed next.
- Callback.JudgeHandler.OnClose: when the working submission's row is missing, the source's
  `get` raises `DoesNotExist`. The model changes nothing.
- Callback.JudgeHandler.SubmissionIsBatch: when the row is missing, the source's `get` raises
  `DoesNotExist`. The model changes nothing.
- Callback.RelatedSubmissionData: for an unknown submission, indexing the empty query raises
  `IndexError`. The model returns `None`.
  - Deleting the stored test cases empties the submission's `cases`.
- `_ensure_connection` and the MySQL error swallowing in `_update_ping`.
- Delivery of `event.post`: posts are appended to a log (`posts`). Payload fields that only
  repeat database columns (user, problem, contest key) are not carried.
- The `logger.warning('Unknown submission: %d', ...)` of every handler is not modelled. An
  unknown submission only leaves all state unchanged.
- `TIMER()` is read twice in `on_test_case`. The model uses one `now` for both reads.
- The base `JudgeHandler` (`_working`, `in_batch`, `batch_id`, latency, packet parsing)
  lives outside this code. Its values are inputs.
- `calculate_points`, `recalculate_score`, `update_cumtime` and `finished_submission` are
  not modelled. They are recalculations outside this code.
- Callback.JudgeHandler.OnClose: the source tests `self._working` for truthiness. The
  model treats any present id as working, since submission ids are positive.
- Contests.SortByStart: it is stable, but stability is not stated as a property.
- Contests.PartitionContests: the queryset order (`-start_time, key`) and the participation
  count are not modelled. The input sequence is taken in the order given.
- Permission checks, queryset filters and `_find_contest` are not modelled.
- `contest_ranking_list` is modelled only for the cell state. Its raw SQL, the profile
  tuple and the `ranker` ordering are left out.
- `CachedContestCalendar` and template rendering are not modelled.
- The `Calendar` grid of `get_table` is not modelled. The window is given by its first and
  last day.
- Time zones are a fixed offset in seconds, and a local date is a day number.
- Contests.Join: `get_or_create` is modelled by an optional existing participation and a
  fresh id for a new row. Whether a new row has already ended is computed outside this code
  and is an input (`freshEnded`). The source does not check it, so nothing is promised
  about it.
- Contests.MonthView: when no contest exists the source fails on the empty aggregate. The
  model returns `NoContests`.
- Concurrency between judge connections and between web requests is not modelled.
- judge/widgets.py, judge/views/register.py and judge/views/error.py are form widgets,
  registration forms and error templates, outside the modelled logic.
