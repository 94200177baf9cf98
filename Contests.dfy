/**
 * The decision logic of the contest pages (judge/views/contests.py): the past/present/future
 * split of the contest list, calendar month navigation and its range check, the calendar's
 * day buckets, the ranking cell state, and joining and leaving a contest.
 * Times are whole seconds; a local date is a day number under a fixed UTC offset.
 */
module Contests {
  import opened Wrappers
  import opened Aggregation

  datatype Contest = Contest(id: int, key: string, start: int, end: int)

  // ---------------------------------------------------------------- contest list

  datatype Phase = Past | Present | Future

  /** Past when it has ended, otherwise future when it has not started, otherwise present. */
  function PhaseOf(c: Contest, now: int): (r: Phase)
    ensures r == Past <==> c.end < now
    ensures r == Future <==> now <= c.end && now < c.start
    ensures r == Present <==> c.start <= now <= c.end
  {
    if c.end < now then Past else if c.start > now then Future else Present
  }

  /** The contests of one phase, in list order. */
  function Having(cs: seq<Contest>, now: int, phase: Phase): (r: seq<Contest>)
    ensures |r| <= |cs|
    ensures forall i :: 0 <= i < |r| ==> PhaseOf(r[i], now) == phase
    decreases |cs|
  {
    if cs == [] then []
    else
      var last := cs[|cs| - 1];
      Having(cs[..|cs| - 1], now, phase) + if PhaseOf(last, now) == phase then [last] else []
  }

  /** A contest is in the list of a phase exactly when it is in the input and in that phase. */
  lemma {:induction false} HavingMembers(cs: seq<Contest>, now: int, phase: Phase, c: Contest)
    ensures c in Having(cs, now, phase) <==> c in cs && PhaseOf(c, now) == phase
    decreases |cs|
  {
    if cs != [] {
      var init, last := cs[..|cs| - 1], cs[|cs| - 1];
      HavingMembers(init, now, phase, c);
      InLastSplit(cs);
    }
  }

  /** The three phases split the list: every contest is in exactly one of them. */
  lemma {:induction false} PartitionIsExact(cs: seq<Contest>, now: int)
    ensures multiset(Having(cs, now, Past)) + multiset(Having(cs, now, Present)) + multiset(Having(cs, now, Future))
            == multiset(cs)
    decreases |cs|
  {
    if cs != [] {
      var init, last := cs[..|cs| - 1], cs[|cs| - 1];
      PartitionIsExact(init, now);
      assert cs == init + [last];
      PartitionStep(init, last, now);
    }
  }

  lemma PartitionStep(init: seq<Contest>, last: Contest, now: int)
    requires multiset(Having(init, now, Past)) + multiset(Having(init, now, Present)) + multiset(Having(init, now, Future))
             == multiset(init)
    ensures var cs := init + [last];
            multiset(Having(cs, now, Past)) + multiset(Having(cs, now, Present)) + multiset(Having(cs, now, Future))
            == multiset(cs)
  {
    HavingSnoc(init, last, now, Past);
    HavingSnoc(init, last, now, Present);
    HavingSnoc(init, last, now, Future);
    var a, b, c := Having(init, now, Past), Having(init, now, Present), Having(init, now, Future);
    var one := multiset{last};
    match PhaseOf(last, now)
    case Past => assert multiset(a + [last]) == multiset(a) + one;
    case Present => assert multiset(b + [last]) == multiset(b) + one;
    case Future => assert multiset(c + [last]) == multiset(c) + one;
  }

  /** Filtering one more contest appends it to the list of its phase only. */
  lemma HavingSnoc(cs: seq<Contest>, c: Contest, now: int, phase: Phase)
    ensures Having(cs + [c], now, phase) == Having(cs, now, phase) + if PhaseOf(c, now) == phase then [c] else []
  {
    assert (cs + [c])[..|cs|] == cs;
  }

  predicate SortedByStart(s: seq<Contest>) {
    forall i, j :: 0 <= i < j < |s| ==> s[i].start <= s[j].start
  }

  /** Places `c` after every contest that starts no later than it. */
  function InsertByStart(c: Contest, s: seq<Contest>): (r: seq<Contest>)
    ensures multiset(r) == multiset(s) + multiset{c}
    ensures forall x :: x in r ==> x == c || x in s
    decreases |s|
  {
    if s == [] then [c]
    else if c.start < s[0].start then [c] + s
    else
      assert s == [s[0]] + s[1..];
      [s[0]] + InsertByStart(c, s[1..])
  }

  lemma {:induction false} InsertKeepsOrder(c: Contest, s: seq<Contest>)
    requires SortedByStart(s)
    ensures SortedByStart(InsertByStart(c, s))
    decreases |s|
  {
    if s != [] && c.start >= s[0].start {
      InsertKeepsOrder(c, s[1..]);
      var rest := InsertByStart(c, s[1..]);
      assert forall x :: x in rest ==> s[0].start <= x.start;
      assert InsertByStart(c, s) == [s[0]] + rest;
    }
  }

  /** The list sorted by start time, keeping the list order among equal starts. */
  function SortByStart(s: seq<Contest>): (r: seq<Contest>)
    ensures multiset(r) == multiset(s)
    ensures SortedByStart(r)
    decreases |s|
  {
    if s == [] then []
    else
      var init := s[..|s| - 1];
      assert s == init + [s[|s| - 1]];
      InsertKeepsOrder(s[|s| - 1], SortByStart(init));
      InsertByStart(s[|s| - 1], SortByStart(init))
  }

  /** `ContestList.get_context_data`: one pass splits the list, then the future list is sorted by start. */
  method PartitionContests(contests: seq<Contest>, now: int)
    returns (past: seq<Contest>, present: seq<Contest>, future: seq<Contest>)
    ensures past == Having(contests, now, Past)
    ensures present == Having(contests, now, Present)
    ensures future == SortByStart(Having(contests, now, Future))
  {
    past, present, future := [], [], [];
    for i := 0 to |contests|
      invariant past == Having(contests[..i], now, Past)
      invariant present == Having(contests[..i], now, Present)
      invariant future == Having(contests[..i], now, Future)
    {
      var contest := contests[i];
      assert contests[..i + 1] == contests[..i] + [contest];
      HavingSnoc(contests[..i], contest, now, Past);
      HavingSnoc(contests[..i], contest, now, Present);
      HavingSnoc(contests[..i], contest, now, Future);
      if contest.end < now {
        past := past + [contest];
      } else if contest.start > now {
        future := future + [contest];
      } else {
        present := present + [contest];
      }
    }
    assert contests[..|contests|] == contests;
    future := SortByStart(future);
  }

  // ---------------------------------------------------------------- calendar navigation

  datatype YearMonth = YearMonth(year: int, month: int)

  /** A month `datetime.date` accepts: years 1 to 9999, months 1 to 12. */
  predicate ValidMonth(m: YearMonth) {
    1 <= m.year <= 9999 && 1 <= m.month <= 12
  }

  /** Months counted from January of year 0. */
  function Index(m: YearMonth): int {
    m.year * 12 + m.month - 1
  }

  /** Tuple order on (year, month). */
  predicate Before(a: YearMonth, b: YearMonth) {
    a.year < b.year || (a.year == b.year && a.month < b.month)
  }

  lemma BeforeIsIndexOrder(a: YearMonth, b: YearMonth)
    requires 1 <= a.month <= 12 && 1 <= b.month <= 12
    ensures Before(a, b) <==> Index(a) < Index(b)
  {
    if a.year < b.year {
      assert Index(a) < (a.year + 1) * 12 <= b.year * 12 <= Index(b);
    } else if b.year < a.year {
      assert Index(b) < (b.year + 1) * 12 <= a.year * 12 <= Index(a);
    }
  }

  /** The month before: December of the previous year for January. */
  function PrevMonth(m: YearMonth): (r: YearMonth)
    requires 1 <= m.month <= 12
    ensures 1 <= r.month <= 12 && Index(r) == Index(m) - 1
  {
    YearMonth(m.year - if m.month == 1 then 1 else 0, if m.month == 1 then 12 else m.month - 1)
  }

  /** The month after: January of the next year for December. */
  function NextMonth(m: YearMonth): (r: YearMonth)
    requires 1 <= m.month <= 12
    ensures 1 <= r.month <= 12 && Index(r) == Index(m) + 1
  {
    YearMonth(m.year + if m.month == 12 then 1 else 0, if m.month == 12 then 1 else m.month + 1)
  }

  /** Two months with the same index are the same month. */
  lemma IndexInjective(a: YearMonth, b: YearMonth)
    requires 1 <= a.month <= 12 && 1 <= b.month <= 12 && Index(a) == Index(b)
    ensures a == b
  {
    BeforeIsIndexOrder(a, b);
    BeforeIsIndexOrder(b, a);
  }

  /** Going back and forth returns to the same month. */
  lemma NavigationRoundTrip(m: YearMonth)
    requires 1 <= m.month <= 12
    ensures NextMonth(PrevMonth(m)) == m && PrevMonth(NextMonth(m)) == m
  {
    IndexInjective(NextMonth(PrevMonth(m)), m);
    IndexInjective(PrevMonth(NextMonth(m)), m);
  }

  function Later(a: YearMonth, b: YearMonth): YearMonth {
    if Before(a, b) then b else a
  }

  datatype CalendarError = NotFound | NoContests

  datatype MonthPage = MonthPage(month: YearMonth, prev: Option<YearMonth>, next: Option<YearMonth>)

  /**
   * `ContestCalendar.get_context_data`. `span` is the month of the earliest contest start and of
   * the latest contest end, None when there are no contests (the aggregate is then empty and the
   * page fails). A date that does not exist, or a month outside the span extended to today, is 404.
   */
  function MonthView(year: int, month: int, span: Option<(YearMonth, YearMonth)>, today: YearMonth)
    : (r: Result<MonthPage, CalendarError>)
    ensures var m := YearMonth(year, month);
            r.Success? <==> ValidMonth(m) && span.Some? &&
                            !Before(m, span.value.0) && !Before(Later(span.value.1, today), m)
    ensures !ValidMonth(YearMonth(year, month)) ==> r == Failure(NotFound)
    ensures r.Success? ==> var m := YearMonth(year, month);
                           && r.value.month == m
                           && (r.value.prev.None? <==> m == span.value.0)
                           && (r.value.prev.Some? ==> r.value.prev.value == PrevMonth(m))
                           && (r.value.next.None? <==> m == Later(span.value.1, today))
                           && (r.value.next.Some? ==> r.value.next.value == NextMonth(m))
  {
    var m := YearMonth(year, month);
    if !ValidMonth(m) then Failure(NotFound)
    else if span.None? then Failure(NoContests)
    else
      var minMonth := span.value.0;
      var maxMonth := Later(span.value.1, today);
      if Before(m, minMonth) || Before(maxMonth, m) then Failure(NotFound)
      else
        Success(MonthPage(m,
                          if Before(minMonth, m) then Some(PrevMonth(m)) else None,
                          if Before(m, maxMonth) then Some(NextMonth(m)) else None))
  }

  /** The prev and next links of a page lead to pages that exist: navigation never reaches a 404. */
  lemma {:induction false} NavigationStaysInRange(year: int, month: int, span: Option<(YearMonth, YearMonth)>,
                                                  today: YearMonth)
    requires span.Some? ==> ValidMonth(span.value.0) && ValidMonth(span.value.1)
    requires ValidMonth(today)
    ensures var r := MonthView(year, month, span, today);
            r.Success? ==>
              && (r.value.prev.Some? ==> MonthView(r.value.prev.value.year, r.value.prev.value.month, span, today).Success?)
              && (r.value.next.Some? ==> MonthView(r.value.next.value.year, r.value.next.value.month, span, today).Success?)
  {
    var r := MonthView(year, month, span, today);
    if r.Success? {
      var m := YearMonth(year, month);
      var lo, hi := span.value.0, Later(span.value.1, today);
      BeforeIsIndexOrder(m, lo);
      BeforeIsIndexOrder(lo, m);
      BeforeIsIndexOrder(m, hi);
      BeforeIsIndexOrder(hi, m);
      if r.value.prev.Some? {
        var p := PrevMonth(m);
        BeforeIsIndexOrder(p, lo);
        BeforeIsIndexOrder(hi, p);
      }
      if r.value.next.Some? {
        var n := NextMonth(m);
        BeforeIsIndexOrder(n, lo);
        BeforeIsIndexOrder(hi, n);
      }
    }
  }

  // ---------------------------------------------------------------- calendar buckets

  const SecondsPerDay: int := 86400

  /** The local calendar day of an instant, under a fixed offset from UTC. */
  function LocalDate(t: int, offset: int): int {
    (t + offset) / SecondsPerDay
  }

  /** Starts or ends in [lo, hi + one day): the two-sided query of `get_contest_data`. */
  predicate InWindow(c: Contest, lo: int, hi: int) {
    (lo <= c.start < hi + SecondsPerDay) || (lo <= c.end < hi + SecondsPerDay)
  }

  function Window(cs: seq<Contest>, lo: int, hi: int): (r: seq<Contest>)
    ensures forall c :: c in r <==> c in cs && InWindow(c, lo, hi)
    decreases |cs|
  {
    if cs == [] then []
    else
      var last := cs[|cs| - 1];
      Window(cs[..|cs| - 1], lo, hi) + if InWindow(last, lo, hi) then [last] else []
  }

  type Days = map<int, seq<Contest>>

  /** `defaultdict(list)` read: an absent day holds no contests. */
  function Lookup(m: Days, day: int): seq<Contest> {
    if day in m then m[day] else []
  }

  /** `m[day].append(c)` on a `defaultdict(list)`. */
  function Push(m: Days, day: int, c: Contest): (r: Days)
    ensures forall d :: Lookup(r, d) == Lookup(m, d) + if d == day then [c] else []
  {
    m[day := Lookup(m, day) + [c]]
  }

  datatype Buckets = Buckets(starts: Days, ends: Days, oneday: Days)

  /** A contest on one local day goes to `oneday`; otherwise to `starts` and to `ends`. */
  function Place(b: Buckets, c: Contest, offset: int): (r: Buckets)
    ensures var startDate, endDate := LocalDate(c.start, offset), LocalDate(c.end, offset);
            forall d ::
              && Lookup(r.oneday, d) == Lookup(b.oneday, d) + (if startDate == endDate == d then [c] else [])
              && Lookup(r.starts, d) == Lookup(b.starts, d) + (if startDate != endDate && startDate == d then [c] else [])
              && Lookup(r.ends, d) == Lookup(b.ends, d) + (if startDate != endDate && endDate == d then [c] else [])
  {
    var startDate, endDate := LocalDate(c.start, offset), LocalDate(c.end, offset);
    if startDate == endDate then b.(oneday := Push(b.oneday, startDate, c))
    else b.(starts := Push(b.starts, startDate, c), ends := Push(b.ends, endDate, c))
  }

  /** The buckets after appending every contest of `cs` in order. */
  function Bucketed(cs: seq<Contest>, offset: int): Buckets
    decreases |cs|
  {
    if cs == [] then Buckets(map[], map[], map[])
    else Place(Bucketed(cs[..|cs| - 1], offset), cs[|cs| - 1], offset)
  }

  /** `get_contest_data`: the contests meeting the window, put into day buckets in one pass. */
  method ContestBuckets(contests: seq<Contest>, lo: int, hi: int, offset: int) returns (b: Buckets)
    ensures b == Bucketed(Window(contests, lo, hi), offset)
  {
    var found := Window(contests, lo, hi);
    var starts, ends, oneday := map[], map[], map[];
    for i := 0 to |found|
      invariant Buckets(starts, ends, oneday) == Bucketed(found[..i], offset)
    {
      var contest := found[i];
      assert found[..i + 1][..i] == found[..i];
      assert Bucketed(found[..i + 1], offset) == Place(Bucketed(found[..i], offset), contest, offset);
      var startDate := LocalDate(contest.start, offset);
      var endDate := LocalDate(contest.end, offset);
      if startDate == endDate {
        oneday := oneday[startDate := Lookup(oneday, startDate) + [contest]];
      } else {
        starts := starts[startDate := Lookup(starts, startDate) + [contest]];
        ends := ends[endDate := Lookup(ends, endDate) + [contest]];
      }
    }
    assert found[..|found|] == found;
    b := Buckets(starts, ends, oneday);
  }

  /**
   * A contest is listed on day `d` as one-day exactly when it starts and ends on `d`; otherwise it
   * is listed as starting on its start day and as ending on its end day, and nowhere else.
   */
  lemma {:induction false} BucketMembership(cs: seq<Contest>, offset: int, c: Contest, d: int)
    ensures var b := Bucketed(cs, offset);
            var startDate, endDate := LocalDate(c.start, offset), LocalDate(c.end, offset);
            && (c in Lookup(b.oneday, d) <==> c in cs && startDate == endDate == d)
            && (c in Lookup(b.starts, d) <==> c in cs && startDate != endDate && startDate == d)
            && (c in Lookup(b.ends, d) <==> c in cs && startDate != endDate && endDate == d)
    decreases |cs|
  {
    if cs != [] {
      var init, last := cs[..|cs| - 1], cs[|cs| - 1];
      BucketMembership(init, offset, c, d);
      InLastSplit(cs);
      var b := Bucketed(init, offset);
      var b' := Place(b, last, offset);
      assert Bucketed(cs, offset) == b';
      var startDate, endDate := LocalDate(last.start, offset), LocalDate(last.end, offset);
      assert Lookup(b'.oneday, d) == Lookup(b.oneday, d) + if startDate == endDate == d then [last] else [];
      assert Lookup(b'.starts, d) == Lookup(b.starts, d) + if startDate != endDate && startDate == d then [last] else [];
      assert Lookup(b'.ends, d) == Lookup(b.ends, d) + if startDate != endDate && endDate == d then [last] else [];
    }
  }

  /** An element of a non-empty sequence is in its prefix or is its last element. */
  lemma InLastSplit(cs: seq<Contest>)
    requires cs != []
    ensures forall c :: c in cs <==> c in cs[..|cs| - 1] || c == cs[|cs| - 1]
  {
    assert cs == cs[..|cs| - 1] + [cs[|cs| - 1]];
  }

  // ---------------------------------------------------------------- ranking

  datatype CellState = FailedScore | FullScore | PartialScore

  /**
   * The state of one ranking cell from the participant's best points on the problem: none without
   * a submission, failed for zero, full when it equals the problem's points, partial otherwise.
   */
  function CellFor(best: Option<real>, points: real): (r: Option<CellState>)
    ensures r.None? <==> best.None?
    ensures r == Some(FailedScore) <==> best == Some(0.0)
    ensures r == Some(FullScore) <==> best.Some? && best.value != 0.0 && best.value == points
    ensures r == Some(PartialScore) <==> best.Some? && best.value != 0.0 && best.value != points
  {
    match best
    case None => None
    case Some(b) => Some(if b == 0.0 then FailedScore else if b == points then FullScore else PartialScore)
  }

  /** On an all-or-nothing contest problem a submission's points never make a partial cell. */
  lemma AllOrNothingIsNeverPartial(points: real, total: real, full: real)
    ensures CellFor(Some(Score(points, total, full, false)), full) != Some(PartialScore)
  {
  }

  // ---------------------------------------------------------------- joining and leaving

  datatype Participation = Participation(id: int, contestId: int, ended: bool)

  /** The part of a user profile that joining and leaving change. */
  class Profile {
    var currentContest: Option<Participation>

    constructor ()
      ensures currentContest == None
    {
      currentContest := None;
    }
  }

  datatype JoinOutcome = NotOngoing | AlreadyInContest | TooLate | Joined

  /**
   * `ContestJoin.get`. `existing` is the user's participation row in the contest, if any; without
   * one a row with `freshId` is created (and returned as `created`); whether that new row has already
   * ended is decided outside this view and given as `freshEnded`, and is not checked. Refused, in this order, when
   * the contest cannot be joined, when the user is already in a contest, and when the existing
   * participation has ended; otherwise the participation becomes the current contest.
   */
  method Join(profile: Profile, contestId: int, canJoin: bool, existing: Option<Participation>,
              freshId: int, freshEnded: bool)
    returns (outcome: JoinOutcome, created: Option<Participation>)
    requires existing.Some? ==> existing.value.contestId == contestId
    modifies profile
    ensures outcome == Joined ==> profile.currentContest.Some? && profile.currentContest.value.contestId == contestId
    ensures outcome == Joined && created == None ==> !profile.currentContest.value.ended
    ensures outcome != Joined ==> profile.currentContest == old(profile.currentContest)
    ensures !canJoin ==> outcome == NotOngoing && created == None
    ensures canJoin && old(profile.currentContest).Some? ==> outcome == AlreadyInContest && created == None
    ensures canJoin && old(profile.currentContest).None? ==>
              match existing
              case Some(p) => created == None && outcome == (if p.ended then TooLate else Joined)
                              && (!p.ended ==> profile.currentContest == existing)
              case None => created == Some(Participation(freshId, contestId, freshEnded)) && outcome == Joined
                           && profile.currentContest == created
  {
    created := None;
    if !canJoin {
      return NotOngoing, created;
    }
    if profile.currentContest.Some? {
      return AlreadyInContest, created;
    }
    var participation;
    if existing.Some? {
      participation := existing.value;
      if participation.ended {
        return TooLate, created;
      }
    } else {
      participation := Participation(freshId, contestId, freshEnded);
      created := Some(participation);
    }
    profile.currentContest := Some(participation);
    outcome := Joined;
  }

  /** `ContestLeave.get`: 404 unless the current contest is this one; otherwise it is cleared. */
  method Leave(profile: Profile, contestId: int) returns (left: bool)
    modifies profile
    ensures left <==> old(profile.currentContest).Some? && old(profile.currentContest).value.contestId == contestId
    ensures profile.currentContest == if left then None else old(profile.currentContest)
  {
    if profile.currentContest.None? || profile.currentContest.value.contestId != contestId {
      return false;
    }
    profile.currentContest := None;
    return true;
  }
}
