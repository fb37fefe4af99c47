/** The parsed responses of the five GraphQL queries and the values the card
    route extracts from them. Every field of a response may be missing; a
    missing number counts as 0, a missing list as empty. */
module CardData {
  import opened Optional
  import Heatmap

  // ---------------------------------------------------------------------
  // The responses

  datatype DifficultyCount = DifficultyCount(difficulty: string, count: int)
  datatype DifficultyBeats = DifficultyBeats(difficulty: string, percentage: Option<real>)

  datatype SubmitStats = SubmitStats(acSubmissionNum: Option<seq<DifficultyCount>>)
  datatype ProblemsUser = ProblemsUser(
    submitStatsGlobal: Option<SubmitStats>,
    problemsSolvedBeatsStats: Option<seq<DifficultyBeats>>)
  datatype ProblemsData = ProblemsData(
    allQuestionsCount: Option<seq<DifficultyCount>>,
    matchedUser: Option<ProblemsUser>)

  datatype Badge = Badge(name: string)
  datatype DccBadge = DccBadge(badge: Badge)
  /** `submissionCalendar` is the calendar after parsing; `None` stands for
      a missing or empty calendar string. */
  datatype UserCalendar = UserCalendar(
    streak: Option<int>, totalActiveDays: Option<int>,
    submissionCalendar: Option<Heatmap.Calendar>, dccBadges: Option<seq<DccBadge>>)
  datatype ActivityUser = ActivityUser(userCalendar: Option<UserCalendar>)
  datatype ActivityData = ActivityData(matchedUser: Option<ActivityUser>)

  datatype Tag = Tag(tagName: string, problemsSolved: int)
  datatype TagProblemCounts = TagProblemCounts(
    fundamental: Option<seq<Tag>>, intermediate: Option<seq<Tag>>, advanced: Option<seq<Tag>>)
  datatype SkillsUser = SkillsUser(tagProblemCounts: Option<TagProblemCounts>)
  datatype SkillsData = SkillsData(matchedUser: Option<SkillsUser>)

  datatype Profile = Profile(realName: Option<string>, ranking: Option<int>)
  datatype ProfileUser = ProfileUser(profile: Option<Profile>)
  datatype ProfileData = ProfileData(matchedUser: Option<ProfileUser>)

  datatype Submission = Submission(title: string, timestamp: string)
  datatype SubmissionsData = SubmissionsData(recentAcSubmissionList: Option<seq<Submission>>)

  /** One result per query; `None` where the query failed. */
  datatype Fetched = Fetched(
    problems: Option<ProblemsData>,
    activity: Option<ActivityData>,
    skills: Option<SkillsData>,
    profile: Option<ProfileData>,
    submissions: Option<SubmissionsData>)

  // ---------------------------------------------------------------------
  // Per-difficulty lookups

  /** The count of the first entry for `difficulty`, or 0 if there is none. */
  function FindCount(entries: seq<DifficultyCount>, difficulty: string): (n: int)
    ensures (forall i :: 0 <= i < |entries| ==> entries[i].difficulty != difficulty) ==> n == 0
    ensures forall i :: 0 <= i < |entries| && entries[i].difficulty == difficulty
                     && (forall j :: 0 <= j < i ==> entries[j].difficulty != difficulty)
                     ==> n == entries[i].count
    ensures (forall i :: 0 <= i < |entries| ==> entries[i].count >= 0) ==> n >= 0
  {
    if entries == [] then 0
    else if entries[0].difficulty == difficulty then entries[0].count
    else FindCount(entries[1..], difficulty)
  }

  /** The percentage of the first entry for `difficulty`; 0 if there is no
      such entry or its percentage is null. */
  function FindPercentage(entries: seq<DifficultyBeats>, difficulty: string): (p: real)
    ensures (forall i :: 0 <= i < |entries| ==> entries[i].difficulty != difficulty) ==> p == 0.0
    ensures forall i :: 0 <= i < |entries| && entries[i].difficulty == difficulty
                     && (forall j :: 0 <= j < i ==> entries[j].difficulty != difficulty)
                     ==> p == GetOr(entries[i].percentage, 0.0)
  {
    if entries == [] then 0.0
    else if entries[0].difficulty == difficulty then GetOr(entries[0].percentage, 0.0)
    else FindPercentage(entries[1..], difficulty)
  }

  function AllQuestions(data: Fetched): seq<DifficultyCount>
  {
    match data.problems
    case None => []
    case Some(p) => GetOr(p.allQuestionsCount, [])
  }

  function AcSubmissions(data: Fetched): seq<DifficultyCount>
  {
    match data.problems
    case Some(ProblemsData(_, Some(ProblemsUser(Some(SubmitStats(Some(ac))), _)))) => ac
    case _ => []
  }

  function BeatsStats(data: Fetched): seq<DifficultyBeats>
  {
    match data.problems
    case Some(ProblemsData(_, Some(ProblemsUser(_, Some(beats))))) => beats
    case _ => []
  }

  // ---------------------------------------------------------------------
  // Top skill tags

  const TopCount: nat := 5

  function Min(a: int, b: int): int { if a < b then a else b }

  /** Non-increasing by `problemsSolved`. */
  ghost predicate SortedDesc(s: seq<Tag>)
  {
    forall i, j :: 0 <= i < j < |s| ==> s[i].problemsSolved >= s[j].problemsSolved
  }

  /** Places `t` before the first entry that does not solve more. */
  function Insert(t: Tag, s: seq<Tag>): (r: seq<Tag>)
    ensures |r| == |s| + 1
    ensures multiset(r) == multiset(s) + multiset{t}
    ensures forall k :: 0 <= k < |r| ==> r[k] == t || r[k] in s
  {
    if s == [] || s[0].problemsSolved <= t.problemsSolved then
      [t] + s
    else
      assert s == [s[0]] + s[1..];
      [s[0]] + Insert(t, s[1..])
  }

  lemma {:induction false} InsertSorted(t: Tag, s: seq<Tag>)
    requires SortedDesc(s)
    ensures SortedDesc(Insert(t, s))
  {
    if s == [] || s[0].problemsSolved <= t.problemsSolved {
    } else {
      var rest := Insert(t, s[1..]);
      InsertSorted(t, s[1..]);
      forall k | 0 <= k < |rest|
        ensures rest[k].problemsSolved <= s[0].problemsSolved
      {
        if rest[k] != t {
          var m :| 0 <= m < |s[1..]| && s[1..][m] == rest[k];
          assert s[m + 1] == rest[k];
        }
      }
      assert Insert(t, s) == [s[0]] + rest;
    }
  }

  /** `problemsSolved` descending; entries with equal counts keep their
      order. */
  function SortByDescending(s: seq<Tag>): (r: seq<Tag>)
    ensures |r| == |s|
    ensures multiset(r) == multiset(s)
    ensures SortedDesc(r)
  {
    if s == [] then []
    else
      assert s == [s[0]] + s[1..];
      InsertSorted(s[0], SortByDescending(s[1..]));
      Insert(s[0], SortByDescending(s[1..]))
  }

  /** The tags of the three levels, fundamental first. */
  function AllTags(skills: SkillsData): seq<Tag>
  {
    match skills.matchedUser
    case Some(SkillsUser(Some(c))) => GetOr(c.fundamental, []) + GetOr(c.intermediate, []) + GetOr(c.advanced, [])
    case _ => []
  }

  /** `all` sorted by solves, most first, cut to the first five. */
  function TopOf(all: seq<Tag>): (r: seq<Tag>)
    ensures |r| == Min(TopCount, |all|)
  {
    var sorted := SortByDescending(all);
    sorted[..Min(TopCount, |sorted|)]
  }

  /** The five tags with most problems solved, most first; none without
      skills data. */
  function TopTags(skills: Option<SkillsData>): (r: seq<Tag>)
    ensures |r| <= TopCount
    ensures skills.None? ==> r == []
    ensures skills.Some? ==> r == TopOf(AllTags(skills.value))
  {
    match skills
    case None => []
    case Some(sk) => TopOf(AllTags(sk))
  }

  /** The top tags are sorted and drawn from all tags. */
  lemma TopOfSortedSelection(all: seq<Tag>)
    ensures SortedDesc(TopOf(all))
    ensures multiset(TopOf(all)) <= multiset(all)
  {
    var sorted := SortByDescending(all);
    var k := Min(TopCount, |sorted|);
    assert sorted == sorted[..k] + sorted[k..];
    assert multiset(sorted) == multiset(sorted[..k]) + multiset(sorted[k..]);
  }

  /** None of the dropped tags solves more than a kept one. */
  lemma TopOfKeepsLargest(all: seq<Tag>, t: Tag, i: nat)
    requires t in multiset(all) - multiset(TopOf(all))
    requires i < |TopOf(all)|
    ensures TopOf(all)[i].problemsSolved >= t.problemsSolved
  {
    var sorted := SortByDescending(all);
    var k := Min(TopCount, |sorted|);
    var r := TopOf(all);
    assert sorted == r + sorted[k..];
    assert multiset(all) == multiset(r) + multiset(sorted[k..]);
    assert t in multiset(sorted[k..]);
    var m :| 0 <= m < |sorted[k..]| && sorted[k..][m] == t;
    assert sorted[k + m] == t;
    assert r[i] == sorted[i];
  }

  // ---------------------------------------------------------------------
  // Badges and recent submissions

  /** `s.slice(0, n)`: the first `n` elements, or all of them. */
  function Take<T>(s: seq<T>, n: nat): (r: seq<T>)
    ensures |r| == Min(n, |s|)
    ensures r <= s
  {
    s[..Min(n, |s|)]
  }

  /** `s.slice(-n)`: the last `n` elements, or all of them. As `-0` is
      `0`, `slice(-0)` is the whole sequence. */
  function TakeLast<T>(s: seq<T>, n: nat): (r: seq<T>)
    ensures n > 0 ==> |r| == Min(n, |s|)
    ensures n == 0 ==> r == s
    ensures forall i :: 0 <= i < |r| ==> r[i] == s[|s| - |r| + i]
  {
    if n == 0 then s else s[|s| - Min(n, |s|)..]
  }

  function Reverse<T>(s: seq<T>): (r: seq<T>)
    ensures |r| == |s|
    ensures forall i :: 0 <= i < |s| ==> r[i] == s[|s| - 1 - i]
  {
    if s == [] then [] else Reverse(s[1..]) + [s[0]]
  }

  /** The last five badges, the latest first. */
  function RecentBadges(badges: seq<DccBadge>): (r: seq<DccBadge>)
    ensures |r| == Min(TopCount, |badges|)
    ensures forall i :: 0 <= i < |r| ==> r[i] == badges[|badges| - 1 - i]
  {
    Reverse(TakeLast(badges, TopCount))
  }

  /** The first five recent submissions; none without a submissions list. */
  function RecentSubmissions(submissions: Option<SubmissionsData>): (r: seq<Submission>)
    ensures submissions.Some? && submissions.value.recentAcSubmissionList.Some? ==>
      var list := submissions.value.recentAcSubmissionList.value;
      |r| == Min(TopCount, |list|) && r <= list
    ensures submissions.None? || submissions.value.recentAcSubmissionList.None? ==> r == []
  {
    match submissions
    case Some(SubmissionsData(Some(list))) => Take(list, TopCount)
    case _ => []
  }

  // ---------------------------------------------------------------------
  // Labels

  const Ellipsis: char := '…'
  const TagLabelLimit: nat := 14
  const BadgeLabelLimit: nat := 12

  /** A label longer than `limit` is cut to `limit - 1` characters followed
      by an ellipsis; a shorter one is kept. */
  function Truncate(s: string, limit: nat): (r: string)
    requires limit > 0
    ensures |s| <= limit ==> r == s
    ensures |s| > limit ==> |r| == limit && r[..limit - 1] == s[..limit - 1] && r[limit - 1] == Ellipsis
  {
    if |s| > limit then s[..limit - 1] + [Ellipsis] else s
  }

  /** Truncated labels are never longer than the limit, and truncating
      twice changes nothing. */
  lemma TruncateBounded(s: string, limit: nat)
    requires limit > 0
    ensures |Truncate(s, limit)| <= limit
    ensures |Truncate(s, limit)| <= |s|
    ensures Truncate(Truncate(s, limit), limit) == Truncate(s, limit)
  {
  }

  function TagLabel(name: string): (r: string)
    ensures |name| > TagLabelLimit ==> |r| == TagLabelLimit
  {
    Truncate(name, TagLabelLimit)
  }

  function BadgeLabel(name: string): (r: string)
    ensures |name| > BadgeLabelLimit ==> |r| == BadgeLabelLimit
  {
    Truncate(name, BadgeLabelLimit)
  }

  // ---------------------------------------------------------------------
  // Everything the card shows

  datatype Stats = Stats(
    totalEasy: int, totalMedium: int, totalHard: int,
    solvedEasy: int, solvedMedium: int, solvedHard: int, totalSolved: int,
    beatsEasy: real, beatsMedium: real, beatsHard: real,
    topTags: seq<Tag>,
    streak: int, totalActiveDays: int, calendar: Option<Heatmap.Calendar>,
    recentBadges: seq<DccBadge>, recentSubs: seq<Submission>,
    realName: string, ranking: int)

  function UserCalendarOf(data: Fetched): Option<UserCalendar>
  {
    match data.activity
    case Some(ActivityData(Some(ActivityUser(uc)))) => uc
    case _ => None
  }

  function ProfileOf(data: Fetched): Option<Profile>
  {
    match data.profile
    case Some(ProfileData(Some(ProfileUser(p)))) => p
    case _ => None
  }

  function ExtractStats(data: Fetched): (st: Stats)
    ensures st.totalSolved == st.solvedEasy + st.solvedMedium + st.solvedHard
    ensures |st.topTags| <= TopCount && |st.recentBadges| <= TopCount && |st.recentSubs| <= TopCount
  {
    var allQuestions := AllQuestions(data);
    var ac := AcSubmissions(data);
    var beats := BeatsStats(data);
    var solvedEasy := FindCount(ac, "Easy");
    var solvedMedium := FindCount(ac, "Medium");
    var solvedHard := FindCount(ac, "Hard");
    var uc := UserCalendarOf(data);
    var profile := ProfileOf(data);
    Stats(
      FindCount(allQuestions, "Easy"), FindCount(allQuestions, "Medium"), FindCount(allQuestions, "Hard"),
      solvedEasy, solvedMedium, solvedHard, solvedEasy + solvedMedium + solvedHard,
      FindPercentage(beats, "Easy"), FindPercentage(beats, "Medium"), FindPercentage(beats, "Hard"),
      TopTags(data.skills),
      if uc.Some? then GetOr(uc.value.streak, 0) else 0,
      if uc.Some? then GetOr(uc.value.totalActiveDays, 0) else 0,
      if uc.Some? then uc.value.submissionCalendar else None,
      RecentBadges(if uc.Some? then GetOr(uc.value.dccBadges, []) else []),
      RecentSubmissions(data.submissions),
      if profile.Some? then GetOr(profile.value.realName, "") else "",
      if profile.Some? then GetOr(profile.value.ranking, 0) else 0)
  }

  /** Solved counts are never negative when the reported counts are not. */
  lemma TotalSolvedNonNegative(data: Fetched)
    requires forall i :: 0 <= i < |AcSubmissions(data)| ==> AcSubmissions(data)[i].count >= 0
    ensures ExtractStats(data).totalSolved >= 0
  {
  }

  /** With every query failed, every number is 0 and every list empty. */
  lemma NothingFetched()
    ensures ExtractStats(Fetched(None, None, None, None, None))
      == Stats(0, 0, 0, 0, 0, 0, 0, 0.0, 0.0, 0.0, [], 0, 0, None, [], [], "", 0)
  {
  }
}
