/**
 * main.py: the statistics on the profile page, aggregated over the rows
 * `get_user_dashboards` lists for a user. Both the GET and the POST handler
 * compute them from that listing, which holds dictionaries (`Summary`), not
 * records; the floating-point average score is not part of the model, but
 * the two totals it is computed from are.
 */
module Profile {
  import opened Wrappers
  import opened Store

  /** The numbers shown on the profile page. */
  datatype ProfileStats = ProfileStats(
    totalDashboards: nat,
    totalQuizzes: nat,
    totalCorrect: int,
    totalQuestions: int,
    bestStreak: int)

  function Sum(xs: seq<int>): int {
    if xs == [] then 0 else Sum(xs[..|xs| - 1]) + xs[|xs| - 1]
  }

  /** `sum(1 for x in xs if x > 0)` */
  function CountPositive(xs: seq<int>): nat {
    if xs == [] then 0 else CountPositive(xs[..|xs| - 1]) + (if xs[|xs| - 1] > 0 then 1 else 0)
  }

  /** `max(xs, default=0)` */
  function MaxOrZero(xs: seq<int>): int {
    if xs == [] then 0
    else if |xs| == 1 then xs[0]
    else var m := MaxOrZero(xs[..|xs| - 1]); if xs[|xs| - 1] > m then xs[|xs| - 1] else m
  }

  /** The maximum of a non-empty list is one of its elements and bounds all
      of them; an empty list gives 0. */
  lemma {:induction false} MaxOrZeroIsMax(xs: seq<int>)
    ensures xs == [] ==> MaxOrZero(xs) == 0
    ensures forall i :: 0 <= i < |xs| ==> xs[i] <= MaxOrZero(xs)
    ensures xs != [] ==> exists i :: 0 <= i < |xs| && xs[i] == MaxOrZero(xs)
  {
    if |xs| > 1 {
      var init := xs[..|xs| - 1];
      MaxOrZeroIsMax(init);
      assert forall i :: 0 <= i < |init| ==> init[i] == xs[i];
      var i :| 0 <= i < |init| && init[i] == MaxOrZero(init);
      if xs[|xs| - 1] <= MaxOrZero(init) {
        assert xs[i] == MaxOrZero(xs);
      } else {
        assert xs[|xs| - 1] == MaxOrZero(xs);
      }
    } else if |xs| == 1 {
      assert xs[0] == MaxOrZero(xs);
    }
  }

  /** The count of positive entries is at most the length, and zero exactly
      when no entry is positive. */
  lemma {:induction false} CountPositiveBounds(xs: seq<int>)
    ensures CountPositive(xs) <= |xs|
    ensures CountPositive(xs) == 0 <==> forall i :: 0 <= i < |xs| ==> xs[i] <= 0
  {
    if xs != [] {
      var init := xs[..|xs| - 1];
      CountPositiveBounds(init);
      assert forall i :: 0 <= i < |init| ==> init[i] == xs[i];
    }
  }

  /** Entry-wise `xs[i] <= ys[i]` carries over to the sums. */
  lemma {:induction false} SumMonotone(xs: seq<int>, ys: seq<int>)
    requires |xs| == |ys|
    requires forall i :: 0 <= i < |xs| ==> xs[i] <= ys[i]
    ensures Sum(xs) <= Sum(ys)
  {
    if xs != [] {
      var n := |xs| - 1;
      assert forall i :: 0 <= i < n ==> xs[..n][i] == xs[i] && ys[..n][i] == ys[i];
      SumMonotone(xs[..n], ys[..n]);
    }
  }

  /** `[f(x) for x in xs]` */
  function Project<T>(xs: seq<T>, f: T -> int): (r: seq<int>)
    ensures |r| == |xs| && forall i :: 0 <= i < |xs| ==> r[i] == f(xs[i])
  {
    seq(|xs|, i requires 0 <= i < |xs| => f(xs[i]))
  }

  function Answered(d: Dashboard): int { d.totalQuestions }
  function Correct(d: Dashboard): int { d.totalCorrect }
  function Streak(d: Dashboard): int { d.bestStreak }

  /** The profile statistics of a user's dashboard records, as both handlers
      evidently mean to compute them: attribute access on the records. */
  function ProfileOf(ds: seq<Dashboard>): ProfileStats {
    ProfileStats(|ds|, CountPositive(Project(ds, Answered)), Sum(Project(ds, Correct)),
                 Sum(Project(ds, Answered)), MaxOrZero(Project(ds, Streak)))
  }

  /** The profile counts every dashboard, counts a quiz for each dashboard
      with answered questions (so never more quizzes than dashboards, and none
      exactly when nothing was answered), and shows the best streak of all,
      0 for a user without dashboards. */
  lemma ProfileOfMeaning(ds: seq<Dashboard>)
    ensures ProfileOf(ds).totalDashboards == |ds|
    ensures ProfileOf(ds).totalQuizzes <= ProfileOf(ds).totalDashboards
    ensures ProfileOf(ds).totalQuizzes == 0 <==> forall i :: 0 <= i < |ds| ==> ds[i].totalQuestions <= 0
    ensures ds == [] ==> ProfileOf(ds).bestStreak == 0
    ensures forall i :: 0 <= i < |ds| ==> ds[i].bestStreak <= ProfileOf(ds).bestStreak
    ensures ds != [] ==> exists i :: 0 <= i < |ds| && ds[i].bestStreak == ProfileOf(ds).bestStreak
  {
    CountPositiveBounds(Project(ds, Answered));
    MaxOrZeroIsMax(Project(ds, Streak));
    if ds != [] {
      var j :| 0 <= j < |ds| && Project(ds, Streak)[j] == MaxOrZero(Project(ds, Streak));
      assert ds[j].bestStreak == ProfileOf(ds).bestStreak;
    }
  }

  /** When no dashboard has more correct answers than answered questions,
      neither has the profile, so the average score is at most 100. */
  lemma ProfileScoreBounded(ds: seq<Dashboard>)
    requires forall i :: 0 <= i < |ds| ==> ds[i].totalCorrect <= ds[i].totalQuestions
    ensures ProfileOf(ds).totalCorrect <= ProfileOf(ds).totalQuestions
  {
    SumMonotone(Project(ds, Correct), Project(ds, Answered));
  }

  // ---------------------------------------------------------------------------
  // The handlers as written
  // ---------------------------------------------------------------------------

  /** `GET /profile` as written: it reads `d.total_questions` from the
      dictionaries of the listing, which raises `AttributeError` on the first
      one, so only a user without dashboards gets a page. */
  function ProfileGetAsWritten(listing: seq<Summary>): (r: Result<ProfileStats, string>)
    ensures r.Ok? <==> listing == []
  {
    if listing == [] then Ok(ProfileStats(0, 0, 0, 0, 0))
    else Err("AttributeError: 'dict' object has no attribute 'total_questions'")
  }

  /** A user with one dashboard gets an error page from `GET /profile`,
      where the evidently intended statistics exist. */
  lemma ProfileGetFailsWithDashboards(d: Dashboard)
    ensures ProfileGetAsWritten(Listing([d])).Err?
    ensures ProfileOf([d]).totalDashboards == 1
  {
  }

  /** For a user without dashboards, the handler agrees with `ProfileOf`. */
  lemma ProfileGetEmptyAgrees()
    ensures ProfileGetAsWritten(Listing([])) == Ok(ProfileOf([]))
  {
  }

  function ListedAnswered(e: Summary): int { e.totalQuestions }
  function ListedStreak(e: Summary): int { e.bestStreak }

  /** `POST /profile` as written: `d.get(...)` on the dictionaries, where
      the listing has no `total_correct` key, so that total is always 0. */
  function ProfilePostAsWritten(listing: seq<Summary>): ProfileStats {
    ProfileStats(|listing|, CountPositive(Project(listing, ListedAnswered)), 0,
                 Sum(Project(listing, ListedAnswered)), MaxOrZero(Project(listing, ListedStreak)))
  }

  /** The POST handler gets every statistic right except the correct
      answers, which it always reports as 0. */
  lemma ProfilePostDropsCorrect(ds: seq<Dashboard>)
    ensures ProfilePostAsWritten(Listing(ds)) == ProfileOf(ds).(totalCorrect := 0)
  {
    assert Project(Listing(ds), ListedAnswered) == Project(ds, Answered);
    assert Project(Listing(ds), ListedStreak) == Project(ds, Streak);
  }

  /** A dashboard with 7 of 10 answers right shows 0 correct answers, hence
      an average score of 0, on the page the POST handler renders. */
  lemma ProfilePostCounterexample(d: Dashboard)
    requires d.totalQuestions == 10 && d.totalCorrect == 7
    ensures ProfilePostAsWritten(Listing([d])).totalCorrect == 0
    ensures ProfileOf([d]).totalCorrect == 7
    ensures ProfilePostAsWritten(Listing([d])).totalQuestions == ProfileOf([d]).totalQuestions == 10
  {
    ProfilePostDropsCorrect([d]);
    assert Project([d], Correct) == [7] && [7][..0] == [];
  }
}
