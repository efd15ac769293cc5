/**
 * database.py: the per-session dashboard records and the paged question
 * buffer. The SQL table of dashboards is a map from session id to record,
 * held by a `DashboardStore` object whose methods update it in place, one
 * committed session at a time.
 */
module Store {
  import opened Wrappers
  import opened Json

  /** Questions served per page. */
  const PageSize: int := 10

  /** How many questions beyond the requested page's start must be buffered
      before no replenishment is asked for (three pages). */
  const LowWater: int := 30

  /** Longest notes preview before it is cut. */
  const PreviewLength: nat := 100

  /** A row of the `dashboards` table (models.py:55-65). `buffer` is the JSON
      column `buffered_questions`, which may be NULL; `createdAt` is the
      creation time, supplied by the caller. */
  datatype Dashboard = Dashboard(
    id: string,
    userId: int,
    notes: string,
    buffer: Option<seq<Json>>,
    currentSet: int,
    totalQuestions: int,
    totalCorrect: int,
    bestStreak: int,
    isGenerating: bool,
    createdAt: int)

  /** The buffer, reading NULL as the empty list. */
  function Buffered(d: Dashboard): seq<Json> {
    d.buffer.GetOr([])
  }

  // ---------------------------------------------------------------------------
  // Python slicing, for `buffered_questions[start_idx:end_idx]`
  // ---------------------------------------------------------------------------

  /** A slice bound as Python normalises it: negative counts from the end,
      and the result is clamped to `[0, len]`. */
  function SliceBound(i: int, len: nat): (b: nat)
    ensures b <= len
    ensures 0 <= i <= len ==> b == i
    ensures i > len ==> b == len
    ensures i < 0 && len + i >= 0 ==> b == len + i
    ensures len + i < 0 ==> b == 0
  {
    if i < 0 then (if len + i < 0 then 0 else len + i)
    else if i > len then len
    else i
  }

  /** `s[a:b]` */
  function PySlice<T>(s: seq<T>, a: int, b: int): seq<T> {
    var lo := SliceBound(a, |s|);
    var hi := SliceBound(b, |s|);
    if lo < hi then s[lo..hi] else []
  }

  // ---------------------------------------------------------------------------
  // get_quiz_questions (database.py:119-150), on the buffer itself
  // ---------------------------------------------------------------------------

  /** The page `n` of `buf`, served only when it is a full page, and whether
      more questions should be generated. */
  function Page(buf: seq<Json>, n: int): (Option<seq<Json>>, bool) {
    var start := n * PageSize;
    var needsMore := |buf| - start < LowWater;
    if start < |buf| && |PySlice(buf, start, start + PageSize)| == PageSize then
      (Some(PySlice(buf, start, start + PageSize)), needsMore)
    else
      (None, true)
  }

  /** For a page number `n >= 0`, page `n` is served exactly when the buffer
      holds all of `[10n, 10n + 10)`, and it is that slice. */
  lemma PageServed(buf: seq<Json>, n: int)
    requires n >= 0
    ensures Page(buf, n).0.Some? <==> n * PageSize + PageSize <= |buf|
    ensures Page(buf, n).0.Some? ==> Page(buf, n).0.value == buf[n * PageSize..n * PageSize + PageSize]
  {
    var start := n * PageSize;
    if start + PageSize <= |buf| {
      assert PySlice(buf, start, start + PageSize) == buf[start..start + PageSize];
    } else if start < |buf| {
      assert |PySlice(buf, start, start + PageSize)| == |buf| - start;
    }
  }

  /** A negative page number `n` counts from the end, as Python slicing does:
      page -1 is never served (its slice ends at index 0), and page `n <= -2`
      is the ten questions starting `-10n` from the end. */
  lemma PageFromEnd(buf: seq<Json>, n: int)
    requires n < 0
    ensures Page(buf, n).0.Some? <==> n <= -2 && |buf| + n * PageSize >= 0
    ensures Page(buf, n).0.Some? ==>
      Page(buf, n).0.value == buf[|buf| + n * PageSize..|buf| + n * PageSize + PageSize]
  {
    var start := n * PageSize;
    if n == -1 {
      assert SliceBound(start + PageSize, |buf|) == 0;
    } else if |buf| + start >= 0 {
      assert SliceBound(start, |buf|) == |buf| + start;
      assert SliceBound(start + PageSize, |buf|) == |buf| + start + PageSize;
    } else {
      assert SliceBound(start, |buf|) == 0;
      assert SliceBound(start + PageSize, |buf|) < PageSize;
    }
  }

  /** The low-water flag is `len - 10n < 30` when a page is served, and always
      set when it is not. */
  lemma PageNeedsMore(buf: seq<Json>, n: int)
    ensures Page(buf, n).0.Some? ==> (Page(buf, n).1 <==> |buf| - n * PageSize < LowWater)
    ensures Page(buf, n).0.None? ==> Page(buf, n).1
    ensures Page(buf, n).0.Some? ==> |Page(buf, n).0.value| == PageSize
  {
  }

  /** Appending to the buffer never changes a page already served with a
      non-negative page number. */
  lemma PageStableUnderAppend(buf: seq<Json>, more: seq<Json>, n: int)
    requires n >= 0 && Page(buf, n).0.Some?
    ensures Page(buf + more, n).0 == Page(buf, n).0
  {
    PageServed(buf, n);
    PageServed(buf + more, n);
    var start := n * PageSize;
    assert (buf + more)[start..start + PageSize] == buf[start..start + PageSize];
  }

  // ---------------------------------------------------------------------------
  // Notes preview (database.py:216)
  // ---------------------------------------------------------------------------

  /** Notes longer than 100 characters are cut to their first 100 followed by
      "..."; shorter notes are shown whole. */
  function NotesPreview(notes: string): (p: string)
    ensures |notes| <= PreviewLength ==> p == notes
    ensures |notes| > PreviewLength ==> |p| == PreviewLength + 3 && p[..PreviewLength] == notes[..PreviewLength] && p[PreviewLength..] == "..."
  {
    if |notes| > PreviewLength then notes[..PreviewLength] + "..." else notes
  }

  /** One entry of the `get_user_dashboards` listing; the floating-point
      accuracy is not part of the model. */
  datatype Summary = Summary(id: string, notesPreview: string, createdAt: int, totalQuestions: int, bestStreak: int)

  function Summarize(d: Dashboard): Summary {
    Summary(d.id, NotesPreview(d.notes), d.createdAt, d.totalQuestions, d.bestStreak)
  }

  /** The listing `get_user_dashboards` builds from the rows of its query:
      one summary per row, in the query's order. */
  function Listing(ds: seq<Dashboard>): (l: seq<Summary>)
    ensures |l| == |ds| && forall i :: 0 <= i < |ds| ==> l[i] == Summarize(ds[i])
  {
    seq(|ds|, i requires 0 <= i < |ds| => Summarize(ds[i]))
  }

  // ---------------------------------------------------------------------------
  // The store
  // ---------------------------------------------------------------------------

  class DashboardStore {
    /** The `dashboards` table, keyed by session id. */
    var dashboards: map<string, Dashboard>

    /** Every record is stored under its own id. */
    predicate Valid()
      reads this
    {
      forall k :: k in dashboards ==> dashboards[k].id == k
    }

    constructor ()
      ensures dashboards == map[] && Valid()
    {
      dashboards := map[];
    }

    /** `get_dashboard` */
    function Get(sessionId: string): (r: Option<Dashboard>)
      reads this
      ensures r.Some? <==> sessionId in dashboards
      ensures r.Some? ==> r.value == dashboards[sessionId]
    {
      if sessionId in dashboards then Some(dashboards[sessionId]) else None
    }

    /** `create_dashboard`: the initial questions become the buffer and the
      current set is 0; the counters and the flag take their column defaults.
      A session id already in use violates the primary key, and the error is
      passed on with nothing stored. */
    method CreateDashboard(sessionId: string, userId: int, notes: string, initialQuestions: seq<Json>, now: int)
      returns (r: Result<Dashboard, string>)
      requires Valid()
      modifies this
      ensures Valid()
      ensures sessionId in old(dashboards) ==> r.Err? && dashboards == old(dashboards)
      ensures sessionId !in old(dashboards) ==>
        && r == Ok(Dashboard(sessionId, userId, notes, Some(initialQuestions), 0, 0, 0, 0, false, now))
        && dashboards == old(dashboards)[sessionId := r.value]
    {
      if sessionId in dashboards {
        return Err("UNIQUE constraint failed: dashboards.id");
      }
      var d := Dashboard(sessionId, userId, notes, Some(initialQuestions), 0, 0, 0, 0, false, now);
      dashboards := dashboards[sessionId := d];
      r := Ok(d);
    }

    /** `update_dashboard_stats`: overwrites the three counters of an existing
      record and nothing else; a missing id changes nothing. */
    method UpdateDashboardStats(sessionId: string, totalQuestions: int, totalCorrect: int, bestStreak: int)
      requires Valid()
      modifies this
      ensures Valid()
      ensures sessionId !in old(dashboards) ==> dashboards == old(dashboards)
      ensures sessionId in old(dashboards) ==>
        dashboards == old(dashboards)[sessionId := old(dashboards)[sessionId].(
          totalQuestions := totalQuestions, totalCorrect := totalCorrect, bestStreak := bestStreak)]
    {
      if sessionId in dashboards {
        var d := dashboards[sessionId];
        dashboards := dashboards[sessionId := d.(totalQuestions := totalQuestions, totalCorrect := totalCorrect, bestStreak := bestStreak)];
      }
    }

    /** `get_quiz_questions`: a missing record gives `(None, False)`; otherwise
      a NULL buffer is first stored as the empty list, and the answer is the
      page of the buffer. */
    method GetQuizQuestions(sessionId: string, setNumber: int) returns (questions: Option<seq<Json>>, needsMore: bool)
      requires Valid()
      modifies this
      ensures Valid()
      ensures sessionId !in old(dashboards) ==> questions == None && !needsMore && dashboards == old(dashboards)
      ensures sessionId in old(dashboards) ==>
        && (questions, needsMore) == Page(Buffered(old(dashboards)[sessionId]), setNumber)
        && dashboards == old(dashboards)[sessionId := old(dashboards)[sessionId].(buffer := Some(Buffered(old(dashboards)[sessionId])))]
    {
      if sessionId !in dashboards {
        return None, false;
      }
      var d := dashboards[sessionId];
      if d.buffer.None? {
        d := d.(buffer := Some([]));
        dashboards := dashboards[sessionId := d];
      }
      var buf := d.buffer.value;
      var start := setNumber * PageSize;
      var endIdx := start + PageSize;
      needsMore := |buf| - start < LowWater;
      if start < |buf| {
        var slice := PySlice(buf, start, endIdx);
        if |slice| == PageSize {
          return Some(slice), needsMore;
        }
      }
      if d.isGenerating {
        return None, true;
      }
      return None, true;
    }

    /** `add_questions_to_buffer`: the buffer (NULL read as empty) followed by
      the new questions; a missing id changes nothing. */
    method AddQuestionsToBuffer(sessionId: string, newQuestions: seq<Json>)
      requires Valid()
      modifies this
      ensures Valid()
      ensures sessionId !in old(dashboards) ==> dashboards == old(dashboards)
      ensures sessionId in old(dashboards) ==>
        dashboards == old(dashboards)[sessionId := old(dashboards)[sessionId].(
          buffer := Some(Buffered(old(dashboards)[sessionId]) + newQuestions))]
    {
      if sessionId in dashboards {
        var d := dashboards[sessionId];
        var updated := Buffered(d);
        updated := updated + newQuestions;
        dashboards := dashboards[sessionId := d.(buffer := Some(updated))];
      }
    }

    /** `set_generating_status` */
    method SetGeneratingStatus(sessionId: string, isGenerating: bool)
      requires Valid()
      modifies this
      ensures Valid()
      ensures sessionId !in old(dashboards) ==> dashboards == old(dashboards)
      ensures sessionId in old(dashboards) ==>
        dashboards == old(dashboards)[sessionId := old(dashboards)[sessionId].(isGenerating := isGenerating)]
      ensures IsGeneratingQuestions(sessionId) == (isGenerating && sessionId in dashboards)
    {
      if sessionId in dashboards {
        var d := dashboards[sessionId];
        dashboards := dashboards[sessionId := d.(isGenerating := isGenerating)];
      }
    }

    /** `is_generating_questions`: a missing record reads as not generating. */
    predicate IsGeneratingQuestions(sessionId: string)
      reads this
    {
      sessionId in dashboards && dashboards[sessionId].isGenerating
    }

    /** `delete_dashboard`: true exactly when the record existed; afterwards it
      is gone and every other record is as it was. */
    method DeleteDashboard(sessionId: string) returns (existed: bool)
      requires Valid()
      modifies this
      ensures Valid()
      ensures existed <==> sessionId in old(dashboards)
      ensures dashboards == old(dashboards) - {sessionId}
      ensures Get(sessionId).None?
    {
      existed := sessionId in dashboards;
      if existed {
        dashboards := dashboards - {sessionId};
      }
    }

    /** The records stored under `ids`, in that order. */
    function Rows(ids: seq<string>): (rows: seq<Dashboard>)
      reads this
      requires forall i :: 0 <= i < |ids| ==> ids[i] in dashboards
      ensures |rows| == |ids| && forall i :: 0 <= i < |ids| ==> rows[i] == dashboards[ids[i]]
    {
      var m := dashboards;
      seq(|ids|, i requires 0 <= i < |ids| && ids[i] in m => m[ids[i]])
    }

    /** The rows of `userId`, newest first, as the query of
      `get_user_dashboards` returns them. */
    predicate IsUserListing(userId: int, ids: seq<string>)
      reads this
    {
      && (forall i :: 0 <= i < |ids| ==> ids[i] in dashboards && dashboards[ids[i]].userId == userId)
      && (forall k :: k in dashboards && dashboards[k].userId == userId ==> k in ids)
      && (forall i, j :: 0 <= i < j < |ids| ==> ids[i] != ids[j])
      && (forall i, j :: 0 <= i < j < |ids| ==> dashboards[ids[i]].createdAt >= dashboards[ids[j]].createdAt)
    }

    /** `get_user_dashboards`: one summary per row of the query, in its
      order. The query's ordering is done by the database and is an
      argument here. */
    method GetUserDashboards(userId: int, ids: seq<string>) returns (list: seq<Summary>)
      requires IsUserListing(userId, ids)
      ensures |list| == |ids|
      ensures forall i :: 0 <= i < |ids| ==> list[i] == Summarize(dashboards[ids[i]])
      ensures list == Listing(Rows(ids))
    {
      list := [];
      for i := 0 to |ids|
        invariant |list| == i
        invariant forall j :: 0 <= j < i ==> list[j] == Summarize(dashboards[ids[j]])
      {
        var d := dashboards[ids[i]];
        var preview := if |d.notes| > PreviewLength then d.notes[..PreviewLength] + "..." else d.notes;
        list := list + [Summary(d.id, preview, d.createdAt, d.totalQuestions, d.bestStreak)];
      }
    }
  }

  /** Reading the same page twice in a row gives the same answer: the only
      change the first read makes is storing a NULL buffer as the empty list. */
  method ReadPageTwice(store: DashboardStore, sessionId: string, setNumber: int)
    returns (first: (Option<seq<Json>>, bool), second: (Option<seq<Json>>, bool))
    requires store.Valid()
    modifies store
    ensures first == second
  {
    var q1, m1 := store.GetQuizQuestions(sessionId, setNumber);
    var q2, m2 := store.GetQuizQuestions(sessionId, setNumber);
    first, second := (q1, m1), (q2, m2);
  }
}
