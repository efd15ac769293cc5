/**
 * main.py: the background replenishment of a session's question buffer, the
 * decision of `get_quiz_data`, and the folding of submitted results into a
 * dashboard's counters. Calls run one at a time; the quiz generator is a
 * parameter.
 */
module QuizService {
  import opened Wrappers
  import opened Json
  import opened QuizFormat
  import opened Store

  /** Generation attempts per replenishment. */
  const Attempts: nat := 3

  /** The model behind `generate_quiz`: its reply to the notes on attempt `k`
      (counting from 0), or `None` when the HTTP exchange fails. */
  type Generator = (string, nat) -> Option<string>

  // ---------------------------------------------------------------------------
  // generate_more_questions (main.py:77-104)
  // ---------------------------------------------------------------------------

  /** The questions one attempt adds, given the generator's reply: the
      `questions` list of an accepted batch, and nothing when the attempt
      raises. */
  function Batch(reply: Option<string>, parse: string -> Option<Json>): seq<Json> {
    match reply
    case None => []
    case Some(text) =>
      match GenerateQuiz(text, parse)
      case Err(_) => []
      case Ok(v) => Questions(v)
  }

  /** Either nothing or a whole batch of ten well-formed questions. */
  predicate BatchShaped(b: seq<Json>) {
    (b == [] || |b| == BatchSize) && forall i :: 0 <= i < |b| ==> WellFormedQuestion(b[i])
  }

  /** An attempt adds nothing exactly when the generator fails or its reply
      is rejected, and otherwise adds a whole well-formed batch. */
  lemma BatchShape(reply: Option<string>, parse: string -> Option<Json>)
    ensures BatchShaped(Batch(reply, parse))
    ensures Batch(reply, parse) == [] <==> reply.None? || GenerateQuiz(reply.value, parse).Err?
  {
  }

  /** The batches of the first `n` attempts, in attempt order: attempt `k`
      contributes the batch of the generator's `k`-th reply. */
  function Batches(notes: string, llm: Generator, parse: string -> Option<Json>, n: nat): (bs: seq<seq<Json>>)
    ensures |bs| == n
    ensures forall k :: 0 <= k < n ==> bs[k] == Batch(llm(notes, k), parse)
  {
    if n == 0 then [] else Batches(notes, llm, parse, n - 1) + [Batch(llm(notes, n - 1), parse)]
  }

  function Concat(bs: seq<seq<Json>>): seq<Json> {
    if bs == [] then [] else Concat(bs[..|bs| - 1]) + bs[|bs| - 1]
  }

  /** How many of the batches are non-empty. */
  function NonEmpty(bs: seq<seq<Json>>): (c: nat)
    ensures c <= |bs|
  {
    if bs == [] then 0 else NonEmpty(bs[..|bs| - 1]) + (if bs[|bs| - 1] == [] then 0 else 1)
  }

  /** All the questions the first `n` attempts add, in attempt order. */
  function NewQuestions(notes: string, llm: Generator, parse: string -> Option<Json>, n: nat): seq<Json> {
    Concat(Batches(notes, llm, parse, n))
  }

  /** How many of the first `n` attempts add a batch. */
  function Successes(notes: string, llm: Generator, parse: string -> Option<Json>, n: nat): nat {
    NonEmpty(Batches(notes, llm, parse, n))
  }

  /** One more attempt appends its batch. */
  lemma NewQuestionsStep(notes: string, llm: Generator, parse: string -> Option<Json>, k: nat)
    ensures NewQuestions(notes, llm, parse, k + 1) == NewQuestions(notes, llm, parse, k) + Batch(llm(notes, k), parse)
  {
    var bs := Batches(notes, llm, parse, k + 1);
    assert bs[..|bs| - 1] == Batches(notes, llm, parse, k);
  }

  /** Concatenated shaped batches hold ten questions per non-empty batch, all
      well-formed. */
  lemma {:induction false} ConcatShape(bs: seq<seq<Json>>)
    requires forall k :: 0 <= k < |bs| ==> BatchShaped(bs[k])
    ensures |Concat(bs)| == BatchSize * NonEmpty(bs)
    ensures forall i :: 0 <= i < |Concat(bs)| ==> WellFormedQuestion(Concat(bs)[i])
  {
    if bs != [] {
      var init := bs[..|bs| - 1];
      var b := bs[|bs| - 1];
      assert BatchShaped(b);
      assert forall k :: 0 <= k < |init| ==> init[k] == bs[k];
      ConcatShape(init);
      var a := Concat(init);
      forall i | 0 <= i < |a + b| ensures WellFormedQuestion((a + b)[i]) {
        if i >= |a| {
          assert (a + b)[i] == b[i - |a|];
        }
      }
    }
  }

  /** Every batch an attempt yields is shaped. */
  lemma {:induction false} BatchesShaped(notes: string, llm: Generator, parse: string -> Option<Json>, n: nat)
    ensures forall k :: 0 <= k < n ==> BatchShaped(Batches(notes, llm, parse, n)[k])
  {
    forall k | 0 <= k < n ensures BatchShaped(Batches(notes, llm, parse, n)[k]) {
      BatchShape(llm(notes, k), parse);
    }
  }

  /** The first `n` attempts add one whole batch per successful attempt, and
      only well-formed questions. */
  lemma NewQuestionsShape(notes: string, llm: Generator, parse: string -> Option<Json>, n: nat)
    ensures |NewQuestions(notes, llm, parse, n)| == BatchSize * Successes(notes, llm, parse, n)
    ensures Successes(notes, llm, parse, n) <= n
    ensures forall i :: 0 <= i < |NewQuestions(notes, llm, parse, n)| ==> WellFormedQuestion(NewQuestions(notes, llm, parse, n)[i])
  {
    BatchesShaped(notes, llm, parse, n);
    ConcatShape(Batches(notes, llm, parse, n));
  }

  /** Only empty batches concatenate to nothing. */
  lemma {:induction false} ConcatEmpty(bs: seq<seq<Json>>)
    ensures Concat(bs) == [] <==> forall k :: 0 <= k < |bs| ==> bs[k] == []
  {
    if bs != [] {
      var init := bs[..|bs| - 1];
      assert forall k :: 0 <= k < |init| ==> init[k] == bs[k];
      ConcatEmpty(init);
    }
  }

  /** Every batch counts exactly when none is empty. */
  lemma {:induction false} NonEmptyAll(bs: seq<seq<Json>>)
    ensures NonEmpty(bs) == |bs| <==> forall k :: 0 <= k < |bs| ==> bs[k] != []
  {
    if bs != [] {
      var init := bs[..|bs| - 1];
      assert forall k :: 0 <= k < |init| ==> init[k] == bs[k];
      NonEmptyAll(init);
    }
  }

  /** Nothing is added exactly when every attempt fails, and three full
      batches exactly when every attempt succeeds. */
  lemma Extremes(notes: string, llm: Generator, parse: string -> Option<Json>, n: nat)
    ensures NewQuestions(notes, llm, parse, n) == [] <==>
      forall k :: 0 <= k < n ==> Batch(llm(notes, k), parse) == []
    ensures Successes(notes, llm, parse, n) == n <==>
      forall k :: 0 <= k < n ==> Batch(llm(notes, k), parse) != []
  {
    var bs := Batches(notes, llm, parse, n);
    ConcatEmpty(bs);
    NonEmptyAll(bs);
  }

  /** The buffer column after appending `more`: untouched when nothing is
      appended, since `add_questions_to_buffer` is then never called. */
  function Extend(buffer: Option<seq<Json>>, more: seq<Json>): (r: Option<seq<Json>>)
    ensures r.GetOr([]) == buffer.GetOr([]) + more
    ensures r.None? <==> buffer.None? && more == []
  {
    if more == [] then buffer else Some(buffer.GetOr([]) + more)
  }

  lemma ExtendTwice(buffer: Option<seq<Json>>, more: seq<Json>, b: seq<Json>)
    ensures Extend(buffer, more + b) == Extend(Extend(buffer, more), b)
  {
    if b == [] {
      assert more + b == more;
    } else {
      assert buffer.GetOr([]) + (more + b) == (buffer.GetOr([]) + more) + b;
    }
  }

  /** Two appends to one record's buffer, one after the other, are one
      append of both. */
  lemma ExtendRecordTwice(m: map<string, Dashboard>, mid: map<string, Dashboard>, last: map<string, Dashboard>,
                          sessionId: string, more: seq<Json>, b: seq<Json>)
    requires sessionId in m
    requires mid == m[sessionId := m[sessionId].(buffer := Extend(m[sessionId].buffer, more))]
    requires last == mid[sessionId := mid[sessionId].(buffer := Extend(mid[sessionId].buffer, b))]
    ensures last == m[sessionId := m[sessionId].(buffer := Extend(m[sessionId].buffer, more + b))]
  {
    ExtendTwice(m[sessionId].buffer, more, b);
  }

  /** One attempt of `generate_more_questions` once the generator has
      answered: a failed exchange or a rejected reply adds nothing, and a
      non-empty accepted batch is appended to the buffer. */
  method AddBatch(store: DashboardStore, sessionId: string, reply: Option<string>, parse: string -> Option<Json>)
    requires store.Valid()
    modifies store
    ensures store.Valid()
    ensures sessionId !in old(store.dashboards) ==> store.dashboards == old(store.dashboards)
    ensures sessionId in old(store.dashboards) ==>
      store.dashboards == old(store.dashboards)[sessionId := old(store.dashboards)[sessionId].(
        buffer := Extend(old(store.dashboards)[sessionId].buffer, Batch(reply, parse)))]
  {
    if reply.None? {
      return;
    }
    var response := GenerateQuiz(reply.value, parse);
    if response.Err? {
      return;
    }
    var newQuestions := Questions(response.value);
    if newQuestions != [] {
      store.AddQuestionsToBuffer(sessionId, newQuestions);
    }
  }

  /** The three attempts of `generate_more_questions`, appending each batch
      as it is accepted. `calls` counts the generator calls. */
  method RunAttempts(store: DashboardStore, sessionId: string, notes: string,
                     llm: Generator, parse: string -> Option<Json>)
    returns (calls: nat)
    requires store.Valid()
    modifies store
    ensures store.Valid()
    ensures calls == Attempts
    ensures sessionId !in old(store.dashboards) ==> store.dashboards == old(store.dashboards)
    ensures sessionId in old(store.dashboards) ==>
      store.dashboards == old(store.dashboards)[sessionId := old(store.dashboards)[sessionId].(
        buffer := Extend(old(store.dashboards)[sessionId].buffer, NewQuestions(notes, llm, parse, Attempts)))]
  {
    calls := 0;
    for k := 0 to Attempts
      invariant store.Valid()
      invariant calls == k
      invariant sessionId !in old(store.dashboards) ==> store.dashboards == old(store.dashboards)
      invariant sessionId in old(store.dashboards) ==>
        store.dashboards == old(store.dashboards)[sessionId := old(store.dashboards)[sessionId].(
          buffer := Extend(old(store.dashboards)[sessionId].buffer, NewQuestions(notes, llm, parse, k)))]
    {
      ghost var before := store.dashboards;
      var reply := llm(notes, k);
      calls := calls + 1;
      AddBatch(store, sessionId, reply, parse);
      if sessionId in old(store.dashboards) {
        NewQuestionsStep(notes, llm, parse, k);
        ExtendRecordTwice(old(store.dashboards), before, store.dashboards, sessionId,
                          NewQuestions(notes, llm, parse, k), Batch(reply, parse));
      }
    }
  }

  /** `generate_more_questions`. If the session's flag is already set it
      returns at once and changes nothing. Otherwise it sets the flag, makes
      the three attempts, and clears the flag at the end. */
  method GenerateMoreQuestions(store: DashboardStore, sessionId: string, notes: string,
                               llm: Generator, parse: string -> Option<Json>)
    returns (calls: nat)
    requires store.Valid()
    modifies store
    ensures store.Valid()
    ensures old(store.IsGeneratingQuestions(sessionId)) ==> calls == 0 && store.dashboards == old(store.dashboards)
    ensures !old(store.IsGeneratingQuestions(sessionId)) ==>
      && calls == Attempts
      && !store.IsGeneratingQuestions(sessionId)
      && (sessionId !in old(store.dashboards) ==> store.dashboards == old(store.dashboards))
      && (sessionId in old(store.dashboards) ==>
            store.dashboards == old(store.dashboards)[sessionId := old(store.dashboards)[sessionId].(
              buffer := Extend(old(store.dashboards)[sessionId].buffer, NewQuestions(notes, llm, parse, Attempts)))])
  {
    calls := 0;
    if store.IsGeneratingQuestions(sessionId) {
      return;
    }
    store.SetGeneratingStatus(sessionId, true);
    calls := RunAttempts(store, sessionId, notes, llm, parse);
    store.SetGeneratingStatus(sessionId, false);
  }

  // ---------------------------------------------------------------------------
  // get_quiz_data (main.py:210-234)
  // ---------------------------------------------------------------------------

  /** The answer of `GET /api/quiz/{id}`: 404, 202, or the page. */
  datatype QuizData =
    | NotFound
    | NotReady
    | Served(questions: seq<Json>, setNumber: int, hasNext: bool)

  /** What the endpoint answers for an existing session, given the result of
      `get_quiz_questions` and the flag read after it, and whether it
      schedules a replenishment. */
  function Decide(questions: Option<seq<Json>>, needsMore: bool, generating: bool, setNumber: int): (r: (QuizData, bool))
    ensures r.1 <==> needsMore && !generating
    ensures questions.None? <==> r.0 == NotReady
    ensures questions.Some? ==> r.0 == Served(questions.value, setNumber, true)
  {
    var schedule := needsMore && !generating;
    if questions.None? then (NotReady, schedule)
    else (Served(questions.value, setNumber, true), schedule)
  }

  /** `get_quiz_data`: the page of the session's buffer, decided by `Decide`.
      The background task it schedules runs after the answer and is not part
      of this call. */
  method GetQuizData(store: DashboardStore, quizId: string, setNumber: int) returns (resp: QuizData, schedule: bool)
    requires store.Valid()
    modifies store
    ensures store.Valid()
    ensures quizId !in old(store.dashboards) ==> resp == NotFound && !schedule && store.dashboards == old(store.dashboards)
    ensures quizId in old(store.dashboards) ==>
      var d := old(store.dashboards)[quizId];
      var (questions, needsMore) := Page(Buffered(d), setNumber);
      && (resp, schedule) == Decide(questions, needsMore, d.isGenerating, setNumber)
      && store.dashboards == old(store.dashboards)[quizId := d.(buffer := Some(Buffered(d)))]
  {
    if store.Get(quizId).None? {
      return NotFound, false;
    }
    var questions, needsMore := store.GetQuizQuestions(quizId, setNumber);
    var generating := store.IsGeneratingQuestions(quizId);
    schedule := needsMore && !generating;
    if questions.None? {
      return NotReady, schedule;
    }
    resp := Served(questions.value, setNumber, true);
  }

  /** An unserved page always asks for more questions, so it schedules a
      replenishment exactly when none is running. */
  lemma NotReadySchedulesUnlessRunning(buf: seq<Json>, setNumber: int, generating: bool)
    requires Page(buf, setNumber).0.None?
    ensures var (q, m) := Page(buf, setNumber); Decide(q, m, generating, setNumber) == (NotReady, !generating)
  {
    PageNeedsMore(buf, setNumber);
  }

  /** With at least three full pages buffered from a served page on, nothing
      is scheduled. */
  lemma FullBufferSchedulesNothing(buf: seq<Json>, n: nat, generating: bool)
    requires |buf| >= n * PageSize + LowWater
    ensures var (q, m) := Page(buf, n); Decide(q, m, generating, n) == (Served(buf[n * PageSize..n * PageSize + PageSize], n, true), false)
  {
    PageServed(buf, n);
  }

  // ---------------------------------------------------------------------------
  // submit_quiz_results (main.py:539-566)
  // ---------------------------------------------------------------------------

  /** One submitted result, with `streak` already defaulted to 0 when absent. */
  datatype Submission = Submission(answered: int, correct: int, streak: int)

  /** The request body of `submit_quiz_results`; a missing key raises
      `KeyError`, which becomes a 500 answer. */
  function ReadSubmission(results: map<string, int>): (r: Option<Submission>)
    ensures r.Some? <==> "total_questions" in results && "correct_answers" in results
    ensures r.Some? ==> r.value.answered == results["total_questions"] && r.value.correct == results["correct_answers"]
    ensures r.Some? ==> r.value.streak == (if "streak" in results then results["streak"] else 0)
  {
    if "total_questions" in results && "correct_answers" in results then
      Some(Submission(results["total_questions"], results["correct_answers"],
                      if "streak" in results then results["streak"] else 0))
    else None
  }

  function Max(a: int, b: int): int {
    if a >= b then a else b
  }

  /** The counters after one submission. */
  function Apply(d: Dashboard, s: Submission): Dashboard {
    d.(totalQuestions := d.totalQuestions + s.answered,
       totalCorrect := d.totalCorrect + s.correct,
       bestStreak := Max(d.bestStreak, s.streak))
  }

  /** The counters after a sequence of submissions, in order. */
  function ApplyAll(d: Dashboard, subs: seq<Submission>): Dashboard
    decreases |subs|
  {
    if subs == [] then d else ApplyAll(Apply(d, subs[0]), subs[1..])
  }

  function SumAnswered(subs: seq<Submission>): int {
    if subs == [] then 0 else subs[0].answered + SumAnswered(subs[1..])
  }

  function SumCorrect(subs: seq<Submission>): int {
    if subs == [] then 0 else subs[0].correct + SumCorrect(subs[1..])
  }

  /** The largest streak submitted, or `floor` when it is larger. */
  function MaxStreak(floor: int, subs: seq<Submission>): int {
    if subs == [] then floor else Max(subs[0].streak, MaxStreak(floor, subs[1..]))
  }

  /** After any sequence of submissions the totals are the old totals plus the
      sums, the best streak is the largest of the old one and every submitted
      streak, and nothing else about the record changes. */
  lemma {:induction false} ApplyAllFolds(d: Dashboard, subs: seq<Submission>)
    ensures ApplyAll(d, subs).totalQuestions == d.totalQuestions + SumAnswered(subs)
    ensures ApplyAll(d, subs).totalCorrect == d.totalCorrect + SumCorrect(subs)
    ensures ApplyAll(d, subs).bestStreak == MaxStreak(d.bestStreak, subs)
    ensures ApplyAll(d, subs) == d.(totalQuestions := ApplyAll(d, subs).totalQuestions,
                                    totalCorrect := ApplyAll(d, subs).totalCorrect,
                                    bestStreak := ApplyAll(d, subs).bestStreak)
    decreases |subs|
  {
    if subs != [] {
      ApplyAllFolds(Apply(d, subs[0]), subs[1..]);
      MaxStreakShift(d.bestStreak, subs[0].streak, subs[1..]);
    }
  }

  lemma {:induction false} MaxStreakShift(floor: int, s: int, subs: seq<Submission>)
    ensures MaxStreak(Max(floor, s), subs) == Max(s, MaxStreak(floor, subs))
  {
    if subs != [] {
      MaxStreakShift(floor, s, subs[1..]);
    }
  }

  /** The best streak never decreases and bounds every submitted streak. */
  lemma {:induction false} MaxStreakBounds(floor: int, subs: seq<Submission>)
    ensures MaxStreak(floor, subs) >= floor
    ensures forall i :: 0 <= i < |subs| ==> MaxStreak(floor, subs) >= subs[i].streak
  {
    if subs != [] {
      MaxStreakBounds(floor, subs[1..]);
      forall i | 1 <= i < |subs| ensures MaxStreak(floor, subs[1..]) >= subs[i].streak {
        assert subs[i] == subs[1..][i - 1];
      }
    }
  }

  /** `submit_quiz_results`: a body without `total_questions` or
      `correct_answers` is an error and changes nothing; otherwise an existing
      session's counters get the submission folded in, and the answer is a
      success whether the session exists or not. */
  method SubmitQuizResults(store: DashboardStore, sessionId: string, results: map<string, int>) returns (r: Result<(), string>)
    requires store.Valid()
    modifies store
    ensures store.Valid()
    ensures ReadSubmission(results).None? ==> r.Err? && store.dashboards == old(store.dashboards)
    ensures ReadSubmission(results).Some? ==> r.Ok?
    ensures ReadSubmission(results).Some? && sessionId !in old(store.dashboards) ==> store.dashboards == old(store.dashboards)
    ensures ReadSubmission(results).Some? && sessionId in old(store.dashboards) ==>
      store.dashboards == old(store.dashboards)[sessionId := Apply(old(store.dashboards)[sessionId], ReadSubmission(results).value)]
  {
    if "total_questions" !in results || "correct_answers" !in results {
      return Err("Failed to submit results: missing key");
    }
    var streak := if "streak" in results then results["streak"] else 0;
    var dashboard := store.Get(sessionId);
    if dashboard.Some? {
      var d := dashboard.value;
      var newTotal := d.totalQuestions + results["total_questions"];
      var newCorrect := d.totalCorrect + results["correct_answers"];
      var newStreak := Max(d.bestStreak, streak);
      store.UpdateDashboardStats(sessionId, newTotal, newCorrect, newStreak);
    }
    r := Ok(());
  }
}
