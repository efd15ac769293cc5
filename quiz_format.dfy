/**
 * The response-handling half of `QuizGenerator.generate_quiz`: pull the JSON
 * payload out of a ```json fence if the model wrapped it in one, parse it
 * (an abstract parser stands in for `json.loads`), and validate the parsed
 * value all-or-nothing.
 */
module QuizFormat {
  import opened Wrappers
  import opened Text
  import opened Json

  const OpenFence: string := "```json"
  const CloseFence: string := "```"

  /** Number of questions one generator call must produce. */
  const BatchSize: nat := 10

  /** The four option labels, also the only acceptable answers. */
  const Labels: seq<string> := ["A", "B", "C", "D"]

  // ---------------------------------------------------------------------------
  // Fence extraction: re.search(r'```json\s*(.*?)\s*```', content, re.DOTALL)
  // ---------------------------------------------------------------------------

  /** The index just past the whitespace run that starts at `i` (greedy `\s*`). */
  function SkipSpace(s: string, i: nat): (j: nat)
    requires i <= |s|
    ensures i <= j <= |s|
    ensures AllSpace(s[i..j])
    ensures j == |s| || !IsSpace(s[j])
    decreases |s| - i
  {
    if i < |s| && IsSpace(s[i]) then SkipSpace(s, i + 1) else i
  }

  /** The lazy group may end at `e`: `\s*```` matches from there. */
  predicate ClosesAt(s: string, e: nat)
    requires e <= |s|
  {
    OccursAt(s, CloseFence, SkipSpace(s, e))
  }

  /** The shortest extension of the lazy group `(.*?)` starting at `e`. */
  function FindClose(s: string, e: nat): (r: Option<nat>)
    requires e <= |s|
    ensures r.Some? ==> e <= r.value <= |s| && ClosesAt(s, r.value)
    ensures r.Some? ==> forall k :: e <= k < r.value ==> !ClosesAt(s, k)
    ensures r.None? ==> forall k :: e <= k <= |s| ==> !ClosesAt(s, k)
    decreases |s| - e
  {
    if ClosesAt(s, e) then Some(e)
    else if e == |s| then None
    else FindClose(s, e + 1)
  }

  /** The fence pattern matches with its opening fence at `i`. */
  predicate FenceAt(s: string, i: nat)
    requires i <= |s|
  {
    OccursAt(s, OpenFence, i) && FindClose(s, SkipSpace(s, i + |OpenFence|)).Some?
  }

  /** `re.search`: the leftmost position at or after `i` where the pattern matches. */
  function SearchFence(s: string, i: nat): (r: Option<nat>)
    requires i <= |s|
    ensures r.None? ==> forall j :: i <= j <= |s| ==> !FenceAt(s, j)
    ensures r.Some? ==> i <= r.value <= |s| && FenceAt(s, r.value)
    ensures r.Some? ==> forall j :: i <= j < r.value ==> !FenceAt(s, j)
    decreases |s| - i
  {
    if FenceAt(s, i) then Some(i)
    else if i == |s| then None
    else SearchFence(s, i + 1)
  }

  /** Lines 150-152: the text handed to the JSON parser. */
  function ExtractPayload(content: string): (payload: string)
    // No fence: the whole content is parsed.
    ensures (forall j :: 0 <= j <= |content| ==> !FenceAt(content, j)) ==> payload == content
    // A fence: the payload is the group of the leftmost match, which sits
    // between the opening fence plus whitespace and whitespace plus the first
    // closing fence after it; it has no whitespace at either end and contains
    // no closing fence of its own.
    ensures (exists j :: 0 <= j <= |content| && FenceAt(content, j)) ==>
      exists start, body, bodyEnd :: FencedPayload(content, payload, start, body, bodyEnd)
  {
    match SearchFence(content, 0)
    case Some(start) =>
      var body := SkipSpace(content, start + |OpenFence|);
      var bodyEnd := FindClose(content, body).value;
      GroupFacts(content, start, body, bodyEnd);
      assert FencedPayload(content, content[body..bodyEnd], start, body, bodyEnd);
      content[body..bodyEnd]
    case None => content
  }

  /** `payload` is `content[body..bodyEnd]`, the group of the leftmost match
      of the fence pattern, whose opening fence starts at `start`: the opening
      fence and all the whitespace after it come before it, whitespace and a
      closing fence after it, and it ends at the first position from which
      a closing fence follows; it has no whitespace at either end and holds
      no closing fence. */
  predicate FencedPayload(content: string, payload: string, start: nat, body: nat, bodyEnd: nat) {
    && start + |OpenFence| <= body <= bodyEnd <= |content|
    && OccursAt(content, OpenFence, start)
    && (forall k :: 0 <= k < start ==> !FenceAt(content, k))
    && body == SkipSpace(content, start + |OpenFence|)
    && payload == content[body..bodyEnd]
    && OccursAt(content, CloseFence, SkipSpace(content, bodyEnd))
    && (forall k :: body <= k < bodyEnd ==> !ClosesAt(content, k))
    && Trimmed(payload)
    && !Contains(payload, CloseFence)
  }

  /** The description of a fenced payload fits one text only: whatever match
      position and group bounds satisfy it, the payload is the one extracted. */
  lemma FencedPayloadDetermined(content: string, payload: string, start: nat, body: nat, bodyEnd: nat)
    requires FencedPayload(content, payload, start, body, bodyEnd)
    ensures payload == ExtractPayload(content)
  {
    assert ClosesAt(content, bodyEnd);
    assert FindClose(content, body) == Some(bodyEnd);
    assert FenceAt(content, start);
    assert SearchFence(content, 0) == Some(start);
  }

  /** The captured group of a match has no whitespace at its ends and no
      closing fence inside: greedy `\s*` on both sides and the laziness of
      `(.*?)` leave none there. */
  lemma GroupFacts(s: string, start: nat, body: nat, bodyEnd: nat)
    requires start + |OpenFence| <= |s|
    requires body == SkipSpace(s, start + |OpenFence|)
    requires FindClose(s, body) == Some(bodyEnd)
    ensures body <= bodyEnd <= |s|
    ensures Trimmed(s[body..bodyEnd])
    ensures !Contains(s[body..bodyEnd], CloseFence)
  {
    GroupEndNotSpace(s, body, bodyEnd);
    GroupHasNoClose(s, body, bodyEnd);
  }

  lemma GroupEndNotSpace(s: string, body: nat, bodyEnd: nat)
    requires body <= |s| && FindClose(s, body) == Some(bodyEnd)
    ensures body < bodyEnd ==> !IsSpace(s[bodyEnd - 1])
  {
    if body < bodyEnd {
      assert !ClosesAt(s, bodyEnd - 1);
    }
  }

  lemma GroupHasNoClose(s: string, body: nat, bodyEnd: nat)
    requires body <= |s| && FindClose(s, body) == Some(bodyEnd)
    ensures !Contains(s[body..bodyEnd], CloseFence)
  {
    var g := s[body..bodyEnd];
    forall p | 0 <= p <= |g| - |CloseFence|
      ensures !OccursAt(g, CloseFence, p)
    {
      assert !ClosesAt(s, body + p);
      OccursInSlice(s, body, bodyEnd, CloseFence, p);
      CloseFenceSkip(s, body + p);
    }
  }

  lemma OccursInSlice(s: string, lo: nat, hi: nat, sub: string, p: nat)
    requires lo <= hi <= |s|
    ensures OccursAt(s[lo..hi], sub, p) ==> OccursAt(s, sub, lo + p)
  {
    if OccursAt(s[lo..hi], sub, p) {
      var n := |sub|;
      var a, b := s[lo + p..lo + p + n], s[lo..hi][p..p + n];
      forall k | 0 <= k < n ensures a[k] == b[k] {
        assert s[lo..hi][p + k] == s[lo + p + k];
      }
      assert a == b;
    }
  }

  lemma CloseFenceSkip(s: string, q: nat)
    requires q <= |s|
    ensures OccursAt(s, CloseFence, q) ==> SkipSpace(s, q) == q
  {
    if OccursAt(s, CloseFence, q) {
      assert s[q] == s[q..q + 3][0] == '`';
    }
  }

  // ---------------------------------------------------------------------------
  // Structural validation of the parsed value (lines 162-181)
  // ---------------------------------------------------------------------------

  /** Why a batch is rejected; indices are 1-based as in the messages. */
  datatype QuizError =
    | JsonParseError                       // json.loads failed
    | MissingQuestionsArray                // not a dict, or no 'questions' key
    | QuestionsNotArray                    // 'questions' is not a list
    | WrongCount(got: nat)                 // not exactly 10 questions
    | MissingFields(index: nat)            // a required key is missing
    | MissingOptions(index: nat)           // one of A-D is missing from options
    | InvalidAnswer(index: nat, answer: Json)
    | TypeMismatch                         // Python raised TypeError on `in` or `[]`

  /** The value of `correct_answer` compares equal to one of 'A'..'D'. */
  predicate IsLabel(v: Json) {
    v == JString("A") || v == JString("B") || v == JString("C") || v == JString("D")
  }

  /** Checks one question, `index` 1-based, in the order the source does. */
  function CheckQuestion(index: nat, q: Json): Option<QuizError> {
    match (PyIn("question_text", q), PyIn("options", q), PyIn("correct_answer", q))
    case (Some(a), Some(b), Some(c)) =>
      if !(a && b && c) then Some(MissingFields(index))
      else if !q.JObject? then Some(TypeMismatch)        // list['options'] or str['options']
      else
        var o := q.fields["options"];
        if !(o.JObject? || o.JArray? || o.JString?) then Some(TypeMismatch)
        else if !(PyIn("A", o) == Some(true) && PyIn("B", o) == Some(true)
                  && PyIn("C", o) == Some(true) && PyIn("D", o) == Some(true))
        then Some(MissingOptions(index))
        else if !IsLabel(q.fields["correct_answer"]) then Some(InvalidAnswer(index, q.fields["correct_answer"]))
        else None
    case _ => Some(TypeMismatch)
  }

  /** The `for i, q in enumerate(questions)` loop: the position of the first
      question that fails its checks (`|qs|` when none does). */
  function FirstFailure(qs: seq<Json>, from: nat): (i: nat)
    requires from <= |qs|
    ensures from <= i <= |qs|
    ensures forall j :: from <= j < i ==> CheckQuestion(j + 1, qs[j]).None?
    ensures i < |qs| ==> CheckQuestion(i + 1, qs[i]).Some?
    decreases |qs| - from
  {
    if from == |qs| || CheckQuestion(from + 1, qs[from]).Some? then from
    else FirstFailure(qs, from + 1)
  }

  /** The validation block: returns the parsed value unchanged, or the first
      violation. */
  function Validate(v: Json): (r: Result<Json, QuizError>)
    ensures r.Ok? ==> r.value == v
  {
    if !v.JObject? || "questions" !in v.fields then Err(MissingQuestionsArray)
    else if !v.fields["questions"].JArray? then Err(QuestionsNotArray)
    else
      var qs := v.fields["questions"].items;
      if |qs| != BatchSize then Err(WrongCount(|qs|))
      else
        var i := FirstFailure(qs, 0);
        if i < |qs| then Err(CheckQuestion(i + 1, qs[i]).value) else Ok(v)
  }

  /** A question of the accepted shape, stated directly: a dict with the three
      required keys whose `options` contains each label (a dict with those keys,
      a list with those strings, or a string with those letters; extra entries
      are allowed) and whose `correct_answer` is one of the labels. */
  predicate WellFormedQuestion(q: Json) {
    && q.JObject?
    && "question_text" in q.fields && "options" in q.fields && "correct_answer" in q.fields
    && (forall l :: l in Labels ==> PyIn(l, q.fields["options"]) == Some(true))
    && IsLabel(q.fields["correct_answer"])
  }

  /** An accepted batch, stated directly. */
  predicate WellFormedQuiz(v: Json) {
    && v.JObject? && "questions" in v.fields && v.fields["questions"].JArray?
    && |v.fields["questions"].items| == BatchSize
    && forall i :: 0 <= i < BatchSize ==> WellFormedQuestion(v.fields["questions"].items[i])
  }

  lemma CheckQuestionAccepts(i: nat, q: Json)
    ensures CheckQuestion(i, q).None? <==> WellFormedQuestion(q)
  {
    if WellFormedQuestion(q) {
      assert PyIn("A", q.fields["options"]) == Some(true) by { assert Labels[0] == "A"; }
      assert PyIn("B", q.fields["options"]) == Some(true) by { assert Labels[1] == "B"; }
      assert PyIn("C", q.fields["options"]) == Some(true) by { assert Labels[2] == "C"; }
      assert PyIn("D", q.fields["options"]) == Some(true) by { assert Labels[3] == "D"; }
    }
  }

  /** Validation accepts exactly the well-formed batches, all or nothing. */
  lemma ValidateAcceptsExactly(v: Json)
    ensures Validate(v).Ok? <==> WellFormedQuiz(v)
  {
    if v.JObject? && "questions" in v.fields && v.fields["questions"].JArray? {
      var qs := v.fields["questions"].items;
      forall i | 0 <= i < |qs|
        ensures CheckQuestion(i + 1, qs[i]).None? <==> WellFormedQuestion(qs[i])
      {
        CheckQuestionAccepts(i + 1, qs[i]);
      }
    }
  }

  /** A rejection that names a question names the first offending one: every
      earlier question is well formed and the named one is not. */
  lemma ValidateBlamesFirst(v: Json, k: nat)
    requires Validate(v).Err?
    requires var e := Validate(v).error;
      (e.MissingFields? || e.MissingOptions? || e.InvalidAnswer?) && e.index == k
    ensures v.JObject? && "questions" in v.fields && v.fields["questions"].JArray?
    ensures 1 <= k <= BatchSize
    ensures !WellFormedQuestion(v.fields["questions"].items[k - 1])
    ensures forall j :: 0 <= j < k - 1 ==> WellFormedQuestion(v.fields["questions"].items[j])
  {
    var qs := v.fields["questions"].items;
    var i := FirstFailure(qs, 0);
    assert k == i + 1;
    CheckQuestionAccepts(i + 1, qs[i]);
    forall j | 0 <= j < k - 1 ensures WellFormedQuestion(qs[j]) {
      CheckQuestionAccepts(j + 1, qs[j]);
    }
  }

  /** The `questions` list of a response, as `response.get("questions", [])`
      yields it for a dict whose entry is a list; empty otherwise. */
  function Questions(v: Json): seq<Json> {
    if v.JObject? && "questions" in v.fields && v.fields["questions"].JArray?
    then v.fields["questions"].items
    else []
  }

  /** `generate_quiz` after the HTTP call: `reply` is the model's message
      content, `parse` stands in for `json.loads` (`None` on a decode error). */
  function GenerateQuiz(reply: string, parse: string -> Option<Json>): (r: Result<Json, QuizError>)
    ensures r.Ok? ==> parse(ExtractPayload(reply)) == Some(r.value) && WellFormedQuiz(r.value)
    ensures r.Ok? ==> |Questions(r.value)| == BatchSize
    ensures parse(ExtractPayload(reply)).None? ==> r == Err(JsonParseError)
  {
    match parse(ExtractPayload(reply))
    case None => Err(JsonParseError)
    case Some(v) =>
      ValidateAcceptsExactly(v);
      Validate(v)
  }

  /** Batches of 9 or 11 questions are rejected in full. */
  lemma RejectsWrongCount(qs: seq<Json>, rest: map<string, Json>)
    requires |qs| != BatchSize
    ensures Validate(JObject(rest["questions" := JArray(qs)])) == Err(WrongCount(|qs|))
  {
  }

  /** A question whose answer is 'E' sinks the whole batch. */
  lemma RejectsAnswerE(v: Json, i: nat)
    requires v.JObject? && "questions" in v.fields && v.fields["questions"].JArray?
    requires i < |v.fields["questions"].items|
    requires var q := v.fields["questions"].items[i];
      q.JObject? && "correct_answer" in q.fields && q.fields["correct_answer"] == JString("E")
    ensures Validate(v).Err?
  {
    var q := v.fields["questions"].items[i];
    assert !WellFormedQuestion(q);
    ValidateAcceptsExactly(v);
  }

  /** As written, `options` is only probed with `in`: the string "ABCD" passes
      the options check just as a dict with keys A-D does. */
  lemma StringOptionsPass()
    ensures forall l :: l in Labels ==> PyIn(l, JString("ABCD")) == Some(true)
  {
    assert OccursAt("ABCD", "A", 0);
    assert OccursAt("ABCD", "B", 1);
    assert OccursAt("ABCD", "C", 2);
    assert OccursAt("ABCD", "D", 3);
  }
}
