/**
 * The timed quiz-taking screen: a start-time anchor kept in a key-value
 * store, a one-second countdown that auto-submits when the budget is used
 * up, a sparse answer list, a bounded question cursor and the submission.
 */
module QuizPage {
  import opened Options
  import opened QuizData
  import opened Text
  import JsArray

  /** The countdown budget in seconds (the constant of the tick). */
  const Budget: int := 60

  const AnchorPrefix: string := "quizStart_"

  /** The store key that holds a student's start time. */
  function AnchorKey(studentId: string): string {
    AnchorPrefix + studentId
  }

  /** Different students never share an anchor. */
  lemma AnchorKeyInjective(a: string, b: string)
    requires AnchorKey(a) == AnchorKey(b)
    ensures a == b
  {
    assert a == AnchorKey(a)[|AnchorPrefix|..];
    assert b == AnchorKey(b)[|AnchorPrefix|..];
  }

  // ---------------------------------------------------------------------
  // Start-time anchor

  /** The start time in use and the store after the get-or-create. */
  datatype Anchor = Anchor(start: int, store: map<string, int>)

  /** Reads the start time under `key`, or stores `now` there when it is absent. */
  function GetOrCreate(store: map<string, int>, key: string, now: int): (a: Anchor)
    ensures key in a.store && a.store[key] == a.start
    ensures a.store - {key} == store - {key}
    ensures key in store ==> a.start == store[key] && a.store == store
    ensures key !in store ==> a.start == now
  {
    if key in store then Anchor(store[key], store) else Anchor(now, store[key := now])
  }

  /** A second get-or-create, at any later clock value, finds the first one's start and writes nothing. */
  lemma GetOrCreateIdempotent(store: map<string, int>, key: string, now1: int, now2: int)
    ensures GetOrCreate(GetOrCreate(store, key, now1).store, key, now2) == GetOrCreate(store, key, now1)
  {
  }

  // ---------------------------------------------------------------------
  // Countdown

  /** Whole seconds since `start`, rounded down (`Math.floor((now - start) / 1000)`). */
  function ElapsedSeconds(start: int, now: int): (e: int)
    ensures e * 1000 <= now - start < e * 1000 + 1000
  {
    (now - start) / 1000
  }

  function Remaining(start: int, now: int): int {
    Budget - ElapsedSeconds(start, now)
  }

  /** `k` whole seconds and `ms` milliseconds after the start, `Budget - k` seconds remain. */
  lemma RemainingAfter(start: int, k: int, ms: int)
    requires 0 <= ms < 1000
    ensures Remaining(start, start + 1000 * k + ms) == Budget - k
  {
    var e := ElapsedSeconds(start, start + 1000 * k + ms);
    assert e * 1000 <= 1000 * k + ms < e * 1000 + 1000;
  }

  /** For a fixed start, the remaining time never grows as the clock advances. */
  lemma RemainingNonIncreasing(start: int, now1: int, now2: int)
    requires now1 <= now2
    ensures Remaining(start, now2) <= Remaining(start, now1)
  {
    var e1, e2 := ElapsedSeconds(start, now1), ElapsedSeconds(start, now2);
    assert e1 * 1000 < e2 * 1000 + 1000;
  }

  /** The interval's state: whether it still runs, and the displayed seconds. */
  datatype Timer = Timer(running: bool, timeLeft: int)

  datatype TickOutcome = TickOutcome(timer: Timer, autoSubmit: bool)

  /** One interval tick at clock value `now`. A stopped interval does not tick. */
  function TickStep(t: Timer, start: int, now: int): (o: TickOutcome)
    ensures !t.running ==> o == TickOutcome(t, false)
    ensures o.autoSubmit <==> t.running && Remaining(start, now) <= 0
    ensures o.autoSubmit ==> !o.timer.running && o.timer.timeLeft == t.timeLeft
    ensures o.timer.timeLeft != t.timeLeft ==> o.timer.timeLeft > 0
    ensures t.running && !o.autoSubmit ==> o.timer == Timer(true, Remaining(start, now))
  {
    if !t.running then TickOutcome(t, false)
    else
      var remaining := Remaining(start, now);
      if remaining <= 0 then TickOutcome(Timer(false, t.timeLeft), true)
      else TickOutcome(Timer(true, remaining), false)
  }

  datatype RunOutcome = RunOutcome(timer: Timer, autoSubmits: nat)

  /** A sequence of ticks at the given clock values, counting the auto-submits. */
  function RunTicks(t: Timer, start: int, nows: seq<int>): RunOutcome
    decreases |nows|
  {
    if nows == [] then RunOutcome(t, 0)
    else
      var o := TickStep(t, start, nows[0]);
      var rest := RunTicks(o.timer, start, nows[1..]);
      RunOutcome(rest.timer, rest.autoSubmits + if o.autoSubmit then 1 else 0)
  }

  /** A stopped interval never auto-submits. */
  lemma {:induction false} StoppedTimerNeverSubmits(t: Timer, start: int, nows: seq<int>)
    requires !t.running
    ensures RunTicks(t, start, nows) == RunOutcome(t, 0)
    decreases |nows|
  {
    if nows != [] {
      StoppedTimerNeverSubmits(t, start, nows[1..]);
    }
  }

  /** One interval auto-submits at most once, and it does so exactly when it is running and some
      tick falls at or after the end of the budget. */
  lemma {:induction false} AutoSubmitAtMostOnce(t: Timer, start: int, nows: seq<int>)
    ensures RunTicks(t, start, nows).autoSubmits <= 1
    ensures RunTicks(t, start, nows).autoSubmits == 1 <==>
      t.running && exists k :: 0 <= k < |nows| && Remaining(start, nows[k]) <= 0
    decreases |nows|
  {
    if nows == [] {
    } else if !t.running {
      StoppedTimerNeverSubmits(t, start, nows);
    } else {
      var o := TickStep(t, start, nows[0]);
      if o.autoSubmit {
        StoppedTimerNeverSubmits(o.timer, start, nows[1..]);
      } else {
        AutoSubmitAtMostOnce(o.timer, start, nows[1..]);
        if exists k :: 0 <= k < |nows| && Remaining(start, nows[k]) <= 0 {
          var k :| 0 <= k < |nows| && Remaining(start, nows[k]) <= 0;
          assert k != 0;
          assert nows[1..][k - 1] == nows[k];
        }
        if exists k :: 0 <= k < |nows[1..]| && Remaining(start, nows[1..][k]) <= 0 {
          var k :| 0 <= k < |nows[1..]| && Remaining(start, nows[1..][k]) <= 0;
          assert nows[k + 1] == nows[1..][k];
        }
      }
    }
  }

  /** Ticks never write a value of zero or less into the displayed time. */
  lemma {:induction false} TicksKeepTimeLeftPositive(t: Timer, start: int, nows: seq<int>)
    requires t.timeLeft > 0
    ensures RunTicks(t, start, nows).timer.timeLeft > 0
    decreases |nows|
  {
    if nows != [] {
      TicksKeepTimeLeftPositive(TickStep(t, start, nows[0]).timer, start, nows[1..]);
    }
  }

  // ---------------------------------------------------------------------
  // Question cursor

  /** The cursor stays on a question: `0 <= i <= n - 1`, or 0 when there are none. */
  predicate CursorInRange(i: int, n: nat) {
    0 <= i && (i == 0 || i < n)
  }

  /** Next moves forward only while a later question exists. */
  function NextIndex(i: int, n: nat): (r: int)
    ensures CursorInRange(i, n) ==> CursorInRange(r, n)
    ensures r == i + 1 <==> i < n - 1
    ensures r != i + 1 ==> r == i
  {
    if i < n - 1 then i + 1 else i
  }

  /** Prev moves back only while an earlier question exists. */
  function PrevIndex(i: int, n: nat): (r: int)
    ensures CursorInRange(i, n) ==> CursorInRange(r, n)
    ensures r == i - 1 <==> i > 0
    ensures r != i - 1 ==> r == i
  {
    if i > 0 then i - 1 else i
  }

  function NextTimes(i: int, n: nat, clicks: nat): int
    decreases clicks
  {
    if clicks == 0 then i else NextTimes(NextIndex(i, n), n, clicks - 1)
  }

  /** From question `i`, `clicks` presses of Next land on question `min(i + clicks, n - 1)`. */
  lemma {:induction false} NextTimesClamps(n: nat, clicks: nat, i: nat)
    requires n > 0 && i < n
    ensures NextTimes(i, n, clicks) == if i + clicks < n then i + clicks else n - 1
    decreases clicks
  {
    if clicks > 0 {
      NextTimesClamps(n, clicks - 1, NextIndex(i, n));
    }
  }

  // ---------------------------------------------------------------------
  // Answers

  /** A recorded answer: the question's id and the selected option. */
  datatype Answer = Answer(questionId: string, selectedAnswer: string)

  /** `answers[i]`, with a missing slot read as absent. */
  function Slot(answers: seq<Option<Answer>>, i: int): Option<Answer> {
    if 0 <= i < |answers| then answers[i] else None
  }

  /** Copy of the answer list with slot `i` assigned, padding with holes when `i` lies past the end. */
  function WriteSlot(answers: seq<Option<Answer>>, i: nat, a: Answer): (r: seq<Option<Answer>>)
    ensures |r| == if i < |answers| then |answers| else i + 1
    ensures Slot(r, i) == Some(a)
    ensures forall j :: j != i ==> Slot(r, j) == Slot(answers, j)
  {
    if i < |answers| then answers[i := Some(a)]
    else answers + seq(i - |answers|, _ => None) + [Some(a)]
  }

  // ---------------------------------------------------------------------
  // Submission

  /** One submitted answer: the question id, and the selection or null. */
  datatype Entry = Entry(questionId: string, selectedAnswer: Option<string>)

  datatype Submission = Submission(studentId: string, quizId: string, answers: seq<Entry>)

  /** `answers[i]?.selectedAnswer || null`: a missing slot or an empty selection submits null. */
  function SubmittedValue(slot: Option<Answer>): (v: Option<string>)
    ensures v.None? <==> slot.None? || slot.value.selectedAnswer == ""
    ensures v.Some? ==> v.value == slot.value.selectedAnswer
  {
    match slot
    case None => None
    case Some(a) => if a.selectedAnswer == "" then None else Some(a.selectedAnswer)
  }

  /** The body posted on submit: one entry per quiz question, in question order. */
  function BuildSubmission(studentId: string, quiz: Quiz, answers: seq<Option<Answer>>): (p: Submission)
    ensures p.studentId == studentId && p.quizId == quiz.id
    ensures |p.answers| == |quiz.questions|
    ensures forall i :: 0 <= i < |p.answers| ==>
      p.answers[i].questionId == quiz.questions[i].id &&
      p.answers[i].selectedAnswer == SubmittedValue(Slot(answers, i))
  {
    Submission(studentId, quiz.id,
      seq(|quiz.questions|, i requires 0 <= i < |quiz.questions| =>
        Entry(quiz.questions[i].id, SubmittedValue(Slot(answers, i)))))
  }

  /** Answering question `i` changes only entry `i` of the submission, which then carries the
      selection (or null for an empty one). */
  lemma AnswerReachesSubmission(studentId: string, quiz: Quiz, answers: seq<Option<Answer>>, i: nat, v: string)
    requires i < |quiz.questions|
    ensures var before := BuildSubmission(studentId, quiz, answers).answers;
            var after := BuildSubmission(studentId, quiz, WriteSlot(answers, i, Answer(quiz.questions[i].id, v))).answers;
            |after| == |before| &&
            after[i] == Entry(quiz.questions[i].id, if v == "" then None else Some(v)) &&
            forall j :: 0 <= j < |after| && j != i ==> after[j] == before[j]
  {
  }

  /** With three questions and the second one never answered, three entries are sent and the
      second is null. */
  lemma UnansweredIsNull(studentId: string, quiz: Quiz, a: string, c: string)
    requires |quiz.questions| == 3 && a != "" && c != ""
    ensures var p := BuildSubmission(studentId, quiz,
              WriteSlot(WriteSlot([], 0, Answer(quiz.questions[0].id, a)), 2, Answer(quiz.questions[2].id, c)));
            |p.answers| == 3 &&
            p.answers[0].selectedAnswer == Some(a) &&
            p.answers[1] == Entry(quiz.questions[1].id, None) &&
            p.answers[2].selectedAnswer == Some(c)
  {
  }

  // ---------------------------------------------------------------------
  // Quiz selection and time display

  /** The first quiz whose title is the student's quiz title. */
  function SelectQuiz(quizzes: seq<Quiz>, title: string): (r: Option<Quiz>)
    ensures r.Some? ==> r.value.title == title && r.value in quizzes
    ensures r.None? <==> forall q :: q in quizzes ==> q.title != title
    ensures r.Some? ==> exists k :: 0 <= k < |quizzes| && quizzes[k] == r.value &&
                          forall j :: 0 <= j < k ==> quizzes[j].title != title
  {
    match JsArray.FirstIndex(quizzes, (q: Quiz) => q.title == title)
    case Some(k) => Some(quizzes[k])
    case None => None
  }

  /** Seconds below ten get a leading zero. */
  function TwoDigits(s: nat): (r: string)
    requires s < 60
    ensures |r| == 2 && IsDigits(r)
    ensures DecimalValue(r) == s
  {
    DecimalRoundTrip(s);
    if s < 10 then "0" + DecimalString(s)
    else
      assert DecimalString(s) == DecimalString(s / 10) + [Digit(s % 10)];
      DecimalString(s)
  }

  /** `minutes:seconds` for the displayed time; `timeLeft` is a whole number of seconds. */
  function FormatTime(timeLeft: nat): (s: string)
    ensures ClockShaped(s)
  {
    DecimalString(timeLeft / 60) + ":" + TwoDigits(timeLeft % 60)
  }

  /** A string of the form `digits:dd`. */
  predicate ClockShaped(s: string) {
    |s| >= 4 && s[|s| - 3] == ':' && IsDigits(s[..|s| - 3]) && IsDigits(s[|s| - 2..])
  }

  /** Reads a `minutes:seconds` display back into seconds. */
  function ClockValue(s: string): int
    requires ClockShaped(s)
  {
    DecimalValue(s[..|s| - 3]) * 60 + DecimalValue(s[|s| - 2..])
  }

  /** The display shows exactly the remaining seconds: minutes times sixty plus seconds,
      with seconds below sixty. */
  lemma FormatTimeRoundTrip(timeLeft: nat)
    ensures ClockValue(FormatTime(timeLeft)) == timeLeft
    ensures DecimalValue(FormatTime(timeLeft)[|FormatTime(timeLeft)| - 2..]) < 60
  {
    var m := DecimalString(timeLeft / 60);
    var s := FormatTime(timeLeft);
    assert s[..|s| - 3] == m;
    assert s[|s| - 2..] == TwoDigits(timeLeft % 60);
    DecimalRoundTrip(timeLeft / 60);
  }

  // ---------------------------------------------------------------------
  // The screen's state

  /** The screen for one student taking one quiz; `store` is the browser's key-value storage. */
  class QuizSession {
    const studentId: string
    const quiz: Quiz
    var store: map<string, int>
    var start: int
    var timerRunning: bool
    var timeLeft: int
    var currentQIndex: int
    var answers: seq<Option<Answer>>

    ghost predicate Valid()
      reads this
    {
      timeLeft > 0 && CursorInRange(currentQIndex, |quiz.questions|)
    }

    /** The screen as first rendered: full budget shown, first question, no answers, no interval. */
    constructor (studentId: string, quiz: Quiz, store: map<string, int>)
      ensures Valid()
      ensures this.studentId == studentId && this.quiz == quiz && this.store == store
      ensures timeLeft == Budget && currentQIndex == 0 && answers == [] && !timerRunning
    {
      this.studentId := studentId;
      this.quiz := quiz;
      this.store := store;
      start := 0;
      timerRunning := false;
      timeLeft := Budget;
      currentQIndex := 0;
      answers := [];
    }

    /** The `Time Left` display, which reads back as the seconds left. */
    function Clock(): (s: string)
      reads this
      requires Valid()
      ensures ClockShaped(s) && ClockValue(s) == timeLeft
    {
      FormatTimeRoundTrip(timeLeft);
      FormatTime(timeLeft)
    }

    /** The timer effect: get or create the anchor, then start the interval. */
    method StartTimer(now: int)
      requires Valid()
      modifies this`store, this`start, this`timerRunning
      ensures Valid()
      ensures Anchor(start, store) == GetOrCreate(old(store), AnchorKey(studentId), now)
      ensures timerRunning
    {
      var a := GetOrCreate(store, AnchorKey(studentId), now);
      start, store := a.start, a.store;
      timerRunning := true;
    }

    /** One interval tick; `autoSubmit` reports that the tick stopped the interval and submits. */
    method Tick(now: int) returns (autoSubmit: bool)
      requires Valid()
      modifies this`timerRunning, this`timeLeft
      ensures Valid()
      ensures TickOutcome(Timer(timerRunning, timeLeft), autoSubmit)
           == TickStep(Timer(old(timerRunning), old(timeLeft)), start, now)
    {
      var o := TickStep(Timer(timerRunning, timeLeft), start, now);
      timerRunning, timeLeft := o.timer.running, o.timer.timeLeft;
      autoSubmit := o.autoSubmit;
    }

    /** Records the selection for the question on screen; every other slot keeps its answer. */
    method HandleAnswerChange(selectedAnswer: string)
      requires Valid() && currentQIndex < |quiz.questions|
      modifies this`answers
      ensures Valid()
      ensures answers == WriteSlot(old(answers), currentQIndex,
                                   Answer(quiz.questions[currentQIndex].id, selectedAnswer))
    {
      answers := WriteSlot(answers, currentQIndex, Answer(quiz.questions[currentQIndex].id, selectedAnswer));
    }

    method HandleNext()
      requires Valid()
      modifies this`currentQIndex
      ensures Valid()
      ensures currentQIndex == NextIndex(old(currentQIndex), |quiz.questions|)
    {
      currentQIndex := NextIndex(currentQIndex, |quiz.questions|);
    }

    method HandlePrev()
      requires Valid()
      modifies this`currentQIndex
      ensures Valid()
      ensures currentQIndex == PrevIndex(old(currentQIndex), |quiz.questions|)
    {
      currentQIndex := PrevIndex(currentQIndex, |quiz.questions|);
    }

    /** Posts the submission. `response` is the created score's id, or None when the post fails.
        On success the anchor is removed and the page navigates to the result, whose unmount
        stops the interval; on failure nothing changes. */
    method HandleSubmit(response: Option<string>) returns (sent: Submission, navigateTo: Option<string>)
      requires Valid()
      modifies this`store, this`timerRunning
      ensures Valid()
      ensures sent == BuildSubmission(studentId, quiz, answers)
      ensures response.Some? ==> store == old(store) - {AnchorKey(studentId)} && !timerRunning &&
                                 navigateTo == Some("/result/" + response.value)
      ensures response.None? ==> store == old(store) && timerRunning == old(timerRunning) && navigateTo.None?
    {
      sent := BuildSubmission(studentId, quiz, answers);
      if response.Some? {
        store := store - {AnchorKey(studentId)};
        timerRunning := false;
        navigateTo := Some("/result/" + response.value);
      } else {
        navigateTo := None;
      }
    }
  }
}
