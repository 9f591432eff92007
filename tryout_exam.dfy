/**
 * The try-out exam page (src/pages/TryoutExamPage.tsx): the countdown's
 * "mm:ss" formatting, the exam state the page keeps (started, agreed,
 * current question, answers and flags), the actions that change it, the
 * score computed on submit, the answered/flagged counters and the colour
 * of a question's badge in the navigator.
 */
module TryoutExam {
  import opened Wrappers

  /** The key of one of a question's four choices. */
  datatype Choice = A | B | C | D

  /** A question as the page sees it: its id and, optionally, its correct key. */
  datatype Question = Question(id: string, correct: Option<Choice>)

  /** The exam length: 30 minutes. */
  const DurationSeconds := 60 * 30

  // ----- Decimal rendering (`String(n)`, `padStart(2, "0")`) -----

  predicate IsDigitString(s: string)
  {
    forall i :: 0 <= i < |s| ==> '0' <= s[i] <= '9'
  }

  function DigitChar(d: nat): (c: char)
    requires d < 10
    ensures '0' <= c <= '9' && c as int - '0' as int == d
  {
    ('0' as int + d) as char
  }

  /** `String(n)` for a non-negative integer: its decimal digits, without leading zeros. */
  function Decimal(n: nat): (r: string)
    ensures |r| >= 1 && IsDigitString(r)
    ensures |r| > 1 ==> r[0] != '0'
    ensures n < 10 <==> |r| == 1
  {
    if n < 10 then [DigitChar(n)] else Decimal(n / 10) + [DigitChar(n % 10)]
  }

  /** The value of a string of decimal digits; leading zeros contribute nothing. */
  function DecimalValue(s: string): nat
    requires IsDigitString(s)
  {
    if s == [] then 0
    else 10 * DecimalValue(s[..|s| - 1]) + (s[|s| - 1] as int - '0' as int)
  }

  lemma {:induction false} DecimalRoundTrip(n: nat)
    ensures DecimalValue(Decimal(n)) == n
  {
    if n >= 10 {
      var r := Decimal(n);
      assert r[..|r| - 1] == Decimal(n / 10);
      DecimalRoundTrip(n / 10);
    }
  }

  function Zeros(k: nat): (r: string)
    ensures |r| == k && IsDigitString(r)
    ensures forall i :: 0 <= i < k ==> r[i] == '0'
  {
    seq(k, _ => '0')
  }

  lemma {:induction false} ZerosAreWorthNothing(k: nat, s: string)
    requires IsDigitString(s)
    ensures DecimalValue(Zeros(k) + s) == DecimalValue(s)
    decreases |s| + k
  {
    var z := Zeros(k);
    if s == [] {
      assert z + s == z;
      if k > 0 {
        assert z[..k - 1] == Zeros(k - 1) + [];
        ZerosAreWorthNothing(k - 1, []);
      }
    } else {
      assert (z + s)[..|z + s| - 1] == z + s[..|s| - 1];
      ZerosAreWorthNothing(k, s[..|s| - 1]);
    }
  }

  /** `s.padStart(2, "0")`: at least two characters, zeros added in front. */
  function PadTwo(s: string): (r: string)
    ensures |s| >= 2 ==> r == s
    ensures |s| < 2 ==> |r| == 2 && r[2 - |s|..] == s && r[..2 - |s|] == Zeros(2 - |s|)
  {
    if |s| >= 2 then s else Zeros(2 - |s|) + s
  }

  /** A padded number has at least two digits, reads back as the number, and longer ones have no leading zero. */
  lemma PaddedDecimal(n: nat)
    ensures var p := PadTwo(Decimal(n));
            && |p| >= 2 && IsDigitString(p) && DecimalValue(p) == n
            && (|p| > 2 ==> p[0] != '0')
  {
    var d := Decimal(n);
    DecimalRoundTrip(n);
    if |d| < 2 {
      ZerosAreWorthNothing(2 - |d|, d);
    }
  }

  /** A number below 100 pads to exactly two digits. */
  lemma PaddedSmallDecimal(n: nat)
    ensures n < 100 ==> |PadTwo(Decimal(n))| == 2
  {
    if 10 <= n < 100 {
      assert Decimal(n) == Decimal(n / 10) + [DigitChar(n % 10)];
    }
  }

  /**
   * `formatTime(s)`: the minutes `s / 60` padded to at least two digits, a
   * colon, and the seconds `s % 60` padded to exactly two digits.
   */
  function FormatTime(s: nat): (r: string)
    ensures |r| >= 5 && r[|r| - 3] == ':'
    ensures IsDigitString(r[..|r| - 3]) && DecimalValue(r[..|r| - 3]) == s / 60
    ensures IsDigitString(r[|r| - 2..]) && DecimalValue(r[|r| - 2..]) == s % 60
    ensures s / 60 < 100 ==> |r| == 5
    ensures |r| > 5 ==> r[0] != '0'
  {
    var minutes, seconds := s / 60, s % 60;
    var m, t := PadTwo(Decimal(minutes)), PadTwo(Decimal(seconds));
    PaddedDecimal(minutes);
    PaddedDecimal(seconds);
    PaddedSmallDecimal(minutes);
    PaddedSmallDecimal(seconds);
    ColonJoin(m, t);
    m + ":" + t
  }

  lemma ColonJoin(m: string, t: string)
    requires |t| == 2
    ensures var r := m + ":" + t;
            && |r| == |m| + 3 && r[|r| - 3] == ':' && r[..|r| - 3] == m && r[|r| - 2..] == t
            && (m != [] ==> r[0] == m[0])
  {
    var r := m + ":" + t;
    assert r[..|r| - 3] == m;
    assert r[|r| - 2..] == t;
  }

  /** Reads an "mm:ss" string back as a number of seconds. */
  function ParseTime(t: string): Option<nat>
  {
    if |t| >= 3 && t[|t| - 3] == ':' && IsDigitString(t[..|t| - 3]) && IsDigitString(t[|t| - 2..])
    then Some(60 * DecimalValue(t[..|t| - 3]) + DecimalValue(t[|t| - 2..]))
    else None
  }

  /** Formatting loses nothing: the seconds can be read back from the text. */
  lemma FormatTimeRoundTrip(s: nat)
    ensures ParseTime(FormatTime(s)) == Some(s)
  {
  }

  /** The full exam length shows as "30:00". */
  lemma FullDurationShowsThirtyMinutes()
    ensures FormatTime(DurationSeconds) == "30:00"
  {
    assert DurationSeconds / 60 == 30 && DurationSeconds % 60 == 0;
    assert Decimal(3) == "3";
    assert Decimal(30) == Decimal(3) + "0" == "30";
    assert PadTwo(Decimal(0)) == "00";
    assert FormatTime(DurationSeconds) == PadTwo("30") + ":" + PadTwo(Decimal(0));
  }

  // ----- Answers and flags -----

  /** The ids of the questions. */
  function Ids(questions: seq<Question>): (r: set<string>)
    ensures forall q :: q in r <==> exists i :: 0 <= i < |questions| && questions[i].id == q
    ensures |r| <= |questions|
  {
    if questions == [] then {}
    else
      var rest := Ids(questions[..|questions| - 1]);
      assert forall i :: 0 <= i < |questions| - 1 ==> questions[..|questions| - 1][i] == questions[i];
      rest + {questions[|questions| - 1].id}
  }

  /** `answers[qid] !== null`: an id with no entry reads as `undefined`, which is not `null`. */
  predicate IsAnswered(answers: map<string, Option<Choice>>, qid: string)
  {
    !(qid in answers && answers[qid].None?)
  }

  /** The truthiness of `flags[qid]`; an id with no entry is `undefined`, which is falsy. */
  predicate IsFlagged(flags: map<string, bool>, qid: string)
  {
    qid in flags && flags[qid]
  }

  /** `selectAnswer`: records `key` for `qid`; every other entry stays. */
  function SelectAnswer(answers: map<string, Option<Choice>>, qid: string, key: Choice): (r: map<string, Option<Choice>>)
    ensures r.Keys == answers.Keys + {qid}
    ensures qid in r && r[qid] == Some(key)
    ensures forall q :: q in answers && q != qid ==> r[q] == answers[q]
  {
    answers[qid := Some(key)]
  }

  /** `toggleFlag`: stores the negation of `flags[qid]`'s truthiness; every other entry stays. */
  function ToggleFlag(flags: map<string, bool>, qid: string): (r: map<string, bool>)
    ensures r.Keys == flags.Keys + {qid}
    ensures IsFlagged(r, qid) <==> !IsFlagged(flags, qid)
    ensures forall q :: q in flags && q != qid ==> r[q] == flags[q]
  {
    flags[qid := !IsFlagged(flags, qid)]
  }

  /**
   * Toggling twice restores the flag's value; the map itself is restored
   * when `qid` already had an entry (otherwise it gains an entry `false`).
   */
  lemma ToggleTwiceRestores(flags: map<string, bool>, qid: string)
    ensures IsFlagged(ToggleFlag(ToggleFlag(flags, qid), qid), qid) == IsFlagged(flags, qid)
    ensures qid in flags ==> ToggleFlag(ToggleFlag(flags, qid), qid) == flags
  {
  }

  /** The number of entries `v` with `v !== null` (`answeredCount`). */
  function AnsweredCount(answers: map<string, Option<Choice>>): (r: nat)
    ensures r <= |answers|
  {
    var answered := set q | q in answers && answers[q].Some?;
    assert answered <= answers.Keys;
    SubsetIsSmaller(answered, answers.Keys);
    |answered|
  }

  /** The number of entries that are `true` (`flaggedCount`). */
  function FlaggedCount(flags: map<string, bool>): (r: nat)
    ensures r <= |flags|
  {
    var flagged := set q | q in flags && flags[q];
    SubsetIsSmaller(flagged, flags.Keys);
    |flagged|
  }

  lemma SubsetIsSmaller<T>(a: set<T>, b: set<T>)
    requires a <= b
    ensures |a| <= |b|
  {
    assert b == a + (b - a);
  }

  /** When the maps hold entries for the questions only, neither counter exceeds the number of questions. */
  lemma CountsAreBounded(questions: seq<Question>, answers: map<string, Option<Choice>>, flags: map<string, bool>)
    requires answers.Keys <= Ids(questions) && flags.Keys <= Ids(questions)
    ensures AnsweredCount(answers) <= |questions|
    ensures FlaggedCount(flags) <= |questions|
  {
    SubsetIsSmaller(answers.Keys, Ids(questions));
    SubsetIsSmaller(flags.Keys, Ids(questions));
  }

  /** The maps the init effect builds: every question unanswered and unflagged. */
  function InitialAnswers(questions: seq<Question>): (r: map<string, Option<Choice>>)
    ensures r.Keys == Ids(questions)
    ensures AnsweredCount(r) == 0
  {
    var r := map q | q in Ids(questions) :: None;
    assert (set q | q in r && r[q].Some?) == {};
    r
  }

  function InitialFlags(questions: seq<Question>): (r: map<string, bool>)
    ensures r.Keys == Ids(questions)
    ensures FlaggedCount(r) == 0
  {
    var r := map q | q in Ids(questions) :: false;
    assert (set q | q in r && r[q]) == {};
    r
  }

  // ----- Score -----

  /** The condition of the score loop: a non-null answer equal to a defined correct key. */
  predicate IsCorrect(q: Question, answers: map<string, Option<Choice>>)
  {
    q.id in answers && answers[q.id].Some? && q.correct.Some? && answers[q.id].value == q.correct.value
  }

  /** The number of questions answered correctly. */
  function CountCorrect(questions: seq<Question>, answers: map<string, Option<Choice>>): (r: nat)
    ensures r <= |questions|
  {
    if questions == [] then 0
    else CountCorrect(questions[..|questions| - 1], answers) + (if IsCorrect(questions[|questions| - 1], answers) then 1 else 0)
  }

  /** The positions of the correctly answered questions. */
  function CorrectPositions(questions: seq<Question>, answers: map<string, Option<Choice>>): set<nat>
  {
    set i: nat | i < |questions| && IsCorrect(questions[i], answers)
  }

  /** The score is the number of positions whose question is answered correctly. */
  lemma {:induction false} CountCorrectCountsPositions(questions: seq<Question>, answers: map<string, Option<Choice>>)
    ensures CountCorrect(questions, answers) == |CorrectPositions(questions, answers)|
  {
    if questions != [] {
      var n := |questions| - 1;
      var init := questions[..n];
      CountCorrectCountsPositions(init, answers);
      assert CorrectPositions(questions, answers)
        == CorrectPositions(init, answers) + (if IsCorrect(questions[n], answers) then {n} else {});
    }
  }

  /** The loop of `handleSubmit` that adds one per correctly answered question. */
  method Score(questions: seq<Question>, answers: map<string, Option<Choice>>) returns (score: nat)
    ensures score == CountCorrect(questions, answers)
    ensures score <= |questions|
  {
    score := 0;
    var i := 0;
    while i < |questions|
      invariant 0 <= i <= |questions|
      invariant score == CountCorrect(questions[..i], answers)
    {
      assert questions[..i + 1][..i] == questions[..i];
      if IsCorrect(questions[i], answers) {
        score := score + 1;
      }
      i := i + 1;
    }
    assert questions[..i] == questions;
  }

  // ----- Navigation -----

  /** `Math.min(i + 1, n - 1)`. */
  function NextIndex(i: int, n: int): (r: int)
    ensures r <= i + 1 && r <= n - 1
    ensures r == i + 1 || r == n - 1
  {
    if i + 1 < n - 1 then i + 1 else n - 1
  }

  /** `Math.max(i - 1, 0)`. */
  function PrevIndex(i: int): (r: int)
    ensures r >= i - 1 && r >= 0
    ensures r == i - 1 || r == 0
  {
    if i - 1 > 0 then i - 1 else 0
  }

  /** From a valid position, `next` and `prev` stay in range and move by at most one. */
  lemma StepsStayInRange(i: int, n: int)
    requires 0 <= i < n
    ensures 0 <= NextIndex(i, n) < n && i <= NextIndex(i, n) <= i + 1
    ensures 0 <= PrevIndex(i) < n && i - 1 <= PrevIndex(i) <= i
  {
  }

  // ----- Badge colour -----

  const FlaggedBadge := "bg-red-100 text-red-700 ring-1 ring-red-300"
  const AnsweredBadge := "bg-blue-600 text-white"
  const OpenBadge := "bg-slate-200 text-slate-700"

  /** `statusClass`: a flag wins over an answer, an answer over neither. */
  function StatusClass(answers: map<string, Option<Choice>>, flags: map<string, bool>, qid: string): (r: string)
    ensures r == FlaggedBadge <==> IsFlagged(flags, qid)
    ensures r == AnsweredBadge <==> !IsFlagged(flags, qid) && IsAnswered(answers, qid)
    ensures r == OpenBadge <==> !IsFlagged(flags, qid) && !IsAnswered(answers, qid)
  {
    if IsFlagged(flags, qid) then FlaggedBadge
    else if IsAnswered(answers, qid) then AnsweredBadge
    else OpenBadge
  }

  // ----- The page's state -----

  /**
   * The state of one exam page. The constructor yields the state after the
   * init effect has filled the answer and flag maps.
   */
  class ExamSession {
    const questions: seq<Question>
    var started: bool
    var agreed: bool
    var currentIndex: int
    var answers: map<string, Option<Choice>>
    var flags: map<string, bool>

    /** The maps hold one entry per question and nothing else. */
    predicate KeysAreQuestions()
      reads this
    {
      answers.Keys == Ids(questions) && flags.Keys == Ids(questions)
    }

    predicate IndexInRange()
      reads this
    {
      0 <= currentIndex < |questions|
    }

    constructor (questions: seq<Question>)
      ensures this.questions == questions
      ensures !started && !agreed && currentIndex == 0
      ensures answers == InitialAnswers(questions) && flags == InitialFlags(questions)
      ensures KeysAreQuestions()
    {
      this.questions := questions;
      started, agreed, currentIndex := false, false, 0;
      answers, flags := InitialAnswers(questions), InitialFlags(questions);
    }

    /** `answeredCount`. */
    function Answered(): (r: nat)
      reads this
      ensures KeysAreQuestions() ==> r <= |questions|
    {
      if KeysAreQuestions() then CountsAreBounded(questions, answers, flags); AnsweredCount(answers)
      else AnsweredCount(answers)
    }

    /** `flaggedCount`. */
    function Flagged(): (r: nat)
      reads this
      ensures KeysAreQuestions() ==> r <= |questions|
    {
      if KeysAreQuestions() then CountsAreBounded(questions, answers, flags); FlaggedCount(flags)
      else FlaggedCount(flags)
    }

    /** The agreement checkbox (`setAgreed`). */
    method Agree(checked: bool)
      modifies this
      ensures agreed == checked
      ensures started == old(started) && currentIndex == old(currentIndex)
      ensures answers == old(answers) && flags == old(flags)
    {
      agreed := checked;
    }

    /** `handleStart`: the exam starts only once the rules were agreed to. */
    method Start()
      modifies this
      ensures started == (old(started) || agreed)
      ensures agreed == old(agreed) && currentIndex == old(currentIndex)
      ensures answers == old(answers) && flags == old(flags)
    {
      if !agreed {
        return;
      }
      started := true;
    }

    /** `selectAnswer`. */
    method Select(qid: string, key: Choice)
      modifies this
      ensures answers == SelectAnswer(old(answers), qid, key)
      ensures old(KeysAreQuestions()) && qid in Ids(questions) ==> KeysAreQuestions()
      ensures started == old(started) && agreed == old(agreed) && currentIndex == old(currentIndex)
      ensures flags == old(flags)
    {
      answers := SelectAnswer(answers, qid, key);
    }

    /** `toggleFlag`. */
    method Toggle(qid: string)
      modifies this
      ensures flags == ToggleFlag(old(flags), qid)
      ensures old(KeysAreQuestions()) && qid in Ids(questions) ==> KeysAreQuestions()
      ensures started == old(started) && agreed == old(agreed) && currentIndex == old(currentIndex)
      ensures answers == old(answers)
    {
      flags := ToggleFlag(flags, qid);
    }

    /** `goTo`: jumps to `idx` (unclamped) once the exam has started. */
    method GoTo(idx: int)
      modifies this
      ensures currentIndex == if old(started) then idx else old(currentIndex)
      ensures old(started) && 0 <= idx < |questions| ==> IndexInRange()
      ensures started == old(started) && agreed == old(agreed)
      ensures answers == old(answers) && flags == old(flags)
    {
      if !started {
        return;
      }
      currentIndex := idx;
    }

    /** `next`: one question forward, never past the last, once the exam has started. */
    method Next()
      modifies this
      ensures currentIndex == if old(started) then NextIndex(old(currentIndex), |questions|) else old(currentIndex)
      ensures old(IndexInRange()) ==> IndexInRange() && old(currentIndex) <= currentIndex <= old(currentIndex) + 1
      ensures started == old(started) && agreed == old(agreed)
      ensures answers == old(answers) && flags == old(flags)
    {
      if !started {
        return;
      }
      currentIndex := NextIndex(currentIndex, |questions|);
    }

    /** `prev`: one question back, never before the first, once the exam has started. */
    method Prev()
      modifies this
      ensures currentIndex == if old(started) then PrevIndex(old(currentIndex)) else old(currentIndex)
      ensures old(IndexInRange()) ==> IndexInRange() && old(currentIndex) - 1 <= currentIndex <= old(currentIndex)
      ensures started == old(started) && agreed == old(agreed)
      ensures answers == old(answers) && flags == old(flags)
    {
      if !started {
        return;
      }
      currentIndex := PrevIndex(currentIndex);
    }

    /** The integer score `handleSubmit` computes from the current answers. */
    method Submit() returns (score: nat)
      ensures score == CountCorrect(questions, answers)
      ensures score == |CorrectPositions(questions, answers)| && score <= |questions|
    {
      score := Score(questions, answers);
      CountCorrectCountsPositions(questions, answers);
    }
  }
}
