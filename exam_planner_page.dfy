/** The exam planner: the whole-day countdown, the study-plan request and its result, and the
    30-day calendar mock that highlights the exam's day of the month. Dates are integer
    milliseconds and day numbers, as the `Date` object reports them. */
module ExamPlannerPage {
  import opened Common
  import opened Text
  import opened Wire

  /** `1000 * 60 * 60 * 24`. */
  const DayMs := 86400000

  const PlanFailureText := "Failed to generate study plan. Check backend/Ollama."

  /** `Math.ceil(a / b)` for a positive divisor: the least integer not below the quotient. */
  function CeilDiv(a: int, b: int): (q: int)
    requires b > 0
    ensures b * (q - 1) < a <= b * q
  {
    if a % b == 0 then a / b else a / b + 1
  }

  /** Whole days from today's midnight to the exam instant, rounded up. */
  function CountdownDays(examMs: int, todayMidnightMs: int): (d: int)
    ensures todayMidnightMs + (d - 1) * DayMs < examMs <= todayMidnightMs + d * DayMs
  {
    CeilDiv(examMs - todayMidnightMs, DayMs)
  }

  /** An exam `k` whole days after today's midnight counts as `k` days away (0 for today). */
  lemma CountdownWholeDays(todayMidnightMs: int, k: int)
    ensures CountdownDays(todayMidnightMs + k * DayMs, todayMidnightMs) == k
  {
    var q := CountdownDays(todayMidnightMs + k * DayMs, todayMidnightMs);
    assert DayMs * (q - 1) < k * DayMs <= DayMs * q;
  }

  /** Any instant in the k-th day after today's midnight counts as `k` days away. */
  lemma CountdownWithinDay(todayMidnightMs: int, k: int, examMs: int)
    requires todayMidnightMs + (k - 1) * DayMs < examMs <= todayMidnightMs + k * DayMs
    ensures CountdownDays(examMs, todayMidnightMs) == k
  {
    var q := CountdownDays(examMs, todayMidnightMs);
    assert DayMs * (q - 1) < examMs - todayMidnightMs <= DayMs * q;
  }

  /** The countdown line `${subject} exam in ${diff} days`. */
  function CountdownText(subject: string, diff: int): string
  {
    subject + " exam in " + IntToString(diff) + " days"
  }

  /** The number in the countdown line reads back as the day count. */
  lemma CountdownTextReadsBack(subject: string, diff: int)
    ensures var t := CountdownText(subject, diff);
      |subject| + 9 <= |t| - 5
      && t[..|subject|] == subject
      && t[|subject| + 9 .. |t| - 5] == IntToString(diff)
      && ParseInt(t[|subject| + 9 .. |t| - 5]) == diff
  {
    var t := CountdownText(subject, diff);
    ParseIntToString(diff);
    assert t == subject + " exam in " + IntToString(diff) + " days";
    assert t[|subject| + 9 .. |t| - 5] == IntToString(diff);
  }

  /** The prompt the planner sends, one line per setting. */
  function PlanPrompt(subject: string, difficulty: string, targetGrade: string): string
  {
    "Subject: " + subject + "\nDifficulty: " + difficulty + "\nTarget grade: " + targetGrade
  }

  /** The plan prompt is three lines, subject, difficulty and target grade, each read back
      whole when none of them holds a line break. */
  lemma PlanPromptLines(subject: string, difficulty: string, targetGrade: string)
    requires '\n' !in subject && '\n' !in difficulty && '\n' !in targetGrade
    ensures Split(PlanPrompt(subject, difficulty, targetGrade), '\n')
      == ["Subject: " + subject, "Difficulty: " + difficulty, "Target grade: " + targetGrade]
  {
    PlanPromptLayout(subject, difficulty, targetGrade);
    SplitThree("Subject: " + subject, "Difficulty: " + difficulty, "Target grade: " + targetGrade, '\n');
  }

  lemma PlanPromptLayout(subject: string, difficulty: string, targetGrade: string)
    requires '\n' !in subject && '\n' !in difficulty && '\n' !in targetGrade
    ensures PlanPrompt(subject, difficulty, targetGrade)
      == ("Subject: " + subject) + ['\n'] + (("Difficulty: " + difficulty) + ['\n'] + ("Target grade: " + targetGrade))
    ensures '\n' !in "Subject: " + subject && '\n' !in "Difficulty: " + difficulty
      && '\n' !in "Target grade: " + targetGrade
  {
    assert "\nDifficulty: " == ['\n'] + "Difficulty: ";
    assert "\nTarget grade: " == ['\n'] + "Target grade: ";
  }

  /** `daysForCalendar`: no day without a date, else the exam's day of the month. */
  function DaysForCalendar(examDate: string, dayOfMonth: int): (days: seq<int>)
    ensures examDate == "" ==> days == []
    ensures examDate != "" ==> days == [dayOfMonth]
  {
    if examDate == "" then [] else [dayOfMonth]
  }

  /** `SimpleCalendar`: days 1 to 30, each flagged when it is in the highlighted list. */
  function CalendarCells(highlighted: seq<int>): (cells: seq<(int, bool)>)
    ensures |cells| == 30
    ensures forall i :: 0 <= i < 30 ==> cells[i].0 == i + 1 && (cells[i].1 <==> (i + 1) in highlighted)
  {
    seq(30, i requires 0 <= i < 30 => (i + 1, (i + 1) in highlighted))
  }

  /** With a date whose day of the month is on the mock calendar, exactly that day is highlighted;
      without a date, or on the 31st, none is. */
  lemma CalendarHighlightsExamDay(examDate: string, dayOfMonth: int)
    ensures var cells := CalendarCells(DaysForCalendar(examDate, dayOfMonth));
      forall i :: 0 <= i < 30 ==> (cells[i].1 <==> examDate != "" && dayOfMonth == i + 1)
  {
  }

  class ExamPlanner {
    var subject: string
    var examDate: string
    var difficulty: string
    var targetGrade: string
    var plan: string
    var countdown: string
    var notebookId: string
    var loading: bool

    constructor ()
      ensures subject == "" && examDate == "" && difficulty == "medium" && targetGrade == "A"
      ensures plan == "" && countdown == "" && notebookId == "" && !loading
    {
      subject, examDate, difficulty, targetGrade := "", "", "medium", "A";
      plan, countdown, notebookId, loading := "", "", "", false;
    }

    /** The button is disabled while a plan is loading or while subject or date is empty. */
    function AddExamDisabled(): (d: bool)
      reads this
      ensures !d <==> !loading && subject != "" && examDate != ""
    {
      loading || subject == "" || examDate == ""
    }

    /** The part of `addExam` before its await. With subject and date set, the countdown is
        written from the exam instant and today's midnight, the page is busy, and the plan
        request is issued; otherwise nothing happens. */
    method BeginAddExam(examMs: int, todayMidnightMs: int) returns (sent: Option<Request>)
      modifies this`countdown, this`loading
      ensures subject == "" || examDate == "" ==> (sent == None
        && countdown == old(countdown) && loading == old(loading))
      ensures subject != "" && examDate != "" ==> (loading
        && countdown == CountdownText(subject, CountdownDays(examMs, todayMidnightMs))
        && sent == Some(PostStudyPlan(NullIfEmpty(notebookId), PlanPrompt(subject, difficulty, targetGrade), examDate)))
      ensures sent.Some? ==> AddExamDisabled()
      ensures !old(AddExamDisabled()) ==> sent.Some?
    {
      if subject == "" || examDate == "" {
        sent := None;
        return;
      }
      var diff := CeilDiv(examMs - todayMidnightMs, DayMs);
      countdown := CountdownText(subject, diff);
      loading := true;
      sent := Some(PostStudyPlan(NullIfEmpty(notebookId), PlanPrompt(subject, difficulty, targetGrade), examDate));
    }

    /** The part after the await: the raw plan or the fixed failure text; the countdown is not
        touched, and the page is no longer busy. */
    method CompleteAddExam(res: Outcome<Body>)
      modifies this`plan, this`loading
      ensures res.Success? ==> plan == FieldText(res.data, "plan_raw")
      ensures res.Failure? ==> plan == PlanFailureText
      ensures !loading
      ensures AddExamDisabled() <==> subject == "" || examDate == ""
    {
      match res {
        case Success(body) => plan := FieldText(body, "plan_raw");
        case Failure(_) => plan := PlanFailureText;
      }
      loading := false;
    }
  }
}
