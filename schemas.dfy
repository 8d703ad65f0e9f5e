/** The backend's request bodies, with pydantic's defaults, and the calendar date that a study
    plan request may carry. */
module Schemas {
  import opened Common
  import opened Text

  datatype UserCreate = UserCreate(email: string, password: string)

  datatype UserLogin = UserLogin(email: string, password: string)

  datatype NotebookCreate = NotebookCreate(title: string, description: Option<string>)

  datatype NoteCreate = NoteCreate(notebookId: string, content: string)

  datatype AIRequest = AIRequest(notebookId: Option<string>, text: string)

  /** `level` and `qtype` stay optional: a client may send an explicit null. */
  datatype QuizRequest = QuizRequest(notebookId: Option<string>, text: string, level: Option<string>, qtype: Option<string>)

  /** A Python `date`. */
  datatype Date = Date(year: nat, month: nat, day: nat)

  datatype StudyPlanRequest = StudyPlanRequest(notebookId: Option<string>, text: string, examDate: Option<Date>)

  datatype ChatMessage = ChatMessage(role: string, content: string)

  datatype ChatRequest = ChatRequest(notebookId: Option<string>, messages: seq<ChatMessage>)

  /** A quiz request body that leaves `level` and `qtype` out gets "medium" and "mix". */
  function QuizRequestDefaults(notebookId: Option<string>, text: string): (q: QuizRequest)
    ensures q.level == Some("medium") && q.qtype == Some("mix")
    ensures q.notebookId == notebookId && q.text == text
  {
    QuizRequest(notebookId, text, Some("medium"), Some("mix"))
  }

  /** How an f-string renders an optional string: `None` prints as "None". */
  function PyStr(s: Option<string>): (r: string)
    ensures s.Some? ==> r == s.value
    ensures s.None? ==> r == "None"
  {
    match s
    case None => "None"
    case Some(v) => v
  }

  predicate ValidDate(d: Date)
  {
    1 <= d.year <= 9999 && 1 <= d.month <= 12 && 1 <= d.day <= 31
  }

  function Zeros(k: nat): (z: string)
    ensures |z| == k && forall i :: 0 <= i < k ==> z[i] == '0'
  {
    if k == 0 then "" else "0" + Zeros(k - 1)
  }

  /** `%0<w>d` for a non-negative integer. */
  function ZeroPad(n: nat, w: nat): (s: string)
    ensures forall i :: 0 <= i < |s| ==> IsDigit(s[i])
  {
    var digits := NatToString(n);
    if |digits| >= w then digits else Zeros(w - |digits|) + digits
  }

  function Pow10(w: nat): nat
  {
    if w == 0 then 1 else 10 * Pow10(w - 1)
  }

  /** `date.isoformat()`: YYYY-MM-DD. */
  function IsoFormat(d: Date): string
  {
    ZeroPad(d.year, 4) + "-" + ZeroPad(d.month, 2) + "-" + ZeroPad(d.day, 2)
  }

  lemma {:induction false} NatToStringShort(n: nat, w: nat)
    requires 1 <= w && n < Pow10(w)
    ensures |NatToString(n)| <= w
  {
    if n >= 10 {
      NatToStringShort(n / 10, w - 1);
    }
  }

  lemma {:induction false} ParseNatLeadingZeros(k: nat, s: string)
    requires forall i :: 0 <= i < |s| ==> IsDigit(s[i])
    ensures ParseNat(Zeros(k) + s) == ParseNat(s)
    decreases |s|, k
  {
    var t := Zeros(k) + s;
    if s == "" {
      assert t == Zeros(k);
      if k > 0 {
        assert t[..|t| - 1] == Zeros(k - 1) + "";
        ParseNatLeadingZeros(k - 1, "");
      }
    } else {
      assert t[..|t| - 1] == Zeros(k) + s[..|s| - 1];
      ParseNatLeadingZeros(k, s[..|s| - 1]);
    }
  }

  /** A padded number below `10^w` is exactly `w` digits wide and reads back as the number. */
  lemma ZeroPadReadsBack(n: nat, w: nat)
    requires 1 <= w && n < Pow10(w)
    ensures |ZeroPad(n, w)| == w
    ensures ParseNat(ZeroPad(n, w)) == n
  {
    NatToStringShort(n, w);
    ParseNatToString(n);
    var digits := NatToString(n);
    if |digits| < w {
      ParseNatLeadingZeros(w - |digits|, digits);
    }
  }

  /** The ISO rendering has dashes at positions 4 and 7, and each field reads back. */
  lemma IsoFormatReadsBack(d: Date)
    requires ValidDate(d)
    ensures var s := IsoFormat(d);
      |s| == 10 && s[4] == '-' && s[7] == '-'
      && ParseNat(s[..4]) == d.year && ParseNat(s[5..7]) == d.month && ParseNat(s[8..]) == d.day
  {
    assert Pow10(2) == 100 && Pow10(4) == 10000 by {
      assert Pow10(1) == 10;
      assert Pow10(3) == 1000;
    }
    ZeroPadReadsBack(d.year, 4);
    ZeroPadReadsBack(d.month, 2);
    ZeroPadReadsBack(d.day, 2);
    var y, m, dd := ZeroPad(d.year, 4), ZeroPad(d.month, 2), ZeroPad(d.day, 2);
    var s := IsoFormat(d);
    assert s == y + "-" + m + "-" + dd;
    assert s[..4] == y;
    assert s[5..7] == m;
    assert s[8..] == dd;
  }

  /** Distinct valid dates render differently. */
  lemma IsoFormatInjective(d1: Date, d2: Date)
    requires ValidDate(d1) && ValidDate(d2) && IsoFormat(d1) == IsoFormat(d2)
    ensures d1 == d2
  {
    IsoFormatReadsBack(d1);
    IsoFormatReadsBack(d2);
  }
}
