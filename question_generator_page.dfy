/** The question generator: `generate` with its blank-topic guard, busy flag and result text,
    and the two buttons' disabled conditions. */
module QuestionGeneratorPage {
  import opened Common
  import opened Text
  import opened Wire

  const QuizFailureText := "Failed to generate questions. Check backend/Ollama."

  class QuestionGenerator {
    var topic: string
    var level: string
    var qtype: string
    var notebookId: string
    var result: string
    var loading: bool

    /** The form starts at level "medium", type "mcq", with nothing generated. */
    constructor ()
      ensures topic == "" && level == "medium" && qtype == "mcq" && notebookId == ""
      ensures result == "" && !loading
    {
      topic, level, qtype, notebookId, result, loading := "", "medium", "mcq", "", "", false;
    }

    /** Generate is disabled while loading or while the topic is whitespace only. */
    function GenerateDisabled(): (d: bool)
      reads this
      ensures d <==> loading || AllWhitespace(topic)
    {
      TrimBlankIff(topic);
      loading || Trim(topic) == ""
    }

    /** Download is disabled until there is a result. */
    function DownloadDisabled(): (d: bool)
      reads this
      ensures d <==> result == ""
    {
      result == ""
    }

    /** The part of `generate` before its await: nothing for a blank topic; otherwise busy, and
        the quiz request carries the untrimmed topic, the current level and type, and the
        notebook id with an empty one sent as null. */
    method BeginGenerate() returns (sent: Option<Request>)
      modifies this`loading
      ensures AllWhitespace(topic) ==> sent == None && loading == old(loading)
      ensures !AllWhitespace(topic) ==> loading && sent == Some(PostQuiz(NullIfEmpty(notebookId), topic, level, qtype))
      ensures sent.Some? ==> GenerateDisabled()
    {
      TrimBlankIff(topic);
      if Trim(topic) == "" {
        sent := None;
        return;
      }
      loading := true;
      sent := Some(PostQuiz(NullIfEmpty(notebookId), topic, level, qtype));
    }

    /** The part after the await: the raw quiz or the fixed failure text, and not busy. */
    method CompleteGenerate(res: Outcome<Body>)
      modifies this`result, this`loading
      ensures res.Success? ==> result == FieldText(res.data, "quiz_raw")
      ensures res.Failure? ==> result == QuizFailureText
      ensures !loading
      ensures res.Failure? ==> !DownloadDisabled()
      ensures res.Success? ==> (DownloadDisabled() <==> "quiz_raw" !in res.data || res.data["quiz_raw"] == "")
      ensures !GenerateDisabled() <==> !AllWhitespace(topic)
    {
      match res {
        case Success(body) => result := FieldText(body, "quiz_raw");
        case Failure(_) => result := QuizFailureText;
      }
      loading := false;
    }
  }
}
