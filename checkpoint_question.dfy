/**
 * The `CheckpointQuestion` component: seven state fields, `fetchQuestion`
 * (split at its `await` into `StartFetch` and `FinishFetch`), `handleSubmit`,
 * the radio group's selection, the refresh and submit buttons with their
 * `disabled` rules, and the feedback line shown after a submission. The
 * `onComplete` callback is recorded as the list of values it was called with.
 */
module CheckpointQuestionComponent {
  import opened Wrappers
  import opened QuestionBank
  import opened Http

  /** How the `fetch("/api/checkpoint")` of `fetchQuestion` ends. */
  datatype FetchOutcome = Loaded(record: QuestionRecord) | FetchFailed

  /**
   * What `fetchQuestion` makes of a back end's answer: a question when
   * `response.ok` holds and the body is one, otherwise the `catch` path.
   */
  function OutcomeOf(r: Response): FetchOutcome {
    if IsSuccess(r.status) && r.body.Question? then Loaded(r.body.record) else FetchFailed
  }

  const CorrectFeedback: string := "Great job! You've understood this concept well."
  const IncorrectFeedbackPrefix: string := "The correct answer is: "

  /**
   * `options.find(o => o.id === correctAnswerId)?.text` inside a template
   * string: the correct option's text, or "undefined" when no option has the id.
   */
  function CorrectAnswerText(options: seq<AnswerOption>, correctAnswerId: string): string {
    match Find(options, correctAnswerId)
    case Some(o) => o.text
    case None => "undefined"
  }

  /** For a well-formed record the feedback names the one option whose id is the correct id. */
  lemma CorrectAnswerTextOfWellFormed(r: QuestionRecord)
    requires WellFormed(r)
    ensures exists k :: && 0 <= k < |r.options| && r.options[k].id == r.correctAnswerId
                        && CorrectAnswerText(r.options, r.correctAnswerId) == r.options[k].text
  {
    var o := Find(r.options, r.correctAnswerId);
    assert o.Some?;
    var k :| 0 <= k < |r.options| && r.options[k] == o.value;
  }

  class CheckpointQuestion {
    /** The `sectionId` prop. */
    const sectionId: string
    /** Whether the `onComplete` prop was given. */
    const hasOnComplete: bool

    var question: string
    var options: seq<AnswerOption>
    var correctAnswerId: string
    var selectedOption: string
    var isCorrect: Option<bool>
    var isLoading: bool
    var isSubmitted: bool
    /** The values `onComplete` was called with, oldest first. */
    var completions: seq<bool>
    /** Graded submissions since the current question was loaded. */
    ghost var gradedSinceLoad: nat

    /**
     * What the buttons keep true: at most one graded submission per loaded
     * question, and a grade exactly when the question was submitted.
     */
    ghost predicate Valid()
      reads this
    {
      && gradedSinceLoad <= 1
      && (isSubmitted <==> gradedSinceLoad == 1)
      && (isCorrect.Some? <==> isSubmitted)
    }

    /** The question as currently displayed. */
    function Displayed(): QuestionRecord
      reads this
    {
      QuestionRecord(question, options, correctAnswerId)
    }

    /** The initial `useState` values. */
    constructor(sectionId: string, hasOnComplete: bool)
      ensures Valid()
      ensures this.sectionId == sectionId && this.hasOnComplete == hasOnComplete
      ensures question == "" && options == [] && correctAnswerId == "" && selectedOption == ""
      ensures isCorrect == None && !isLoading && !isSubmitted && completions == []
    {
      this.sectionId := sectionId;
      this.hasOnComplete := hasOnComplete;
      question, options, correctAnswerId, selectedOption := "", [], "", "";
      isCorrect, isLoading, isSubmitted := None, false, false;
      completions := [];
      gradedSinceLoad := 0;
    }

    /** `fetchQuestion` up to its `await`. */
    method StartFetch()
      requires Valid()
      modifies this`isLoading
      ensures Valid() && isLoading
    {
      isLoading := true;
    }

    /**
     * `fetchQuestion` after its `await`. A loaded question replaces the
     * displayed one, clears the selection and the result, and reports
     * `onComplete(false)`; a failure changes nothing but the loading flag,
     * which ends false either way.
     */
    method FinishFetch(outcome: FetchOutcome)
      requires Valid()
      modifies this
      ensures Valid() && !isLoading
      ensures outcome.Loaded? ==>
                && Displayed() == outcome.record
                && selectedOption == "" && isCorrect == None && !isSubmitted
                && completions == old(completions) + (if hasOnComplete then [false] else [])
      ensures outcome.FetchFailed? ==>
                && Displayed() == old(Displayed()) && selectedOption == old(selectedOption)
                && isCorrect == old(isCorrect) && isSubmitted == old(isSubmitted)
                && completions == old(completions) && gradedSinceLoad == old(gradedSinceLoad)
    {
      match outcome {
        case Loaded(record) =>
          question := record.question;
          options := record.options;
          correctAnswerId := record.correctAnswerId;
          selectedOption := "";
          isCorrect := None;
          isSubmitted := false;
          gradedSinceLoad := 0;
          if hasOnComplete {
            completions := completions + [false];
          }
        case FetchFailed =>
      }
      isLoading := false;
    }

    /** The radio group's `onValueChange`; it stays active after a submission. */
    method Select(optionId: string)
      requires Valid()
      modifies this`selectedOption
      ensures Valid() && selectedOption == optionId
    {
      selectedOption := optionId;
    }

    /**
     * `handleSubmit`: with no selection it returns at once; otherwise it grades
     * the selection against the correct id, marks the question submitted and
     * calls `onComplete` with the grade.
     */
    method HandleSubmit()
      modifies this`isCorrect, this`isSubmitted, this`completions, this`gradedSinceLoad
      ensures old(selectedOption) == "" ==> unchanged(this)
      ensures old(selectedOption) != "" ==>
                && isCorrect == Some(selectedOption == correctAnswerId)
                && isSubmitted
                && completions == old(completions) + (if hasOnComplete then [selectedOption == correctAnswerId] else [])
                && gradedSinceLoad == old(gradedSinceLoad) + 1
    {
      if selectedOption == "" {
        return;
      }
      var correct := selectedOption == correctAnswerId;
      isCorrect := Some(correct);
      isSubmitted := true;
      if hasOnComplete {
        completions := completions + [correct];
      }
      gradedSinceLoad := gradedSinceLoad + 1;
    }

    /** The submit button's `disabled={!selectedOption || isSubmitted}`, negated. */
    predicate SubmitEnabled()
      reads this
    {
      selectedOption != "" && !isSubmitted
    }

    /**
     * A click on the submit button: `handleSubmit` when the button is enabled,
     * nothing otherwise, so a question is graded at most once per load.
     */
    method ClickSubmit()
      requires Valid()
      modifies this`isCorrect, this`isSubmitted, this`completions, this`gradedSinceLoad
      ensures Valid()
      ensures !old(SubmitEnabled()) ==> unchanged(this)
      ensures old(SubmitEnabled()) ==>
                && isCorrect == Some(selectedOption == correctAnswerId) && isSubmitted
                && completions == old(completions) + (if hasOnComplete then [selectedOption == correctAnswerId] else [])
    {
      if SubmitEnabled() {
        HandleSubmit();
      }
    }

    /**
     * A click on the refresh button, `disabled={isLoading}`: `fetchQuestion`
     * again, started exactly when no fetch is running.
     */
    method ClickRefresh() returns (started: bool)
      requires Valid()
      modifies this`isLoading
      ensures started <==> !old(isLoading)
      ensures Valid() && isLoading
    {
      started := !isLoading;
      if started {
        StartFetch();
      }
    }

    /** The feedback paragraph shown once the question is submitted. */
    function Feedback(): (f: Option<string>)
      reads this
    {
      if !isSubmitted then None
      else if isCorrect == Some(true) then Some(CorrectFeedback)
      else Some(IncorrectFeedbackPrefix + CorrectAnswerText(options, correctAnswerId))
    }
  }

  /**
   * After an incorrect submission of a well-formed question, the feedback
   * names the text of the option whose id is the correct id.
   */
  lemma IncorrectFeedbackNamesCorrectOption(q: CheckpointQuestion)
    requires q.Valid() && q.isSubmitted && q.isCorrect == Some(false)
    requires WellFormed(q.Displayed())
    ensures exists k :: && 0 <= k < |q.options| && q.options[k].id == q.correctAnswerId
                        && q.Feedback() == Some(IncorrectFeedbackPrefix + q.options[k].text)
  {
    CorrectAnswerTextOfWellFormed(q.Displayed());
  }
}
