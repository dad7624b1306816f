/** The application state: the controls, the generated questions, the saved collection,
    and the loading/error flags driven by the two question requests. */
module IcebreakerApp {
  import opened Wrappers
  import opened Seqs
  import opened Questions
  import Filters
  import Saved

  /** What an awaited question request settles to: the generated text(s), or a rejection
      carrying the error's message (possibly empty). */
  datatype Response<T> = Delivered(value: T) | Rejected(message: string)

  /** The controls a request was started with, as the handler's closure sees them. */
  datatype Request = Request(context: ContextType, chaos: ChaosLevel, filters: seq<FilterType>)

  /** Shown when a list request fails with an empty message. */
  const ListFallback: string := "Something went wrong."
  /** Shown when a targeted request fails with an empty message. */
  const TargetedFallback: string := "The bottle stalled."

  /** `err.message || fallback`: the error's own message unless it is empty. */
  function ErrorText(message: string, fallback: string): (e: string)
    requires fallback != []
    ensures e != []
    ensures message != [] ==> e == message
    ensures message == [] ==> e == fallback
  {
    if message != [] then message else fallback
  }

  /** One generated question, stamped with the request's controls. */
  function MakeQuestion(req: Request, text: string, id: string, now: int, target: Option<string>): Question {
    Question(id, text, req.context, req.chaos, req.filters, now, target)
  }

  /** `rawQuestions.map(...)` in list mode: question `i` gets text `texts[i]`, the id
      `freshId(i)` and the time `clock(i)`. */
  function BuildQuestions(req: Request, texts: seq<string>, freshId: nat -> string, clock: nat -> int): (qs: seq<Question>)
    ensures |qs| == |texts|
    ensures forall i :: 0 <= i < |qs| ==>
              && qs[i].text == texts[i]
              && qs[i].id == freshId(i)
              && qs[i].timestamp == clock(i)
              && qs[i].context == req.context
              && qs[i].chaosLevel == req.chaos
              && qs[i].filters == req.filters
              && qs[i].targetPerson == None
  {
    var qs := seq(|texts|, i requires 0 <= i < |texts| => MakeQuestion(req, texts[i], freshId(i), clock(i), None));
    assert forall i :: 0 <= i < |qs| ==> qs[i] == MakeQuestion(req, texts[i], freshId(i), clock(i), None);
    qs
  }

  /** The texts of a list of questions. */
  function Texts(qs: seq<Question>): (ts: seq<string>)
    ensures |ts| == |qs|
    ensures forall i :: 0 <= i < |qs| ==> ts[i] == qs[i].text
  {
    seq(|qs|, i requires 0 <= i < |qs| => qs[i].text)
  }

  /** Building questions keeps the returned texts, in their order. */
  lemma BuildQuestionsKeepsTexts(req: Request, texts: seq<string>, freshId: nat -> string, clock: nat -> int)
    ensures Texts(BuildQuestions(req, texts, freshId, clock)) == texts
  {
  }

  class App {
    var context: ContextType
    var chaos: ChaosLevel
    var filters: seq<FilterType>
    var questions: seq<Question>
    var savedQuestions: seq<Question>
    var targetedQuestion: Option<Question>
    var isLoading: bool
    var error: Option<string>

    /** The state invariant: no vibe is selected twice, no text is saved twice, and an
        error, when shown, is not empty. */
    ghost predicate Valid()
      reads this
    {
      && Distinct(filters)
      && Saved.TextsUnique(savedQuestions)
      && (error.Some? ==> error.value != [])
    }

    /** The initial state; `stored` is what local storage held for the saved list. */
    constructor (stored: seq<Question>)
      requires Saved.TextsUnique(stored)
      ensures Valid()
      ensures context == FirstDate && chaos == 3 && filters == []
      ensures questions == [] && savedQuestions == stored && targetedQuestion == None
      ensures !isLoading && error == None
    {
      context := FirstDate;
      chaos := 3;
      filters := [];
      questions := [];
      savedQuestions := stored;
      targetedQuestion := None;
      isLoading := false;
      error := None;
    }

    /** `toggleFilter`. */
    method ToggleFilter(f: FilterType)
      requires Valid()
      modifies this`filters
      ensures Valid()
      ensures filters == Filters.Toggle(old(filters), f)
    {
      Filters.ToggleKeepsDistinct(filters, f);
      filters := Filters.Toggle(filters, f);
    }

    /** `toggleSave`. */
    method ToggleSave(question: Question)
      requires Valid()
      modifies this`savedQuestions
      ensures Valid()
      ensures savedQuestions == Saved.ToggleSave(old(savedQuestions), question)
    {
      Saved.ToggleSaveKeepsTextsUnique(savedQuestions, question);
      savedQuestions := Saved.ToggleSave(savedQuestions, question);
    }

    /** `removeSaved`. */
    method RemoveSaved(id: string)
      requires Valid()
      modifies this`savedQuestions
      ensures Valid()
      ensures savedQuestions == Saved.RemoveSaved(old(savedQuestions), id)
    {
      Saved.RemoveSavedKeepsTextsUnique(savedQuestions, id);
      savedQuestions := Saved.RemoveSaved(savedQuestions, id);
    }

    /** `handleGenerateList` up to its `await`: raises the loading flag, clears the error and
        the spin result, and captures the controls the request is made with. */
    method BeginGenerateList() returns (req: Request)
      requires Valid()
      modifies this`isLoading, this`error, this`targetedQuestion
      ensures Valid()
      ensures isLoading && error == None && targetedQuestion == None
      ensures req == Request(context, chaos, filters)
    {
      isLoading := true;
      error := None;
      targetedQuestion := None;
      req := Request(context, chaos, filters);
    }

    /** `handleGenerateList` after its `await`: on success the questions are replaced by
        the new ones; on failure an error is shown and the questions are kept. The loading
        flag is lowered either way. */
    method FinishGenerateList(req: Request, response: Response<seq<string>>, freshId: nat -> string, clock: nat -> int)
      requires Valid()
      modifies this`questions, this`error, this`isLoading
      ensures Valid()
      ensures !isLoading
      ensures response.Delivered? ==>
                questions == BuildQuestions(req, response.value, freshId, clock) && error == old(error)
      ensures response.Rejected? ==>
                questions == old(questions) && error == Some(ErrorText(response.message, ListFallback))
    {
      match response {
        case Delivered(texts) =>
          questions := BuildQuestions(req, texts, freshId, clock);
        case Rejected(message) =>
          error := Some(ErrorText(message, ListFallback));
      }
      isLoading := false;
    }

    /** `handleSpinComplete` up to its `await`: raises the loading flag and clears the error. */
    method BeginSpinComplete()
      requires Valid()
      modifies this`isLoading, this`error
      ensures Valid()
      ensures isLoading && error == None
    {
      isLoading := true;
      error := None;
    }

    /** `handleSpinComplete` after its `await`: on success the targeted result is a question
        for `winner`, stamped with `controls`, the setting, chaos level and filters the
        handler's closure captured when the spin was started; on failure an error is shown
        and the previous result is kept. The loading flag is lowered either way. */
    method FinishSpinComplete(controls: Request, winner: string, response: Response<string>, id: string, now: int)
      requires Valid()
      modifies this`targetedQuestion, this`error, this`isLoading
      ensures Valid()
      ensures !isLoading
      ensures response.Delivered? ==>
                && targetedQuestion == Some(MakeQuestion(controls, response.value, id, now, Some(winner)))
                && targetedQuestion.value.targetPerson == Some(winner)
                && error == old(error)
      ensures response.Rejected? ==>
                targetedQuestion == old(targetedQuestion) && error == Some(ErrorText(response.message, TargetedFallback))
    {
      match response {
        case Delivered(text) =>
          targetedQuestion := Some(MakeQuestion(controls, text, id, now, Some(winner)));
        case Rejected(message) =>
          error := Some(ErrorText(message, TargetedFallback));
      }
      isLoading := false;
    }

    /** The whole list handler, with nothing interleaved at the `await`. */
    method HandleGenerateList(response: Response<seq<string>>, freshId: nat -> string, clock: nat -> int)
      requires Valid()
      modifies this`questions, this`error, this`isLoading, this`targetedQuestion
      ensures Valid()
      ensures !isLoading && targetedQuestion == None
      ensures response.Delivered? ==>
                && questions == BuildQuestions(Request(context, chaos, filters), response.value, freshId, clock)
                && Texts(questions) == response.value
                && error == None
      ensures response.Rejected? ==>
                questions == old(questions) && error == Some(ErrorText(response.message, ListFallback))
    {
      var req := BeginGenerateList();
      FinishGenerateList(req, response, freshId, clock);
      if response.Delivered? {
        BuildQuestionsKeepsTexts(req, response.value, freshId, clock);
      }
    }

    /** The whole targeted handler, with nothing interleaved at the `await`. The timer calls
        the handler of the render in which the spin started, so `controls` are the controls
        of that render, not necessarily the current ones. */
    method HandleSpinComplete(controls: Request, winner: string, response: Response<string>, id: string, now: int)
      requires Valid()
      modifies this`targetedQuestion, this`error, this`isLoading
      ensures Valid()
      ensures !isLoading
      ensures response.Delivered? ==>
                && targetedQuestion == Some(MakeQuestion(controls, response.value, id, now, Some(winner)))
                && targetedQuestion.value.text == response.value
                && targetedQuestion.value.targetPerson == Some(winner)
                && targetedQuestion.value.context == controls.context
                && targetedQuestion.value.chaosLevel == controls.chaos
                && targetedQuestion.value.filters == controls.filters
                && error == None
      ensures response.Rejected? ==>
                && targetedQuestion == old(targetedQuestion)
                && error == Some(ErrorText(response.message, TargetedFallback))
    {
      BeginSpinComplete();
      FinishSpinComplete(controls, winner, response, id, now);
    }
  }
}
