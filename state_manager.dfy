/** The module-level `state` object of `src/lib/state_manager.js` and the
    functions that mutate it. The answers object maps a question id to the
    option ids checked for it; lists are pushed onto, filtered, and deleted
    once empty. */
module StateManager {

  import opened JsModel

  /** An option row: its id and the question it belongs to (`pergunta_id`). */
  datatype AnswerOption = AnswerOption(id: int, questionId: int)

  /** A question row: its id, its page (`pagina`) and the options attached
      to it. */
  datatype Question = Question(id: int, page: nat, options: seq<AnswerOption>)

  /** One entry of `state.questions`: a page number and its questions. */
  datatype PageGroup = PageGroup(page: nat, questions: seq<Question>)

  datatype Candidate = Candidate(name: string, email: string)

  /** `state.answers`. */
  type Answers = map<int, seq<int>>

  /** The whole `state` object as a value. */
  datatype AppState = AppState(
    candidate: Candidate,
    currentPage: int,
    totalPages: int,
    questions: seq<PageGroup>,
    answers: Answers)

  /** `state.answers[questionId] || []` (an array is truthy even when empty). */
  function AnswersFor(answers: Answers, questionId: int): seq<int> {
    if questionId in answers then answers[questionId] else []
  }

  /** The answers after `addAnswer`: create the list if missing, then push
      the option unless it is already there. */
  function Added(answers: Answers, questionId: int, optionId: int): Answers {
    var current := AnswersFor(answers, questionId);
    if optionId in current then answers
    else answers[questionId := current + [optionId]]
  }

  /** The answers after `removeAnswer`: filter the option out of an existing
      list and delete the key once the list is empty. */
  function Removed(answers: Answers, questionId: int, optionId: int): Answers {
    if questionId !in answers then answers
    else
      var rest := Without(answers[questionId], optionId);
      if |rest| == 0 then answers - {questionId} else answers[questionId := rest]
  }

  /** No question maps to an empty list, and no list repeats an option. */
  predicate WellFormed(answers: Answers) {
    forall q :: q in answers ==> answers[q] != [] && NoDuplicates(answers[q])
  }

  /** Every question other than `q` reads the same in both answer maps. */
  predicate SameElsewhere(a: Answers, b: Answers, q: int) {
    a.Keys - {q} == b.Keys - {q}
    && forall k :: k in a && k in b && k != q ==> a[k] == b[k]
  }

  /** After `addAnswer(q, o)`, `o` is among `q`'s answers. */
  lemma AddedContains(answers: Answers, questionId: int, optionId: int)
    ensures optionId in AnswersFor(Added(answers, questionId, optionId), questionId)
  {
  }

  /** Adding an option already present changes nothing, so adding twice is
      adding once. */
  lemma AddedIdempotent(answers: Answers, questionId: int, optionId: int)
    ensures optionId in AnswersFor(answers, questionId) ==> Added(answers, questionId, optionId) == answers
    ensures Added(Added(answers, questionId, optionId), questionId, optionId) == Added(answers, questionId, optionId)
  {
    AddedContains(answers, questionId, optionId);
  }

  /** A new option goes at the end; the earlier ones keep their order. */
  lemma AddedAppends(answers: Answers, questionId: int, optionId: int)
    requires optionId !in AnswersFor(answers, questionId)
    ensures AnswersFor(Added(answers, questionId, optionId), questionId)
            == AnswersFor(answers, questionId) + [optionId]
  {
  }

  /** `addAnswer` touches only its own question. */
  lemma AddedKeepsOthers(answers: Answers, questionId: int, optionId: int)
    ensures SameElsewhere(answers, Added(answers, questionId, optionId), questionId)
  {
  }

  /** `addAnswer` keeps the answers well formed. */
  lemma {:induction false} AddedWellFormed(answers: Answers, questionId: int, optionId: int)
    requires WellFormed(answers)
    ensures WellFormed(Added(answers, questionId, optionId))
  {
    var current := AnswersFor(answers, questionId);
    if optionId !in current {
      var grown := current + [optionId];
      assert NoDuplicates(grown) by {
        forall i, j | 0 <= i < j < |grown|
          ensures grown[i] != grown[j]
        {
          if j == |current| {
            assert grown[i] == current[i];
          }
        }
      }
    }
  }

  /** After `removeAnswer(q, o)`, `o` is gone, every other option of `q`
      stays, and the survivors keep their relative order. */
  lemma {:induction false} RemovedDropsOnlyThat(answers: Answers, questionId: int, optionId: int)
    ensures var r := AnswersFor(Removed(answers, questionId, optionId), questionId);
            optionId !in r
            && (forall x :: x in r <==> x in AnswersFor(answers, questionId) && x != optionId)
            && IsSubsequence(r, AnswersFor(answers, questionId))
  {
    if questionId in answers {
      WithoutIsSubsequence(answers[questionId], optionId);
    }
  }

  /** `removeAnswer` on a question without answers is a no-op, and so is
      removing an option that is not there. */
  lemma {:induction false} RemovedAbsentIsNoOp(answers: Answers, questionId: int, optionId: int)
    requires WellFormed(answers)
    requires optionId !in AnswersFor(answers, questionId)
    ensures Removed(answers, questionId, optionId) == answers
  {
    if questionId in answers {
      WithoutAbsent(answers[questionId], optionId);
    }
  }

  /** `removeAnswer` touches only its own question. */
  lemma RemovedKeepsOthers(answers: Answers, questionId: int, optionId: int)
    ensures SameElsewhere(answers, Removed(answers, questionId, optionId), questionId)
  {
  }

  /** `removeAnswer` keeps the answers well formed: an emptied list is
      deleted, and filtering keeps a list free of repeats. */
  lemma RemovedWellFormed(answers: Answers, questionId: int, optionId: int)
    requires WellFormed(answers)
    ensures WellFormed(Removed(answers, questionId, optionId))
  {
  }

  /** `state`, updated in place by the exported functions. */
  class AssessmentState {
    var candidate: Candidate
    var currentPage: int
    var totalPages: int
    var questions: seq<PageGroup>
    var answers: Answers

    function Snapshot(): AppState
      reads this
    {
      AppState(candidate, currentPage, totalPages, questions, answers)
    }

    /** The initial object literal. */
    constructor ()
      ensures Snapshot() == AppState(Candidate("", ""), 1, 0, [], map[])
    {
      candidate := Candidate("", "");
      currentPage := 1;
      totalPages := 0;
      questions := [];
      answers := map[];
    }

    /** `setCandidate`. */
    method SetCandidate(name: string, email: string)
      modifies this
      ensures Snapshot() == old(Snapshot()).(candidate := Candidate(name, email))
    {
      candidate := candidate.(name := name);
      candidate := candidate.(email := email);
    }

    /** `setQuestions`: the page count is the number of page groups. */
    method SetQuestions(questionPages: seq<PageGroup>)
      modifies this
      ensures Snapshot() == old(Snapshot()).(questions := questionPages, totalPages := |questionPages|)
    {
      questions := questionPages;
      totalPages := |questionPages|;
    }

    /** `setCurrentPage`. */
    method SetCurrentPage(page: int)
      modifies this
      ensures Snapshot() == old(Snapshot()).(currentPage := page)
    {
      currentPage := page;
    }

    /** `addAnswer`. */
    method AddAnswer(questionId: int, optionId: int)
      modifies this
      ensures Snapshot() == old(Snapshot()).(answers := Added(old(answers), questionId, optionId))
    {
      if questionId !in answers {
        answers := answers[questionId := []];
      }
      if optionId !in answers[questionId] {
        answers := answers[questionId := answers[questionId] + [optionId]];
      }
    }

    /** `removeAnswer`. */
    method RemoveAnswer(questionId: int, optionId: int)
      modifies this
      ensures Snapshot() == old(Snapshot()).(answers := Removed(old(answers), questionId, optionId))
    {
      if questionId in answers {
        answers := answers[questionId := Without(answers[questionId], optionId)];
        if |answers[questionId]| == 0 {
          answers := answers - {questionId};
          assert answers == old(answers) - {questionId};
        }
      }
    }

    /** `getAnswersForQuestion`: the list, or the empty list for a question
        without answers. */
    method GetAnswersForQuestion(questionId: int) returns (r: seq<int>)
      ensures questionId in answers ==> r == answers[questionId]
      ensures questionId !in answers ==> r == []
    {
      if questionId in answers {
        r := answers[questionId];
      } else {
        r := [];
      }
    }
  }
}
