/** The checkbox assessment driver of `src/lib/main.js`: grouping the
    fetched questions by page, and the checkbox, back and next handlers,
    which change the shared state through the state manager. Rendering,
    the progress bar and the error banner are left as returned flags. */
module AssessmentFlow {

  import opened Wrappers
  import opened JsModel
  import opened Sorting
  import opened StateManager

  // ---------------------------------------------------------------------
  // groupQuestionsByPage

  function OptionOrder(o: AnswerOption): int { o.id }

  function PageOrder(g: PageGroup): int { g.page }

  /** `options.filter(o => o.pergunta_id === questionId)`. */
  function OptionsOf(options: seq<AnswerOption>, questionId: int): (r: seq<AnswerOption>)
    ensures forall o :: o in r <==> o in options && o.questionId == questionId
  {
    if options == [] then []
    else
      var rest := OptionsOf(options[1..], questionId);
      assert options == [options[0]] + options[1..];
      if options[0].questionId == questionId then [options[0]] + rest else rest
  }

  /** The question with `q.options` replaced by its own options sorted by id. */
  function WithOptions(q: Question, options: seq<AnswerOption>): Question {
    q.(options := SortBy(OptionsOf(options, q.id), OptionOrder))
  }

  /** The attached options are exactly the question's own, ascending by id. */
  lemma AttachedOptions(q: Question, options: seq<AnswerOption>)
    ensures var r := WithOptions(q, options);
            r.id == q.id && r.page == q.page
            && SortedBy(r.options, OptionOrder)
            && multiset(r.options) == multiset(OptionsOf(options, q.id))
            && forall o :: o in r.options <==> o in options && o.questionId == q.id
  {
    SortByMembers(OptionsOf(options, q.id), OptionOrder);
  }

  /** The questions of `page`, in input order, each with its options. */
  function QuestionsOn(questions: seq<Question>, page: nat, options: seq<AnswerOption>): seq<Question> {
    if questions == [] then []
    else
      var last := questions[|questions| - 1];
      QuestionsOn(questions[..|questions| - 1], page, options)
      + (if last.page == page then [WithOptions(last, options)] else [])
  }

  /** The `pages` dictionary after the loop has seen `questions`. */
  function Grouping(questions: seq<Question>, options: seq<AnswerOption>): map<nat, PageGroup> {
    if questions == [] then map[]
    else FileUnderPage(Grouping(questions[..|questions| - 1], options), questions[|questions| - 1], options)
  }

  /** The pages the questions fall on. */
  function PagesOf(questions: seq<Question>): set<nat> {
    if questions == [] then {}
    else PagesOf(questions[..|questions| - 1]) + {questions[|questions| - 1].page}
  }

  /** A page is among `PagesOf` exactly when some question falls on it. */
  lemma {:induction false} PagesOfMembers(questions: seq<Question>, page: nat)
    ensures page in PagesOf(questions) <==> exists q :: q in questions && q.page == page
  {
    if questions != [] {
      var init := questions[..|questions| - 1];
      PagesOfMembers(init, page);
      assert questions == init + [questions[|questions| - 1]];
    }
  }

  /** The loop body's effect: file one more question under its page. */
  function FileUnderPage(pages: map<nat, PageGroup>, q: Question, options: seq<AnswerOption>): map<nat, PageGroup> {
    var group := if q.page in pages then pages[q.page] else PageGroup(q.page, []);
    pages[q.page := group.(questions := group.questions + [WithOptions(q, options)])]
  }

  /** `Grouping` of a longer prefix is one more loop step. */
  lemma GroupingStep(questions: seq<Question>, i: nat, options: seq<AnswerOption>)
    requires i < |questions|
    ensures Grouping(questions[..i + 1], options) == FileUnderPage(Grouping(questions[..i], options), questions[i], options)
  {
    assert questions[..i + 1][..i] == questions[..i];
  }

  /** The pages that have a group are the pages that occur. */
  lemma {:induction false} GroupingKeys(questions: seq<Question>, options: seq<AnswerOption>)
    ensures Grouping(questions, options).Keys == PagesOf(questions)
  {
    if questions != [] {
      var init := questions[..|questions| - 1];
      GroupingKeys(init, options);
    }
  }

  /** Each group holds its page number and that page's questions. */
  lemma {:induction false} GroupingContents(questions: seq<Question>, options: seq<AnswerOption>)
    ensures forall p :: p in Grouping(questions, options) ==>
              Grouping(questions, options)[p] == PageGroup(p, QuestionsOn(questions, p, options))
  {
    if questions != [] {
      var init := questions[..|questions| - 1];
      var q := questions[|questions| - 1];
      var pages := Grouping(init, options);
      GroupingContents(init, options);
      if q.page !in pages {
        GroupingKeys(init, options);
        QuestionsOnAbsentPage(init, q.page, options);
      }
      forall p | p in Grouping(questions, options)
        ensures Grouping(questions, options)[p] == PageGroup(p, QuestionsOn(questions, p, options))
      {
        if p != q.page {
          assert QuestionsOn(questions, p, options) == QuestionsOn(init, p, options) + [];
        }
      }
    }
  }

  /** A page no question falls on has no questions. */
  lemma {:induction false} QuestionsOnAbsentPage(questions: seq<Question>, page: nat, options: seq<AnswerOption>)
    requires page !in PagesOf(questions)
    ensures QuestionsOn(questions, page, options) == []
  {
    if questions != [] {
      QuestionsOnAbsentPage(questions[..|questions| - 1], page, options);
    }
  }

  /** The value `groupQuestionsByPage` returns. */
  function GroupedByPage(questions: seq<Question>, options: seq<AnswerOption>): seq<PageGroup> {
    SortBy(Values(Grouping(questions, options)), PageOrder)
  }

  /** The `i`-th value is the group filed under the `i`-th smallest key. */
  lemma ValuesByPageAt(pages: map<nat, PageGroup>, i: nat)
    requires forall p :: p in pages ==> pages[p].page == p
    requires i < |Values(pages)|
    ensures var keys := SortedKeys(pages.Keys);
            Values(pages)[i] == pages[keys[i]] && Values(pages)[i].page == keys[i]
  {
  }

  /** When every group is filed under its own page number, the values
      come out in strictly ascending page order, one per key. */
  lemma ValuesByPageOrdered(pages: map<nat, PageGroup>)
    requires forall p :: p in pages ==> pages[p].page == p
    ensures var r := Values(pages);
            (forall i, j :: 0 <= i < j < |r| ==> r[i].page < r[j].page)
            && (forall i :: 0 <= i < |r| ==> r[i].page in pages && r[i] == pages[r[i].page])
  {
    var keys := SortedKeys(pages.Keys);
    var r := Values(pages);
    forall i | 0 <= i < |r|
      ensures r[i].page == keys[i] && r[i].page in pages && r[i] == pages[r[i].page]
    {
      ValuesByPageAt(pages, i);
    }
  }

  /** Every key has its value. */
  lemma ValuesByPageCovers(pages: map<nat, PageGroup>)
    requires forall p :: p in pages ==> pages[p].page == p
    ensures var r := Values(pages);
            forall p :: p in pages ==> exists i :: 0 <= i < |r| && r[i].page == p
  {
    var keys := SortedKeys(pages.Keys);
    var r := Values(pages);
    forall p | p in pages
      ensures exists i :: 0 <= i < |r| && r[i].page == p
    {
      assert p in keys;
      var i :| 0 <= i < |keys| && keys[i] == p;
      ValuesByPageAt(pages, i);
    }
  }

  /** The result has one group per page that occurs, in strictly ascending
      page order, and each group holds exactly the questions of its page,
      in input order, with their options attached. */
  lemma GroupedByPageSpec(questions: seq<Question>, options: seq<AnswerOption>)
    ensures var r := GroupedByPage(questions, options);
            (forall i, j :: 0 <= i < j < |r| ==> r[i].page < r[j].page)
            && (forall p :: p in PagesOf(questions) <==> exists i :: 0 <= i < |r| && r[i].page == p)
            && (forall i :: 0 <= i < |r| ==> r[i].questions == QuestionsOn(questions, r[i].page, options))
  {
    var pages := Grouping(questions, options);
    GroupingKeys(questions, options);
    GroupingContents(questions, options);
    ValuesByPageOrdered(pages);
    ValuesByPageCovers(pages);
    var values := Values(pages);
    assert SortedBy(values, PageOrder);
    SortBySorted(values, PageOrder);
  }

  /** `groupQuestionsByPage`, loop by loop. */
  method GroupQuestionsByPage(questions: seq<Question>, options: seq<AnswerOption>) returns (groups: seq<PageGroup>)
    ensures groups == GroupedByPage(questions, options)
  {
    var pages: map<nat, PageGroup> := map[];
    for i := 0 to |questions|
      invariant pages == Grouping(questions[..i], options)
    {
      ghost var before := pages;
      var q := questions[i];
      ghost var group := if q.page in pages then pages[q.page] else PageGroup(q.page, []);
      if q.page !in pages {
        pages := pages[q.page := PageGroup(q.page, [])];
      }
      assert pages[q.page] == group;
      var attached := q.(options := SortBy(OptionsOf(options, q.id), OptionOrder));
      assert attached == WithOptions(q, options);
      pages := pages[q.page := pages[q.page].(questions := pages[q.page].questions + [attached])];
      assert pages == before[q.page := group.(questions := group.questions + [attached])];
      GroupingStep(questions, i, options);
    }
    assert questions[..|questions|] == questions;
    groups := SortBy(Values(pages), PageOrder);
  }

  // ---------------------------------------------------------------------
  // Handlers

  /** The limit banner after a handler: shown or hidden. */
  datatype Banner = LimitShown | LimitHidden

  /** The most options a question may keep checked. */
  const MaxSelections: int := 5

  /** No question has more than five options checked. */
  predicate WithinCap(answers: Answers) {
    forall q :: q in answers ==> |answers[q]| <= MaxSelections
  }

  /** The answers after `handleCheckboxChange`: a check is refused once five
      are checked, otherwise added; an uncheck removes the option. */
  function CheckboxAnswers(answers: Answers, questionId: int, optionId: int, checked: bool): Answers {
    if checked then
      if |AnswersFor(answers, questionId)| >= MaxSelections then answers
      else Added(answers, questionId, optionId)
    else Removed(answers, questionId, optionId)
  }

  /** `handleCheckboxChange`, with the parsed ids and the checkbox state
      passed in. Returns whether the box stays checked and the banner. */
  method HandleCheckboxChange(st: AssessmentState, questionId: int, optionId: int, checked: bool)
    returns (keptChecked: bool, banner: Banner)
    modifies st
    ensures st.Snapshot() == old(st.Snapshot()).(answers := CheckboxAnswers(old(st.answers), questionId, optionId, checked))
    ensures keptChecked <==> checked && |AnswersFor(old(st.answers), questionId)| < MaxSelections
    ensures banner == LimitShown <==> checked && |AnswersFor(old(st.answers), questionId)| >= MaxSelections
  {
    var questionAnswers := st.GetAnswersForQuestion(questionId);
    if checked {
      if |questionAnswers| >= 5 {
        return false, LimitShown;
      }
      st.AddAnswer(questionId, optionId);
      return true, LimitHidden;
    } else {
      st.RemoveAnswer(questionId, optionId);
      return false, LimitHidden;
    }
  }

  /** Checking a sixth option is refused and changes nothing. */
  lemma SixthCheckRefused(answers: Answers, questionId: int, optionId: int)
    requires |AnswersFor(answers, questionId)| >= MaxSelections
    ensures CheckboxAnswers(answers, questionId, optionId, true) == answers
  {
  }

  /** Through the checkbox handler no question ever exceeds five options,
      and the answers stay well formed. */
  lemma {:induction false} CheckboxKeepsCap(answers: Answers, questionId: int, optionId: int, checked: bool)
    requires WithinCap(answers) && WellFormed(answers)
    ensures WithinCap(CheckboxAnswers(answers, questionId, optionId, checked))
    ensures WellFormed(CheckboxAnswers(answers, questionId, optionId, checked))
  {
    if checked {
      AddedWellFormed(answers, questionId, optionId);
    } else {
      RemovedWellFormed(answers, questionId, optionId);
    }
  }

  /** Unchecking removes exactly that option from that question. */
  lemma UncheckRemovesExactly(answers: Answers, questionId: int, optionId: int)
    ensures var r := AnswersFor(CheckboxAnswers(answers, questionId, optionId, false), questionId);
            optionId !in r && forall x :: x in r <==> x in AnswersFor(answers, questionId) && x != optionId
    ensures SameElsewhere(answers, CheckboxAnswers(answers, questionId, optionId, false), questionId)
  {
    RemovedDropsOnlyThat(answers, questionId, optionId);
  }

  /** The page after `handleBackButtonClick`. */
  function BackPage(page: int): int {
    if page > 1 then page - 1 else page
  }

  /** Back never leaves page 1 downwards and otherwise steps back by one. */
  lemma BackPageBounds(page: int)
    ensures page >= 1 ==> BackPage(page) >= 1
    ensures page > 1 ==> BackPage(page) == page - 1
    ensures page <= 1 ==> BackPage(page) == page
  {
  }

  /** `handleBackButtonClick`. */
  method HandleBackButtonClick(st: AssessmentState)
    modifies st
    ensures st.Snapshot() == old(st.Snapshot()).(currentPage := BackPage(old(st.currentPage)))
  {
    if st.currentPage > 1 {
      var newPage := st.currentPage - 1;
      st.SetCurrentPage(newPage);
    }
  }

  /** `groups.find(p => p.page === page)`. */
  function FindPage(groups: seq<PageGroup>, page: int): (r: Option<PageGroup>)
    ensures r.Some? ==> r.value in groups && r.value.page == page
    ensures r.None? ==> forall g :: g in groups ==> g.page != page
    ensures r.Some? ==> exists i :: 0 <= i < |groups| && groups[i] == r.value
                                    && forall k :: 0 <= k < i ==> groups[k].page != page
  {
    if groups == [] then None
    else if groups[0].page == page then Some(groups[0])
    else FindPage(groups[1..], page)
  }

  /** Some question of the page has more than five options checked. */
  predicate OverLimit(questions: seq<Question>, answers: Answers) {
    exists i :: 0 <= i < |questions| && |AnswersFor(answers, questions[i].id)| > MaxSelections
  }

  /** What `handleNextButtonClick` does: throw on a missing page (reading
      `.questions` of `undefined`), show the limit error, hand over to the
      final submission, do nothing on the final page without the
      `Finalizar` label, or advance. */
  datatype NextResult = PageMissing | LimitExceeded | FinalSubmit | FinalWithoutLabel | Advanced

  function NextResultOf(s: AppState, labelIsFinalize: bool): NextResult {
    match FindPage(s.questions, s.currentPage)
    case None => PageMissing
    case Some(g) =>
      if OverLimit(g.questions, s.answers) then LimitExceeded
      else if s.currentPage == s.totalPages then (if labelIsFinalize then FinalSubmit else FinalWithoutLabel)
      else Advanced
  }

  /** `handleNextButtonClick`, with the button label test passed in. */
  method HandleNextButtonClick(st: AssessmentState, labelIsFinalize: bool) returns (result: NextResult)
    modifies st
    ensures result == NextResultOf(old(st.Snapshot()), labelIsFinalize)
    ensures st.Snapshot() == if result == Advanced then old(st.Snapshot()).(currentPage := old(st.currentPage) + 1)
                             else old(st.Snapshot())
  {
    var isFinalPage := st.currentPage == st.totalPages;
    var found := FindPage(st.questions, st.currentPage);
    if found.None? {
      return PageMissing;
    }
    var currentQuestions := found.value.questions;
    for i := 0 to |currentQuestions|
      invariant st.Snapshot() == old(st.Snapshot())
      invariant forall k :: 0 <= k < i ==> |AnswersFor(st.answers, currentQuestions[k].id)| <= MaxSelections
    {
      var answers := st.GetAnswersForQuestion(currentQuestions[i].id);
      if |answers| > 5 {
        assert |AnswersFor(st.answers, currentQuestions[i].id)| > MaxSelections;
        assert OverLimit(currentQuestions, st.answers);
        return LimitExceeded;
      }
    }
    if isFinalPage {
      if labelIsFinalize {
        return FinalSubmit;
      }
      return FinalWithoutLabel;
    }
    var newPage := st.currentPage + 1;
    st.SetCurrentPage(newPage);
    return Advanced;
  }

  /** Next advances exactly when the page exists, is not the last, and no
      question on it is over the limit; from a page within range it never
      passes the last page. */
  lemma NextAdvancesOnlyWhenAllowed(s: AppState, labelIsFinalize: bool)
    ensures NextResultOf(s, labelIsFinalize) == Advanced <==>
              FindPage(s.questions, s.currentPage).Some?
              && !OverLimit(FindPage(s.questions, s.currentPage).value.questions, s.answers)
              && s.currentPage != s.totalPages
    ensures NextResultOf(s, labelIsFinalize) == Advanced && s.currentPage <= s.totalPages
            ==> s.currentPage + 1 <= s.totalPages
  {
  }

  /** Within the checkbox cap the limit error never fires. */
  lemma {:induction false} CapRulesOutLimitError(s: AppState, labelIsFinalize: bool)
    requires WithinCap(s.answers)
    ensures NextResultOf(s, labelIsFinalize) != LimitExceeded
  {
    var found := FindPage(s.questions, s.currentPage);
    if found.Some? {
      var qs := found.value.questions;
      forall i | 0 <= i < |qs|
        ensures |AnswersFor(s.answers, qs[i].id)| <= MaxSelections
      {
        if qs[i].id in s.answers {
          assert |s.answers[qs[i].id]| <= MaxSelections;
        }
      }
    }
  }

  /** Page numbers are not assumed to be 1..n by `groupQuestionsByPage`,
      but Next steps by one: with questions on pages 1 and 3, Next from
      page 1 moves to page 2, and Next from there finds no group. */
  lemma GapInPagesStalls(g1: PageGroup, g3: PageGroup, answers: Answers, labelIsFinalize: bool)
    requires g1.page == 1 && g3.page == 3 && !OverLimit(g1.questions, answers)
    ensures var s := AppState(Candidate("", ""), 1, 2, [g1, g3], answers);
            NextResultOf(s, labelIsFinalize) == Advanced
            && NextResultOf(s.(currentPage := 2), labelIsFinalize) == PageMissing
  {
    assert FindPage([g1, g3], 1) == Some(g1);
    assert FindPage([g1, g3], 2) == None;
  }
}
