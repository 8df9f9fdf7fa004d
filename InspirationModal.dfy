/**
 * The inspiration browser (src/components/inspiration-modal.component.ts):
 * the search filter over the library, the editing card with its icon and
 * "other questions" preview, the expanded categories and the session's
 * answers, kept as a `Map` from question id to question text and answer.
 * The random pick is an input (`choice`).
 */
module InspirationModal {
  import opened Options
  import opened JsText
  import opened WorkflowTypes
  import opened InsertionMaps
  import W = Workflow
  import Gemini
  import I18n
  import Library

  datatype Answer = Answer(questionText: string, answer: string)

  /** `AnswerMap`: a JavaScript `Map`, so its keys never repeat. */
  type AnswerMap = m: Entries<string, Answer> | Distinct(Keys(m)) witness []

  /** The payload of the `questionAnswered` output. */
  datatype AnsweredQuestion = AnsweredQuestion(questionId: string, questionText: string, answer: string)

  /** The question text, lowercased, contains the (already lowercased) term. */
  predicate Matches(q: InspirationQuestion, term: string) {
    Includes(Lower(q.text), term)
  }

  /** `questions.filter(q => q.text.toLowerCase().includes(term))`. */
  function MatchingQuestions(qs: seq<InspirationQuestion>, term: string): (r: seq<InspirationQuestion>)
    ensures |r| <= |qs|
    ensures forall q :: q in r <==> q in qs && Matches(q, term)
  {
    if qs == [] then []
    else if Matches(qs[0], term) then [qs[0]] + MatchingQuestions(qs[1..], term)
    else MatchingQuestions(qs[1..], term)
  }

  /** The filter keeps the order of the questions. */
  lemma {:induction false} MatchingAppend(a: seq<InspirationQuestion>, b: seq<InspirationQuestion>, term: string)
    ensures MatchingQuestions(a + b, term) == MatchingQuestions(a, term) + MatchingQuestions(b, term)
    decreases |a|
  {
    if a == [] {
      assert a + b == b;
    } else {
      assert (a + b)[1..] == a[1..] + b;
      MatchingAppend(a[1..], b, term);
    }
  }

  /** A category showing only its matching questions. */
  function Narrowed(c: InspirationCategory, term: string): InspirationCategory {
    c.(questions := MatchingQuestions(c.questions, term))
  }

  /**
   * Every category narrowed to its matching questions, categories left
   * without questions dropped: each shown category is the narrowed form of
   * one in the library and has a question, and every library category that
   * keeps a question is shown.
   */
  function NarrowAll(cats: seq<InspirationCategory>, term: string): (r: seq<InspirationCategory>)
    ensures |r| <= |cats|
    ensures forall c :: c in r ==> c.questions != [] && exists d :: d in cats && Narrowed(d, term) == c
    ensures forall d :: d in cats && Narrowed(d, term).questions != [] ==> Narrowed(d, term) in r
  {
    if cats == [] then []
    else
      var n := Narrowed(cats[0], term);
      var rest := NarrowAll(cats[1..], term);
      assert forall d :: d in cats[1..] ==> d in cats;
      if n.questions != [] then [n] + rest else rest
  }

  /** Categories keep their library order. */
  lemma {:induction false} NarrowAllAppend(a: seq<InspirationCategory>, b: seq<InspirationCategory>, term: string)
    ensures NarrowAll(a + b, term) == NarrowAll(a, term) + NarrowAll(b, term)
    decreases |a|
  {
    if a == [] {
      assert a + b == b;
    } else {
      assert (a + b)[1..] == a[1..] + b;
      NarrowAllAppend(a[1..], b, term);
    }
  }

  /** `filteredCategories`: the whole library for an empty search, else the narrowed categories. */
  function FilteredCategories(all: seq<InspirationCategory>, searchTerm: string): (r: seq<InspirationCategory>)
    ensures searchTerm == "" ==> r == all
    ensures searchTerm != "" ==> r == NarrowAll(all, Lower(searchTerm))
  {
    var term := Lower(searchTerm);
    if term == "" then all else NarrowAll(all, term)
  }

  /** A question with the given id is in the category (`c.questions.some(cq => cq.id === id)`). */
  predicate HasQuestion(c: InspirationCategory, id: string) {
    exists k :: 0 <= k < |c.questions| && c.questions[k].id == id
  }

  /** `find`: the first category holding a question with this id. */
  function FindCategory(cats: seq<InspirationCategory>, id: string): (r: Option<InspirationCategory>)
    ensures r.Some? ==>
      exists i :: 0 <= i < |cats| && cats[i] == r.value && HasQuestion(cats[i], id) &&
        forall j :: 0 <= j < i ==> !HasQuestion(cats[j], id)
    ensures r.None? ==> forall i :: 0 <= i < |cats| ==> !HasQuestion(cats[i], id)
  {
    if cats == [] then None
    else if HasQuestion(cats[0], id) then Some(cats[0])
    else
      var r := FindCategory(cats[1..], id);
      assert forall i :: 1 <= i < |cats| ==> cats[i] == cats[1..][i - 1];
      r
  }

  /** `categoryIcon`: the icon of the editing question's category, or "" without one. */
  function CategoryIcon(cats: seq<InspirationCategory>, editing: Option<InspirationQuestion>): (r: string)
    ensures editing.None? ==> r == ""
    ensures editing.Some? && FindCategory(cats, editing.value.id).None? ==> r == ""
    ensures editing.Some? && FindCategory(cats, editing.value.id).Some? ==>
      r == FindCategory(cats, editing.value.id).value.icon
  {
    if editing.None? then ""
    else
      match FindCategory(cats, editing.value.id)
      case Some(c) => c.icon
      case None => ""
  }

  /** `questions.filter(q => q.id !== id)`, in order. */
  function Without(qs: seq<InspirationQuestion>, id: string): (r: seq<InspirationQuestion>)
    ensures |r| <= |qs|
    ensures forall q :: q in r <==> q in qs && q.id != id
  {
    if qs == [] then []
    else if qs[0].id != id then [qs[0]] + Without(qs[1..], id)
    else Without(qs[1..], id)
  }

  /** `otherQuestions`: up to two other questions of the editing question's category, in category order. */
  function OtherQuestions(cats: seq<InspirationCategory>, editing: Option<InspirationQuestion>): (r: seq<InspirationQuestion>)
    ensures |r| <= 2
    ensures editing.None? ==> r == []
    ensures editing.Some? ==> forall q :: q in r ==> q.id != editing.value.id
    ensures editing.Some? && FindCategory(cats, editing.value.id).None? ==> r == []
    ensures editing.Some? && FindCategory(cats, editing.value.id).Some? ==>
      var others := Without(FindCategory(cats, editing.value.id).value.questions, editing.value.id);
      (forall q :: q in r ==> q in FindCategory(cats, editing.value.id).value.questions) &&
      (|others| <= 2 ==> r == others) && (|others| > 2 ==> r == others[..2])
  {
    if editing.None? then []
    else
      match FindCategory(cats, editing.value.id)
      case None => []
      case Some(c) =>
        var others := Without(c.questions, editing.value.id);
        var r := if |others| <= 2 then others else others[..2];
        assert forall q :: q in r ==> q in others;
        r
  }

  /** The expanded set with `id` flipped: it changes membership of `id` and of nothing else. */
  function Toggled(s: set<string>, id: string): (r: set<string>)
    ensures id in r <==> id !in s
    ensures forall x :: x != id ==> (x in r <==> x in s)
  {
    if id in s then s - {id} else s + {id}
  }

  lemma ToggleTwice(s: set<string>, id: string)
    ensures Toggled(Toggled(s, id), id) == s
  {
  }

  /** `existingAnswer?.answer || question.placeholder || ''`. */
  function InitialInput(existing: Option<Answer>, placeholder: Option<string>): (r: string)
    ensures existing.Some? && existing.value.answer != "" ==> r == existing.value.answer
    ensures !(existing.Some? && existing.value.answer != "") && Truthy(placeholder) ==> r == placeholder.value
    ensures !(existing.Some? && existing.value.answer != "") && !Truthy(placeholder) ==> r == ""
  {
    if existing.Some? && existing.value.answer != "" then existing.value.answer
    else if placeholder.Some? && placeholder.value != "" then placeholder.value
    else ""
  }

  /** `flatMap(c => c.questions)`. */
  function AllQuestions(cats: seq<InspirationCategory>): (r: seq<InspirationQuestion>)
    ensures forall q :: q in r <==> exists c :: c in cats && q in c.questions
  {
    if cats == [] then []
    else
      var rest := AllQuestions(cats[1..]);
      assert forall c :: c in cats <==> c == cats[0] || c in cats[1..];
      cats[0].questions + rest
  }

  /** The questions whose id has no answer. */
  function Unused(qs: seq<InspirationQuestion>, used: set<string>): (r: seq<InspirationQuestion>)
    ensures forall q :: q in r <==> q in qs && q.id !in used
  {
    if qs == [] then []
    else if qs[0].id !in used then [qs[0]] + Unused(qs[1..], used)
    else Unused(qs[1..], used)
  }

  /**
   * The pool `selectRandom` draws from: while some question is unanswered,
   * exactly the unanswered ones; once all are answered, all of them.
   */
  function RandomPool(cats: seq<InspirationCategory>, used: set<string>): (r: seq<InspirationQuestion>)
    ensures (exists q :: q in AllQuestions(cats) && q.id !in used) ==>
      forall q :: q in r <==> q in AllQuestions(cats) && q.id !in used
    ensures (forall q :: q in AllQuestions(cats) ==> q.id in used) ==> r == AllQuestions(cats)
    ensures r == [] <==> AllQuestions(cats) == []
  {
    var all := AllQuestions(cats);
    var unused := Unused(all, used);
    if |unused| > 0 then
      assert unused[0] in all;
      unused
    else
      assert forall q :: q in all ==> q.id in used;
      all
  }

  /** `usedQuestionIds`. */
  function UsedIds(m: AnswerMap): set<string> {
    set k | k in Keys(m)
  }

  lemma {:induction false} DistinctCard(ks: seq<string>)
    requires Distinct(ks)
    ensures |set k | k in ks| == |ks|
    decreases |ks|
  {
    if ks != [] {
      var rest := ks[1..];
      assert Distinct(rest) by {
        assert forall i :: 0 <= i < |rest| ==> rest[i] == ks[i + 1];
      }
      DistinctCard(rest);
      assert ks[0] !in rest;
      assert (set k | k in ks) == (set k | k in rest) + {ks[0]};
    }
  }

  /** `usedCount` is the number of answered questions: one per entry of the map. */
  lemma UsedCountIsSize(m: AnswerMap)
    ensures |UsedIds(m)| == |m|
  {
    DistinctCard(Keys(m));
  }

  class InspirationModalComponent {
    const wf: W.WorkflowService
    var sessionAnswers: AnswerMap
    var searchTerm: string
    var expandedCategories: set<string>
    var editingQuestion: Option<InspirationQuestion>
    var editCardInput: string
    var editingRandom: bool
    var toastMessage: string
    var isFetchingAIQuestions: bool
    var isRemixing: bool

    /** The component as created and initialised (`ngOnInit`) with the caller's answers. */
    constructor(service: W.WorkflowService, initialAnswers: AnswerMap)
      ensures wf == service && sessionAnswers == initialAnswers
      ensures searchTerm == "" && expandedCategories == {} && editingQuestion.None?
      ensures editCardInput == "" && !editingRandom && toastMessage == ""
      ensures !isFetchingAIQuestions && !isRemixing
    {
      wf := service;
      sessionAnswers := initialAnswers;
      searchTerm := "";
      expandedCategories := {};
      editingQuestion := None;
      editCardInput := "";
      editingRandom := false;
      toastMessage := "";
      isFetchingAIQuestions := false;
      isRemixing := false;
    }

    function UsedCount(): nat
      reads this`sessionAnswers
    {
      |UsedIds(sessionAnswers)|
    }

    method ToggleCategory(id: string)
      modifies this`expandedCategories
      ensures expandedCategories == Toggled(old(expandedCategories), id)
    {
      var newSet := expandedCategories;
      if id in newSet {
        newSet := newSet - {id};
      } else {
        newSet := newSet + {id};
      }
      expandedCategories := newSet;
    }

    method OpenEditCard(question: InspirationQuestion)
      modifies this`editingQuestion, this`editCardInput
      ensures editingQuestion == Some(question)
      ensures editCardInput == InitialInput(Get(sessionAnswers, question.id), question.placeholder)
    {
      editingQuestion := Some(question);
      var existingAnswer := Get(sessionAnswers, question.id);
      editCardInput := InitialInput(existingAnswer, question.placeholder);
    }

    /** `updateAnswers`: upsert the answer and return the emitted event. */
    method UpdateAnswers(question: InspirationQuestion, answer: string) returns (emitted: AnsweredQuestion)
      modifies this`sessionAnswers
      ensures sessionAnswers == Set(old(sessionAnswers), question.id, Answer(question.text, answer))
      ensures Get(sessionAnswers, question.id) == Some(Answer(question.text, answer))
      ensures emitted == AnsweredQuestion(question.id, question.text, answer)
    {
      var newMap := Set(sessionAnswers, question.id, Answer(question.text, answer));
      sessionAnswers := newMap;
      emitted := AnsweredQuestion(question.id, question.text, answer);
    }

    /** `quickAdd`: a question not yet answered gets its own text as the answer, added at the end. */
    method QuickAdd(question: InspirationQuestion) returns (emitted: Option<AnsweredQuestion>)
      modifies this`sessionAnswers, this`toastMessage
      ensures question.id in UsedIds(old(sessionAnswers)) ==>
        sessionAnswers == old(sessionAnswers) && toastMessage == old(toastMessage) && emitted.None?
      ensures question.id !in UsedIds(old(sessionAnswers)) ==>
        sessionAnswers == old(sessionAnswers) + [(question.id, Answer(question.text, question.text))] &&
        UsedCount() == old(UsedCount()) + 1 &&
        emitted == Some(AnsweredQuestion(question.id, question.text, question.text)) &&
        toastMessage == I18n.Translate(wf.translations, wf.currentLang, "inspiration.quick_add_toast", [("text", question.text)])
    {
      emitted := None;
      if question.id in UsedIds(sessionAnswers) {
        return;
      }
      SetAppendsNew(sessionAnswers, question.id, Answer(question.text, question.text));
      ghost var before := sessionAnswers;
      var answer := question.text;
      var e := UpdateAnswers(question, answer);
      emitted := Some(e);
      UsedCountIsSize(before);
      UsedCountIsSize(sessionAnswers);
      toastMessage := wf.T("inspiration.quick_add_toast", [("text", question.text)]);
    }

    method CancelEdit()
      modifies this`editingQuestion, this`editingRandom
      ensures editingQuestion.None? && !editingRandom
    {
      editingQuestion := None;
      editingRandom := false;
    }

    /** `confirmEdit`: a non-blank input is stored trimmed and the card closes. */
    method ConfirmEdit() returns (emitted: Option<AnsweredQuestion>)
      modifies this`sessionAnswers, this`editingQuestion, this`editingRandom
      ensures old(editingQuestion).None? || IsBlank(editCardInput) ==>
        sessionAnswers == old(sessionAnswers) && editingQuestion == old(editingQuestion) &&
        editingRandom == old(editingRandom) && emitted.None?
      ensures old(editingQuestion).Some? && !IsBlank(editCardInput) ==>
        var q := old(editingQuestion).value;
        sessionAnswers == Set(old(sessionAnswers), q.id, Answer(q.text, Trim(editCardInput))) &&
        editingQuestion.None? && !editingRandom &&
        emitted == Some(AnsweredQuestion(q.id, q.text, Trim(editCardInput)))
    {
      emitted := None;
      var question := editingQuestion;
      if question.None? || Trim(editCardInput) == "" {
        return;
      }
      var e := UpdateAnswers(question.value, Trim(editCardInput));
      emitted := Some(e);
      CancelEdit();
    }

    /**
     * `selectRandom`: open the card on the pool question `choice` picks. With
     * an empty library the pick is undefined and opening the card throws
     * (`raised`) after the card state has been cleared.
     */
    method SelectRandom(choice: nat) returns (raised: bool)
      modifies this`editingRandom, this`editingQuestion, this`editCardInput
      ensures editingRandom
      ensures var pool := RandomPool(wf.inspirationCategories, UsedIds(sessionAnswers));
        if pool == [] then
          raised && editingQuestion.None? && editCardInput == old(editCardInput)
        else
          var q := pool[choice % |pool|];
          !raised && editingQuestion == Some(q) &&
          editCardInput == InitialInput(Get(sessionAnswers, q.id), q.placeholder)
    {
      var pool := RandomPool(wf.inspirationCategories, UsedIds(sessionAnswers));
      editingRandom := true;
      if pool == [] {
        editingQuestion := None;
        return true;
      }
      var randomQ := pool[choice % |pool|];
      OpenEditCard(randomQ);
      raised := false;
    }

    /**
     * `fetchAIQuestions`: ask the service for a fresh batch; on success the
     * first category opens when it is a generated one, on failure a toast
     * says the service is unavailable.
     */
    method FetchAIQuestions(reply: Gemini.Reply<Option<seq<InspirationCategory>>>)
      modifies wf`inspirationCategories, this`expandedCategories, this`toastMessage, this`isFetchingAIQuestions
      ensures reply.CallFailed? ==>
        wf.inspirationCategories == old(wf.inspirationCategories) && expandedCategories == old(expandedCategories) &&
        toastMessage == wf.Text("inspiration.error.unavailable")
      ensures !reply.CallFailed? ==>
        wf.inspirationCategories ==
          Library.MergeAIBatch(Gemini.InspirationQuestionsFrom(reply).value, old(wf.inspirationCategories)) &&
        toastMessage == old(toastMessage) &&
        (if |wf.inspirationCategories| > 0 && Library.IsAiGenerated(wf.inspirationCategories[0])
         then expandedCategories == old(expandedCategories) + {wf.inspirationCategories[0].id}
         else expandedCategories == old(expandedCategories))
      ensures !isFetchingAIQuestions
    {
      isFetchingAIQuestions := true;
      var ok := wf.AddAIInspirationCategories(reply);
      if ok {
        var categories := wf.inspirationCategories;
        if |categories| > 0 && IsPrefix("ai-gen", categories[0].id) {
          expandedCategories := expandedCategories + {categories[0].id};
        }
      } else {
        toastMessage := wf.T("inspiration.error.unavailable", []);
      }
      isFetchingAIQuestions := false;
    }

    /** `remixLibrary`: remix the whole library through the service and say how it went. */
    method RemixLibrary(reply: Gemini.Reply<Option<seq<InspirationCategory>>>)
      modifies wf`inspirationCategories, this`toastMessage, this`isRemixing
      ensures reply.CallFailed? ==>
        wf.inspirationCategories == old(wf.inspirationCategories) && toastMessage == wf.Text("inspiration.error.unavailable")
      ensures !reply.CallFailed? ==>
        wf.inspirationCategories == Gemini.RemixInspirationFrom(reply, old(wf.inspirationCategories)).value &&
        toastMessage == wf.Text("inspiration.remix_success_toast")
      ensures !isRemixing
    {
      isRemixing := true;
      var ok := wf.RemixInspirationLibrary(reply);
      if ok {
        toastMessage := wf.T("inspiration.remix_success_toast", []);
      } else {
        toastMessage := wf.T("inspiration.error.unavailable", []);
      }
      isRemixing := false;
    }

    /** `resetLibrary`, with the user's answer to the confirmation as input. */
    method ResetLibrary(confirmed: bool)
      modifies wf`inspirationCategories
      ensures confirmed ==> wf.inspirationCategories == wf.initialInspiration
      ensures !confirmed ==> wf.inspirationCategories == old(wf.inspirationCategories)
    {
      if confirmed {
        wf.ResetInspirationLibrary();
      }
    }
  }
}
