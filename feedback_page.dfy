/**
 * The feedback page: fourteen survey questions answered in place, a toggled list of favourite
 * foods, and the feedback record the page submits before it clears the survey. The question
 * wording is display text and is not part of this model; each question is known by its id.
 */
module FeedbackPage {
  import opened Wrappers
  import opened Collections
  import opened Strings
  import opened Types
  import opened Stars

  datatype QuestionKind = RatingKind | YesNoKind | TextKind

  /** A question's value, `string | number`. */
  datatype Answer = Num(n: int) | Str(s: string)

  datatype SurveyQuestion = SurveyQuestion(id: string, kind: QuestionKind, value: Answer)

  /** The fourteen questions of the survey, in the order the page lists them. */
  datatype Key =
    | FoodQualityRating | FoodQualityComment | ServiceRating | ServiceComment
    | AmbienceRating | AmbienceComment | CleanlinessRating | CleanlinessComment
    | ValueForMoneyRating | ValueForMoneyComment | OverallRating | GeneralFeedback
    | Suggestion | Recommend

  const Keys: seq<Key> := [
    FoodQualityRating, FoodQualityComment, ServiceRating, ServiceComment,
    AmbienceRating, AmbienceComment, CleanlinessRating, CleanlinessComment,
    ValueForMoneyRating, ValueForMoneyComment, OverallRating, GeneralFeedback,
    Suggestion, Recommend]

  /** The position of a question in `Keys`. */
  function Position(k: Key): (i: nat)
    ensures i < |Keys| && Keys[i] == k
  {
    match k
    case FoodQualityRating => 0
    case FoodQualityComment => 1
    case ServiceRating => 2
    case ServiceComment => 3
    case AmbienceRating => 4
    case AmbienceComment => 5
    case CleanlinessRating => 6
    case CleanlinessComment => 7
    case ValueForMoneyRating => 8
    case ValueForMoneyComment => 9
    case OverallRating => 10
    case GeneralFeedback => 11
    case Suggestion => 12
    case Recommend => 13
  }

  function KeyId(k: Key): string {
    match k
    case FoodQualityRating => "foodQualityRating"
    case FoodQualityComment => "foodQualityComment"
    case ServiceRating => "serviceRating"
    case ServiceComment => "serviceComment"
    case AmbienceRating => "ambienceRating"
    case AmbienceComment => "ambienceComment"
    case CleanlinessRating => "cleanlinessRating"
    case CleanlinessComment => "cleanlinessComment"
    case ValueForMoneyRating => "valueForMoneyRating"
    case ValueForMoneyComment => "valueForMoneyComment"
    case OverallRating => "overallRating"
    case GeneralFeedback => "generalFeedback"
    case Suggestion => "suggestion"
    case Recommend => "recommend"
  }

  function KeyKind(k: Key): QuestionKind {
    match k
    case FoodQualityRating | ServiceRating | AmbienceRating | CleanlinessRating
      | ValueForMoneyRating | OverallRating => RatingKind
    case Recommend => YesNoKind
    case _ => TextKind
  }

  /** The empty answer of a kind: 0 for a rating, the empty string otherwise. */
  function EmptyAnswer(kind: QuestionKind): Answer {
    if kind == RatingKind then Num(0) else Str("")
  }

  function InitialQuestion(k: Key): SurveyQuestion {
    SurveyQuestion(KeyId(k), KeyKind(k), EmptyAnswer(KeyKind(k)))
  }

  /** The survey the page starts with: every question unanswered. */
  const InitialQuestions: seq<SurveyQuestion> := MapSeq(Keys, InitialQuestion)

  /** The questions carry the survey's ids and kinds, in the survey's order. */
  predicate Shaped(qs: seq<SurveyQuestion>) {
    |qs| == |Keys| && forall i | 0 <= i < |Keys| :: qs[i].id == KeyId(Keys[i]) && qs[i].kind == KeyKind(Keys[i])
  }

  // ---------------------------------------------------------------- answers

  /** `q => q.id === id ? { ...q, value } : q`. */
  function SetIfId(id: string, value: Answer): SurveyQuestion -> SurveyQuestion {
    (q: SurveyQuestion) => if q.id == id then q.(value := value) else q
  }

  /** `updateQuestionValue`: every question with the id takes the new value. */
  function UpdateQuestionValue(qs: seq<SurveyQuestion>, id: string, value: Answer): (r: seq<SurveyQuestion>)
    ensures |r| == |qs|
    ensures forall i | 0 <= i < |qs| :: r[i].id == qs[i].id && r[i].kind == qs[i].kind
  {
    MapSeq(qs, SetIfId(id, value))
  }

  /** The value of the first question with the id, as `find` would give it. */
  function ValueOf(qs: seq<SurveyQuestion>, id: string): (r: Option<Answer>)
    ensures r.None? <==> forall q | q in qs :: q.id != id
  {
    if qs == [] then None
    else if qs[0].id == id then Some(qs[0].value)
    else ValueOf(qs[1..], id)
  }

  /**
   * After an update, the question with the id answers the new value, and every other id
   * answers what it answered before.
   */
  lemma {:induction false} UpdateThenRead(qs: seq<SurveyQuestion>, id: string, value: Answer, other: string)
    ensures var r := UpdateQuestionValue(qs, id, value);
      && (other == id && ValueOf(qs, id).Some? ==> ValueOf(r, other) == Some(value))
      && (other != id ==> ValueOf(r, other) == ValueOf(qs, other))
  {
    if qs != [] {
      var r := UpdateQuestionValue(qs, id, value);
      assert r[1..] == UpdateQuestionValue(qs[1..], id, value);
      UpdateThenRead(qs[1..], id, value, other);
    }
  }

  /** An update never changes the survey's shape, so the page always holds its fourteen questions. */
  lemma UpdateKeepsShape(qs: seq<SurveyQuestion>, id: string, value: Answer)
    requires Shaped(qs)
    ensures Shaped(UpdateQuestionValue(qs, id, value))
  {
  }

  // ---------------------------------------------------------------- favourite foods

  /** `id => id !== foodId`. */
  function OtherFood(foodId: string): string -> bool {
    id => id != foodId
  }

  /**
   * `toggleFoodSelection`: a selected food is removed, any other is appended. Toggling flips
   * the food's membership and keeps every other food's. Unlike the table selection of the
   * reservation page, the test is `includes`, so the empty id is treated like any other.
   */
  function ToggleFoodSelection(selected: seq<string>, foodId: string): (r: seq<string>)
    ensures foodId in r <==> foodId !in selected
    ensures forall d | d != foodId :: d in r <==> d in selected
  {
    if foodId in selected then
      FilterMembers(selected, OtherFood(foodId));
      Filter(selected, OtherFood(foodId))
    else
      selected + [foodId]
  }

  /** Toggling a food that was not selected, and then toggling it again, restores the list. */
  lemma ToggleFoodTwice(selected: seq<string>, foodId: string)
    requires foodId !in selected
    ensures ToggleFoodSelection(ToggleFoodSelection(selected, foodId), foodId) == selected
  {
    var p := OtherFood(foodId);
    FilterAppend(selected, [foodId], p);
    FilterSingle(foodId, p);
    KeepAll(selected, p);
  }

  /** A list of distinct foods stays distinct under toggling. */
  lemma ToggleFoodDistinct(selected: seq<string>, foodId: string)
    requires NoRepeats(selected)
    ensures NoRepeats(ToggleFoodSelection(selected, foodId))
  {
    if foodId in selected {
      var p := OtherFood(foodId);
      FilterDistinct(selected, p);
      assert ToggleFoodSelection(selected, foodId) == Filter(selected, p);
    } else {
      assert forall i | 0 <= i < |selected| :: selected[i] != foodId;
    }
  }

  /** No element occurs twice. */
  predicate NoRepeats<T(==)>(s: seq<T>) {
    forall i, j | 0 <= i < j < |s| :: s[i] != s[j]
  }

  /** A filter of a list without repeats has no repeats. */
  lemma {:induction false} FilterDistinct<T>(s: seq<T>, p: T -> bool)
    requires NoRepeats(s)
    ensures NoRepeats(Filter(s, p))
  {
    if s != [] {
      var init, last := s[..|s| - 1], s[|s| - 1];
      FilterDistinct(init, p);
      FilterMembers(init, p);
      assert last !in init;
      FilterSnoc(init, last, p);
      assert s == init + [last];
    }
  }

  // ---------------------------------------------------------------- submitting

  /** The feedback record the page submits; the answers are passed on as they stand. */
  datatype FeedbackDto = FeedbackDto(
    userId: string,
    userName: string,
    foodQualityRating: Answer,
    foodQualityComment: Answer,
    serviceRating: Answer,
    serviceComment: Answer,
    ambianceRating: Answer,
    ambianceComment: Answer,
    cleanlinessRating: Answer,
    cleanlinessComment: Answer,
    valueForMoneyRating: Answer,
    valueForMoneyComment: Answer,
    overallRating: Answer,
    generalFeedback: Answer,
    suggestion: Answer,
    recommend: Answer,
    favoriteFoodIds: string)

  /** The field of the record that carries a question's answer. */
  function Field(dto: FeedbackDto, k: Key): Answer {
    match k
    case FoodQualityRating => dto.foodQualityRating
    case FoodQualityComment => dto.foodQualityComment
    case ServiceRating => dto.serviceRating
    case ServiceComment => dto.serviceComment
    case AmbienceRating => dto.ambianceRating
    case AmbienceComment => dto.ambianceComment
    case CleanlinessRating => dto.cleanlinessRating
    case CleanlinessComment => dto.cleanlinessComment
    case ValueForMoneyRating => dto.valueForMoneyRating
    case ValueForMoneyComment => dto.valueForMoneyComment
    case OverallRating => dto.overallRating
    case GeneralFeedback => dto.generalFeedback
    case Suggestion => dto.suggestion
    case Recommend => dto.recommend
  }

  /**
   * The record `handleSubmitFeedback` builds, reading the questions by position: the user's
   * id (`user.id ? user.id : ''` is the id itself) and full name, each field the answer at
   * its key's position, and the favourite foods joined with commas.
   */
  function DtoOf(user: User, qs: seq<SurveyQuestion>, selected: seq<string>): (r: FeedbackDto)
    requires |qs| == |Keys|
    ensures r.userId == user.id && r.userName == user.firstName + " " + user.lastName
    ensures forall k: Key :: Field(r, k) == qs[Position(k)].value
    ensures r.favoriteFoodIds == Join(selected, ",")
  {
    FeedbackDto(
      if user.id != "" then user.id else "", user.firstName + " " + user.lastName,
      qs[0].value, qs[1].value, qs[2].value, qs[3].value, qs[4].value, qs[5].value, qs[6].value,
      qs[7].value, qs[8].value, qs[9].value, qs[10].value, qs[11].value, qs[12].value, qs[13].value,
      Join(selected, ","))
  }

  /**
   * For a survey of the page's shape, every field of the record holds the answer of the
   * question whose id names that field: reading by position reads by id.
   */
  lemma DtoReadsById(user: User, qs: seq<SurveyQuestion>, selected: seq<string>, k: Key)
    requires Shaped(qs)
    ensures Field(DtoOf(user, qs, selected), k) == qs[Position(k)].value
    ensures qs[Position(k)].id == KeyId(k) && qs[Position(k)].kind == KeyKind(k)
  {
  }

  /**
   * The favourite foods travel as one comma-separated string. Splitting it on the commas
   * gives the selection back when something is selected and no id holds a comma; an empty
   * selection travels as the empty string.
   */
  lemma FavoriteFoodsRoundTrip(user: User, qs: seq<SurveyQuestion>, selected: seq<string>)
    requires |qs| == |Keys|
    requires forall id | id in selected :: ',' !in id
    ensures var ids := DtoOf(user, qs, selected).favoriteFoodIds;
      && (selected != [] ==> Split(ids, ',') == selected)
      && (selected == [] ==> ids == "")
  {
    if selected != [] {
      SplitJoin(selected, ',');
    }
  }

  /** `q => ({ ...q, value: q.type === 'rating' ? 0 : '' })`. */
  function ResetQuestion(q: SurveyQuestion): SurveyQuestion {
    q.(value := EmptyAnswer(q.kind))
  }

  /** The survey with every answer cleared: each question keeps its id and kind and gets its kind's empty answer. */
  function Reset(qs: seq<SurveyQuestion>): (r: seq<SurveyQuestion>)
    ensures |r| == |qs|
    ensures forall i | 0 <= i < |qs| :: r[i].id == qs[i].id && r[i].kind == qs[i].kind && r[i].value == EmptyAnswer(qs[i].kind)
  {
    MapSeq(qs, ResetQuestion)
  }

  /**
   * Clearing the answers gives back the survey the page starts with exactly when the
   * questions have the survey's ids and kinds.
   */
  lemma ResetRestoresInitial(qs: seq<SurveyQuestion>)
    ensures Reset(qs) == InitialQuestions <==> Shaped(qs)
  {
    if Shaped(qs) {
      forall i | 0 <= i < |qs| ensures Reset(qs)[i] == InitialQuestions[i] {
      }
    }
    if Reset(qs) == InitialQuestions {
      forall i | 0 <= i < |Keys| ensures qs[i].id == KeyId(Keys[i]) && qs[i].kind == KeyKind(Keys[i]) {
        assert Reset(qs)[i] == InitialQuestions[i];
      }
    }
  }

  /** An answer given before the survey is cleared leaves no trace. */
  lemma ResetForgetsUpdate(qs: seq<SurveyQuestion>, id: string, value: Answer)
    ensures Reset(UpdateQuestionValue(qs, id, value)) == Reset(qs)
  {
    var r := UpdateQuestionValue(qs, id, value);
    assert forall i | 0 <= i < |qs| :: Reset(r)[i] == ResetQuestion(r[i]);
  }

  /** The page's state: the answers, the selected foods, the thank-you flag and the star under the pointer. */
  datatype PageState = PageState(
    questions: seq<SurveyQuestion>,
    selectedTopFoods: seq<string>,
    submitted: bool,
    hoverRatings: map<string, int>)

  const InitialState: PageState := PageState(InitialQuestions, [], false, map[])

  datatype Submission = Submission(request: Option<FeedbackDto>, state: PageState)

  /**
   * `handleSubmitFeedback`: nothing happens without a logged-in user; otherwise the record
   * is sent, the answers are cleared, the selected foods are emptied and the thank-you
   * message shows.
   */
  function HandleSubmitFeedback(user: Option<User>, s: PageState): (r: Submission)
    requires |s.questions| == |Keys|
    ensures user.None? ==> r == Submission(None, s)
    ensures user.Some? ==>
      && r.request == Some(DtoOf(user.value, s.questions, s.selectedTopFoods))
      && r.state.selectedTopFoods == [] && r.state.submitted
      && r.state.hoverRatings == s.hoverRatings
      && (Shaped(s.questions) ==> r.state.questions == InitialQuestions)
  {
    if user.None? then Submission(None, s)
    else
      ResetRestoresInitial(s.questions);
      var dto := DtoOf(user.value, s.questions, s.selectedTopFoods);
      Submission(Some(dto), s.(questions := Reset(s.questions), selectedTopFoods := [], submitted := true))
  }

  /**
   * Nothing checks the answers: submitting the untouched survey sends each question's empty
   * answer, a rating of 0 for every rating question and an empty recommendation, neither of
   * which is a valid answer, and no favourite foods.
   */
  lemma UnansweredSurveySent(user: User, k: Key)
    ensures var dto := HandleSubmitFeedback(Some(user), InitialState).request.value;
      && Field(dto, k) == EmptyAnswer(KeyKind(k))
      && dto.favoriteFoodIds == ""
  {
    InitialShaped();
    DtoReadsById(user, InitialQuestions, [], k);
  }

  /** The survey the page starts with has the survey's shape. */
  lemma InitialShaped()
    ensures Shaped(InitialQuestions)
  {
  }

  // ---------------------------------------------------------------- stars

  /** The rating a question's stars show: the star under the pointer, else the answer. */
  function DisplayRating(hover: map<string, int>, q: SurveyQuestion): (d: int)
    ensures q.id in hover && hover[q.id] != 0 ==> d == hover[q.id]
    ensures (q.id !in hover || hover[q.id] == 0) && q.value.Num? ==> d == q.value.n
    ensures (q.id !in hover || hover[q.id] == 0) && q.value.Str? ==> d == 0
  {
    var current := if q.value.Num? then q.value.n else 0;
    if q.id in hover && hover[q.id] != 0 then hover[q.id] else current
  }

  /** The five stars of a rating question. */
  function QuestionStars(hover: map<string, int>, q: SurveyQuestion): (r: seq<bool>)
    ensures |r| == 5
  {
    StarRow(5, DisplayRating(hover, q))
  }

  /** The pointer leaving a star sets that question's hover entry back to 0. */
  function HoverLeave(s: PageState, id: string): PageState {
    s.(hoverRatings := s.hoverRatings[id := 0])
  }

  /**
   * Clicking star `num` answers `num`; once the pointer has left, exactly the first `num` of
   * the five stars are filled, for a `num` between 1 and 5.
   */
  lemma ClickedStarsShow(s: PageState, i: nat, num: int)
    requires i < |s.questions| && 1 <= num <= 5
    ensures var q := s.questions[i];
      var s' := HoverLeave(s.(questions := UpdateQuestionValue(s.questions, q.id, Num(num))), q.id);
      forall k | 0 <= k < 5 :: QuestionStars(s'.hoverRatings, s'.questions[i])[k] <==> k < num
  {
    StarRowPrefix(5, num);
  }
}
