/** The records and the enumeration of `types.ts`. */
module Types {
  import opened Wrappers

  /** The closed set of cost categories an impact card may name. */
  datatype Category = Salary | Fuel | Food | Business | Digital | Other

  /** One "reality check" card of the breakdown screen. */
  datatype ImpactCard = ImpactCard(title: string, description: string, icon: string, category: Category)

  /**
   * One multiple-choice question. Nothing in the type ties `correctIndex`
   * to `options`; see `WellFormed`.
   */
  datatype QuizQuestion = QuizQuestion(question: string, options: seq<string>, correctIndex: int, explanation: string)

  /** The structured analysis the language model returns for one bill. */
  datatype BillAnalysis = BillAnalysis(
    summary: string,
    detailedSummary: string,
    impactCards: seq<ImpactCard>,
    quiz: seq<QuizQuestion>)

  /** An uploaded document: its base64 payload and its declared MIME type. */
  datatype FileData = FileData(base64: string, mimeType: string)

  /** The screens of the application; `ANALYZING` is declared but never entered. */
  datatype AppState = START | ANALYZING | BREAKDOWN | QUIZ | SUMMARY

  /** The intended, but unchecked, relation between a question's answer and its options. */
  predicate WellFormed(q: QuizQuestion) {
    0 <= q.correctIndex < |q.options|
  }

  /** Picking option `i` answers `q` correctly: an exact match with `correctIndex`. */
  predicate IsCorrect(q: QuizQuestion, i: int) {
    i == q.correctIndex
  }

  /** A question whose `correctIndex` lies outside its options can never be answered correctly. */
  lemma IllFormedNeverScores(q: QuizQuestion, i: int)
    requires !WellFormed(q) && 0 <= i < |q.options|
    ensures !IsCorrect(q, i)
  {
  }

  /** The string each category stands for in the TypeScript union type. */
  function CategoryName(c: Category): string {
    match c
    case Salary => "Salary"
    case Fuel => "Fuel"
    case Food => "Food"
    case Business => "Business"
    case Digital => "Digital"
    case Other => "Other"
  }

  /** The category a string denotes, if any; every other string lies outside the union type. */
  function ParseCategory(s: string): (r: Option<Category>)
    ensures r.Some? ==> CategoryName(r.value) == s
  {
    if s == "Salary" then Some(Salary)
    else if s == "Fuel" then Some(Fuel)
    else if s == "Food" then Some(Food)
    else if s == "Business" then Some(Business)
    else if s == "Digital" then Some(Digital)
    else if s == "Other" then Some(Other)
    else None
  }

  /** The names of the categories are distinct, and each is read back as its category. */
  lemma CategoryRoundTrip(c: Category)
    ensures ParseCategory(CategoryName(c)) == Some(c)
  {
  }
}
