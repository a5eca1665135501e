/** The records that the TacticalGrade back end declares and that its front end
    carries as mock data. Timestamps are integers (milliseconds); identifiers that
    the back end draws from uuid4 are passed in by the caller. */
module Models {

  datatype Option<+T> = None | Some(value: T) {
    function GetOr(default: T): T {
      match this
      case Some(v) => v
      case None => default
    }
  }

  /** One graded item of a subject: a quiz, an assignment or an exam. */
  datatype Component = Component(name: string, scored: real, total: real, weight: real, pending: bool)

  /** The compliance tier of a subject. */
  datatype Status = Excellent | OnTrack | AtRisk | Critical

  datatype Priority = High | Medium | Low

  /** A stored subject with its computed marks, compliance and tier. */
  datatype Subject = Subject(
    id: string, userId: string, name: string, code: string,
    currentMarks: real, totalMarks: real, compliance: real, status: Status,
    components: seq<Component>)

  /** The body of a request that creates a subject. */
  datatype SubjectCreate = SubjectCreate(name: string, code: string, components: seq<Component>)

  /** A subject document as read back from the database: any key may be missing. */
  datatype SubjectDocument = SubjectDocument(
    name: Option<string>, compliance: Option<real>, components: Option<seq<Component>>)

  /** A partial update of a task: None means "leave this field alone". */
  datatype TaskUpdate = TaskUpdate(
    title: Option<string>, subject: Option<string>, dueDate: Option<int>,
    priority: Option<Priority>, urgency: Option<int>, completed: Option<bool>)

  /** A value stored in one field of a task document. */
  datatype FieldValue = Text(text: string) | Date(millis: int) | Level(level: Priority) | Number(number: int) | Flag(flag: bool)

  /** A task document: field name to stored value. */
  type TaskDocument = map<string, FieldValue>

  /** A user as the leaderboard query returns it. */
  datatype User = User(id: string, name: string, avatar: string, points: int)

  datatype LeaderboardEntry = LeaderboardEntry(
    rank: int, name: string, points: int, solved: nat, avatar: string, isCurrentUser: bool)

  /** The outcome of one test case of a coding submission. */
  datatype TestResult = TestResult(testCase: int, passed: bool, expected: string, actual: string)

  /** A badge as the dashboard shows it: whether the user earned it, and its rarity. */
  datatype Badge = Badge(id: string, name: string, icon: string, earned: bool, rarity: string, description: string)

  datatype TacticalInsight = TacticalInsight(kind: string, subject: string, message: string, priority: string)

  /** A JSON object whose values are kept as their JSON text. */
  type Dict = map<string, string>

  datatype ScreenshotAnalysisResult = ScreenshotAnalysisResult(subjects: seq<Dict>, tacticalMoves: seq<string>)
}
