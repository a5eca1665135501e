/** The bookkeeping rules of the back end's request handlers, without the HTTP
    routing and the database: the marks of a new subject, the what-if
    simulation, the average compliance, the partial task update, the completion
    toggle, the pass/fail of a submission and the leaderboard numbering. What a
    handler reads from the database is a parameter (None when nothing matched),
    and so are the identifiers it draws from uuid4. */
module Server {
  import opened Models
  import opened Grading
  import AiServices
  import Mock

  // ---------------------------------------------------------------------------
  // Subjects
  // ---------------------------------------------------------------------------

  /** Every component that is not pending has a positive maximum. These are the
      only maxima `create_subject` divides by: a pending component's `total` is
      never read. */
  predicate GradedTotalsPositive(comps: seq<Component>) {
    forall i :: 0 <= i < |comps| && !comps[i].pending ==> comps[i].total > 0.0
  }

  /** The components that count towards a new subject's marks: the ones that
      are not pending, in their order. */
  function Graded(comps: seq<Component>): (r: seq<Component>)
    ensures |r| <= |comps|
    ensures GradedTotalsPositive(comps) ==> WellFormed(r)
  {
    if comps == [] then []
    else
      var last := comps[|comps| - 1];
      Graded(comps[..|comps| - 1]) + (if last.pending then [] else [last])
  }

  /** The graded components are exactly the components that are not pending. */
  lemma {:induction false} GradedMembers(comps: seq<Component>)
    ensures forall c :: c in Graded(comps) <==> c in comps && !c.pending
  {
    if comps != [] {
      var n := |comps| - 1;
      assert comps == comps[..n] + [comps[n]];
      GradedMembers(comps[..n]);
    }
  }

  /** Grading keeps the order of the components: it distributes over concatenation. */
  lemma {:induction false} GradedAppend(a: seq<Component>, b: seq<Component>)
    ensures Graded(a + b) == Graded(a) + Graded(b)
  {
    if b == [] {
      assert a + b == a;
    } else {
      var n := |b| - 1;
      assert (a + b)[..|a + b| - 1] == a + b[..n];
      GradedAppend(a, b[..n]);
    }
  }

  /** With nothing pending, every component is graded, in order. */
  lemma {:induction false} NothingPendingAllGraded(comps: seq<Component>)
    requires forall i :: 0 <= i < |comps| ==> !comps[i].pending
    ensures Graded(comps) == comps
  {
    if comps != [] {
      var n := |comps| - 1;
      NothingPendingAllGraded(comps[..n]);
      assert comps[..n] + [comps[n]] == comps;
    }
  }

  /** One more component either joins the graded ones, adding its recorded
      score's share and its weight to the sums, or is skipped. */
  lemma GradedStep(comps: seq<Component>, i: nat)
    requires GradedTotalsPositive(comps) && i < |comps|
    ensures WellFormed(Graded(comps[..i])) && WellFormed(Graded(comps[..i + 1]))
    ensures WeightedScore(Graded(comps[..i + 1]), map[]) == WeightedScore(Graded(comps[..i]), map[])
      + (if comps[i].pending then 0.0 else Contribution(comps[i], map[]))
    ensures TotalWeight(Graded(comps[..i + 1])) == TotalWeight(Graded(comps[..i]))
      + (if comps[i].pending then 0.0 else comps[i].weight)
  {
    assert comps[..i + 1][..i] == comps[..i];
    assert GradedTotalsPositive(comps[..i]) && GradedTotalsPositive(comps[..i + 1]);
    var g := Graded(comps[..i]);
    if !comps[i].pending {
      SumsAppend(g, map[], comps[i]);
    } else {
      assert g + [] == g;
    }
  }

  /** With every component pending, nothing is graded. */
  lemma {:induction false} AllPendingNothingGraded(comps: seq<Component>)
    requires forall i :: 0 <= i < |comps| ==> comps[i].pending
    ensures Graded(comps) == []
  {
    if comps != [] {
      AllPendingNothingGraded(comps[..|comps| - 1]);
    }
  }

  /** The marks `create_subject` records: the weighted average of the
      components that are not pending, with their recorded scores, and 0 when
      they carry no weight, in particular when every component is pending. */
  function CurrentMarks(comps: seq<Component>): (marks: real)
    requires GradedTotalsPositive(comps)
    ensures TotalWeight(Graded(comps)) > 0.0 ==>
      marks * TotalWeight(Graded(comps)) == WeightedScore(Graded(comps), map[]) * 100.0
    ensures TotalWeight(Graded(comps)) <= 0.0 ==> marks == 0.0
    ensures (forall i :: 0 <= i < |comps| ==> comps[i].pending) ==> marks == 0.0
  {
    var graded := Graded(comps);
    var weighted := WeightedScore(graded, map[]);
    var weight := TotalWeight(graded);
    assert (forall i :: 0 <= i < |comps| ==> comps[i].pending) ==> weight == 0.0 by {
      if forall i :: 0 <= i < |comps| ==> comps[i].pending {
        AllPendingNothingGraded(comps);
      }
    }
    Percentage(weighted, weight)
  }

  /** The loop of `create_subject`: one pass over the components accumulating
      the weighted score and the weight of the ones that are not pending. */
  method GradedSums(comps: seq<Component>) returns (totalWeighted: real, totalWeight: real)
    requires GradedTotalsPositive(comps)
    ensures totalWeighted == WeightedScore(Graded(comps), map[])
    ensures totalWeight == TotalWeight(Graded(comps))
  {
    totalWeighted := 0.0;
    totalWeight := 0.0;
    ghost var graded: seq<Component> := [];
    for i := 0 to |comps|
      invariant graded == Graded(comps[..i]) && WellFormed(graded)
      invariant totalWeighted == WeightedScore(graded, map[])
      invariant totalWeight == TotalWeight(graded)
    {
      var comp := comps[i];
      GradedStep(comps, i);
      if !comp.pending {
        // scored / total · weight: with no override, the recorded score's share.
        totalWeighted := totalWeighted + Contribution(comp, map[]);
        totalWeight := totalWeight + comp.weight;
      }
      graded := Graded(comps[..i + 1]);
    }
    assert comps[..|comps|] == comps;
  }

  /** `create_subject`: the graded sums, the guarded ratio, the status chain on
      the compliance (which is the current marks), and the stored record. */
  method CreateSubject(data: SubjectCreate, userId: string, id: string) returns (subject: Subject)
    requires GradedTotalsPositive(data.components)
    ensures subject.currentMarks == CurrentMarks(data.components)
    ensures subject.compliance == subject.currentMarks && subject.status == Tier(subject.compliance)
    ensures subject == Subject(id, userId, data.name, data.code, subject.currentMarks, 100.0,
                               subject.compliance, subject.status, data.components)
  {
    var totalWeighted, totalWeight := GradedSums(data.components);
    var currentMarks := if totalWeight > 0.0 then totalWeighted / totalWeight * 100.0 else 0.0;
    var compliance := currentMarks;
    var status;
    if compliance >= 90.0 {
      status := Excellent;
    } else if compliance >= 85.0 {
      status := OnTrack;
    } else if compliance >= 75.0 {
      status := AtRisk;
    } else {
      status := Critical;
    }
    subject := Subject(id, userId, data.name, data.code, currentMarks, 100.0, compliance, status, data.components);
  }

  /** Changing anything about a pending component leaves the graded components alone. */
  lemma {:induction false} GradedIgnoresPending(comps: seq<Component>, k: nat, c: Component)
    requires k < |comps| && comps[k].pending && c.pending
    ensures Graded(comps[k := c]) == Graded(comps)
  {
    var n := |comps| - 1;
    var changed := comps[k := c];
    if k == n {
      assert changed[..n] == comps[..n];
      assert changed[n].pending && comps[n].pending;
    } else {
      assert changed[..n] == comps[..n][k := c];
      GradedIgnoresPending(comps[..n], k, c);
      assert changed[n] == comps[n];
    }
  }

  /** A pending component's recorded score, maximum and weight do not affect a
      new subject's marks. */
  lemma PendingComponentIgnored(comps: seq<Component>, k: nat, c: Component)
    requires GradedTotalsPositive(comps) && k < |comps| && comps[k].pending && c.pending
    ensures GradedTotalsPositive(comps[k := c])
    ensures CurrentMarks(comps[k := c]) == CurrentMarks(comps)
  {
    GradedIgnoresPending(comps, k, c);
  }

  /** A subject whose components are all pending has no graded component, so
      its marks are 0 and it is Critical. */
  lemma AllPendingIsCritical(comps: seq<Component>)
    requires forall i :: 0 <= i < |comps| ==> comps[i].pending
    ensures Graded(comps) == []
    ensures CurrentMarks(comps) == 0.0 && Tier(CurrentMarks(comps)) == Critical
  {
    AllPendingNothingGraded(comps);
  }

  /** A pending component with maximum 0 is accepted and ignored: a quiz at
      8/10 beside a pending final at 0/0, equally weighted, records 80, At Risk. */
  lemma PendingZeroMaximumAccepted()
    ensures var comps := [Component("Quiz", 8.0, 10.0, 50.0, false), Component("Final", 0.0, 0.0, 50.0, true)];
      GradedTotalsPositive(comps) && CurrentMarks(comps) == 80.0 && Tier(CurrentMarks(comps)) == AtRisk
  {
    var quiz := Component("Quiz", 8.0, 10.0, 50.0, false);
    var comps := [quiz, Component("Final", 0.0, 0.0, 50.0, true)];
    assert comps[..1] == [quiz] && [quiz][..0] == [];
    assert Graded(comps) == [quiz];
    assert WeightedScore([quiz], map[]) == 40.0;
  }

  /** With the recorded scores in range and no negative weight among the
      components that are not pending, a new subject's marks lie in [0, 100];
      pending components may carry anything. */
  lemma CurrentMarksBounds(comps: seq<Component>)
    requires GradedTotalsPositive(comps)
    requires forall i :: 0 <= i < |comps| && !comps[i].pending ==>
      comps[i].weight >= 0.0 && 0.0 <= comps[i].scored <= comps[i].total
    ensures 0.0 <= CurrentMarks(comps) <= 100.0
  {
    var graded := Graded(comps);
    GradedMembers(comps);
    forall i | 0 <= i < |graded|
      ensures graded[i].weight >= 0.0 && 0.0 <= EffectiveScore(graded[i], map[]) <= graded[i].total
    {
      assert graded[i] in comps;
    }
    PercentageBounds(graded, map[]);
  }

  /** The reply of `simulate_grade`; NotFound is its 404. */
  datatype Simulation = NotFound | Simulation(predictedGrade: real, compliance: real, status: Status)

  /** `simulate_grade`: every component counts, each with
      `simulated_scores.get(name, scored)`; the ratio is guarded by a positive
      total weight, and the status chain runs on the predicted grade. */
  method SimulateGrade(stored: Option<Subject>, sims: map<string, real>) returns (r: Simulation)
    requires stored.Some? ==> WellFormed(stored.value.components)
    ensures r.NotFound? <==> stored.None?
    ensures r.Simulation? ==>
      var comps := stored.value.components;
      r.predictedGrade == Percentage(WeightedScore(comps, sims), TotalWeight(comps))
      && r.compliance == r.predictedGrade && r.status == Tier(r.predictedGrade)
  {
    if stored.None? {
      return NotFound;
    }
    var comps := stored.value.components;
    var totalWeighted := 0.0;
    var totalWeight := 0.0;
    for i := 0 to |comps|
      invariant WellFormed(comps[..i])
      invariant totalWeighted == WeightedScore(comps[..i], sims)
      invariant totalWeight == TotalWeight(comps[..i])
    {
      var comp := comps[i];
      var score := if comp.name in sims then sims[comp.name] else comp.scored;
      assert comps[..i + 1][..i] == comps[..i];
      totalWeighted := totalWeighted + score / comp.total * comp.weight;
      totalWeight := totalWeight + comp.weight;
    }
    assert comps[..|comps|] == comps;
    var predicted := if totalWeight > 0.0 then totalWeighted / totalWeight * 100.0 else 0.0;
    var status;
    if predicted >= 90.0 {
      status := Excellent;
    } else if predicted >= 85.0 {
      status := OnTrack;
    } else if predicted >= 75.0 {
      status := AtRisk;
    } else {
      status := Critical;
    }
    r := Simulation(predicted, predicted, status);
  }

  // ---------------------------------------------------------------------------
  // User statistics
  // ---------------------------------------------------------------------------

  /** Σ `s.get("compliance", 0)` over the subjects. */
  function ComplianceSum(subjects: seq<SubjectDocument>): real {
    if subjects == [] then 0.0
    else ComplianceSum(subjects[..|subjects| - 1]) + subjects[|subjects| - 1].compliance.GetOr(0.0)
  }

  /** The average compliance of `get_user_stats`: the mean of the stored
      compliances (a missing one counting as 0), and 0 when there is no subject. */
  function AverageCompliance(subjects: seq<SubjectDocument>): (avg: real)
    ensures subjects == [] ==> avg == 0.0
    ensures subjects != [] ==> avg * (|subjects| as real) == ComplianceSum(subjects)
  {
    if subjects == [] then 0.0 else ComplianceSum(subjects) / (|subjects| as real)
  }

  /** Every stored compliance (or its default of 0) lies in [0, 100]. */
  predicate CompliancesInRange(subjects: seq<SubjectDocument>) {
    forall i :: 0 <= i < |subjects| ==> 0.0 <= subjects[i].compliance.GetOr(0.0) <= 100.0
  }

  lemma {:induction false} ComplianceSumBounds(subjects: seq<SubjectDocument>)
    requires CompliancesInRange(subjects)
    ensures 0.0 <= ComplianceSum(subjects) <= 100.0 * (|subjects| as real)
  {
    if subjects != [] {
      var init := subjects[..|subjects| - 1];
      assert CompliancesInRange(init) by {
        forall i | 0 <= i < |init| ensures init[i] == subjects[i] { }
      }
      ComplianceSumBounds(init);
    }
  }

  /** The average of compliances in [0, 100] lies in [0, 100]. */
  lemma AverageComplianceBounds(subjects: seq<SubjectDocument>)
    requires CompliancesInRange(subjects)
    ensures 0.0 <= AverageCompliance(subjects) <= 100.0
  {
    ComplianceSumBounds(subjects);
    if subjects != [] {
      var n := |subjects| as real;
      var avg := AverageCompliance(subjects);
      assert avg * n <= 100.0 * n;
    }
  }

  /** Subjects that all carry the same compliance average to it. */
  lemma {:induction false} UniformComplianceSum(subjects: seq<SubjectDocument>, c: real)
    requires forall i :: 0 <= i < |subjects| ==> subjects[i].compliance == Some(c)
    ensures ComplianceSum(subjects) == c * (|subjects| as real)
  {
    if subjects != [] {
      var init := subjects[..|subjects| - 1];
      UniformComplianceSum(init, c);
    }
  }

  lemma UniformComplianceAverage(subjects: seq<SubjectDocument>, c: real)
    requires subjects != []
    requires forall i :: 0 <= i < |subjects| ==> subjects[i].compliance == Some(c)
    ensures AverageCompliance(subjects) == c
  {
    UniformComplianceSum(subjects, c);
  }

  // ---------------------------------------------------------------------------
  // Tasks
  // ---------------------------------------------------------------------------

  /** The fields a task update may carry, by their stored names. */
  const UpdatableFields: set<string> := {"title", "subject", "due_date", "priority", "urgency", "completed"}

  /** `task_update.dict()`: every updatable field under its stored name, None
      where the update leaves it out. */
  function AsDict(u: TaskUpdate): (d: map<string, Option<FieldValue>>)
    ensures d.Keys == UpdatableFields
    ensures d["title"].None? <==> u.title.None?
    ensures d["subject"].None? <==> u.subject.None?
    ensures d["due_date"].None? <==> u.dueDate.None?
    ensures d["priority"].None? <==> u.priority.None?
    ensures d["urgency"].None? <==> u.urgency.None?
    ensures d["completed"].None? <==> u.completed.None?
  {
    map[
      "title" := (if u.title.Some? then Some(Text(u.title.value)) else None),
      "subject" := (if u.subject.Some? then Some(Text(u.subject.value)) else None),
      "due_date" := (if u.dueDate.Some? then Some(Date(u.dueDate.value)) else None),
      "priority" := (if u.priority.Some? then Some(Level(u.priority.value)) else None),
      "urgency" := (if u.urgency.Some? then Some(Number(u.urgency.value)) else None),
      "completed" := (if u.completed.Some? then Some(Flag(u.completed.value)) else None)
    ]
  }

  /** `{k: v for k, v in task_update.dict().items() if v is not None}`: exactly
      the fields that the update sets, each with its new value; a `completed`
      of false is a value and is kept. */
  function UpdateData(u: TaskUpdate): (data: map<string, FieldValue>)
    ensures data.Keys <= UpdatableFields
    ensures "title" in data <==> u.title.Some?
    ensures "subject" in data <==> u.subject.Some?
    ensures "due_date" in data <==> u.dueDate.Some?
    ensures "priority" in data <==> u.priority.Some?
    ensures "urgency" in data <==> u.urgency.Some?
    ensures "completed" in data <==> u.completed.Some?
    ensures u.title.Some? ==> data["title"] == Text(u.title.value)
    ensures u.subject.Some? ==> data["subject"] == Text(u.subject.value)
    ensures u.dueDate.Some? ==> data["due_date"] == Date(u.dueDate.value)
    ensures u.priority.Some? ==> data["priority"] == Level(u.priority.value)
    ensures u.urgency.Some? ==> data["urgency"] == Number(u.urgency.value)
    ensures u.completed.Some? ==> data["completed"] == Flag(u.completed.value)
  {
    var dict := AsDict(u);
    assert dict.Keys == UpdatableFields;
    map k | k in dict && dict[k].Some? :: dict[k].value
  }

  /** `update_task`: the stored task with the set fields overwritten (`$set`);
      None is its 404. */
  function UpdateTask(stored: Option<TaskDocument>, u: TaskUpdate): (r: Option<TaskDocument>)
    ensures r.None? <==> stored.None?
    ensures r.Some? ==> r.value.Keys == stored.value.Keys + UpdateData(u).Keys
    ensures r.Some? ==> forall k :: k in UpdateData(u) ==> r.value[k] == UpdateData(u)[k]
    ensures r.Some? ==> forall k :: k in stored.value && k !in UpdateData(u) ==> r.value[k] == stored.value[k]
  {
    if stored.None? then None else Some(stored.value + UpdateData(u))
  }

  /** Applying the same update twice is the same as applying it once. */
  lemma UpdateIdempotent(doc: TaskDocument, u: TaskUpdate)
    ensures UpdateTask(UpdateTask(Some(doc), u), u) == UpdateTask(Some(doc), u)
  {
    var once := doc + UpdateData(u);
    assert once + UpdateData(u) == once;
  }

  /** An empty update leaves the stored task exactly as it was. */
  lemma EmptyUpdateChangesNothing(doc: TaskDocument)
    ensures UpdateTask(Some(doc), TaskUpdate(None, None, None, None, None, None)) == Some(doc)
  {
    assert UpdateData(TaskUpdate(None, None, None, None, None, None)) == map[];
    assert doc + map[] == doc;
  }

  /** Python truthiness of a stored value. */
  predicate Truthy(v: FieldValue): (t: bool)
    ensures v.Flag? ==> (t <==> v.flag)
    ensures !t <==> v == Text("") || v == Number(0) || v == Flag(false)
  {
    match v
    case Text(s) => s != ""
    case Date(_) => true
    case Level(_) => true
    case Number(n) => n != 0
    case Flag(b) => b
  }

  /** The reply of `toggle_task`; NotFound is its 404. */
  datatype Toggle = TaskNotFound | Toggled(task: TaskDocument, completed: bool)

  /** `toggle_task`: stores and returns `not task.get("completed", False)`. */
  function ToggleTask(stored: Option<TaskDocument>): (r: Toggle)
    ensures r.TaskNotFound? <==> stored.None?
    ensures r.Toggled? ==> r.task == stored.value["completed" := Flag(r.completed)]
    ensures r.Toggled? ==>
      (r.completed <==> "completed" !in stored.value || !Truthy(stored.value["completed"]))
  {
    if stored.None? then TaskNotFound
    else
      var task := stored.value;
      var newStatus := !("completed" in task && Truthy(task["completed"]));
      Toggled(task["completed" := Flag(newStatus)], newStatus)
  }

  /** A task stored without a completion flag becomes completed. */
  lemma ToggleMissingFlag(doc: TaskDocument)
    requires "completed" !in doc
    ensures ToggleTask(Some(doc)) == Toggled(doc["completed" := Flag(true)], true)
  {
  }

  /** Toggling twice gives back a task whose flag was stored as a boolean. */
  lemma ToggleTwiceRestores(doc: TaskDocument)
    requires "completed" in doc && doc["completed"].Flag?
    ensures ToggleTask(Some(ToggleTask(Some(doc)).task)) == Toggled(doc, doc["completed"].flag)
  {
    var once := ToggleTask(Some(doc));
    assert once.task["completed" := Flag(doc["completed"].flag)] == doc;
  }

  // ---------------------------------------------------------------------------
  // Submissions
  // ---------------------------------------------------------------------------

  /** The status of a submission: "passed" exactly when every test passed. */
  function SubmissionStatus(results: seq<TestResult>): (status: string)
    ensures status == "passed" <==> forall i :: 0 <= i < |results| ==> results[i].passed
    ensures status == "passed" || status == "failed"
  {
    if AiServices.PassedCount(results) == |results| then "passed" else "failed"
  }

  /** With the fixed mock results, every submission fails with 2 of 3 tests passed. */
  lemma MockSubmissionFails()
    ensures AiServices.PassedCount(Mock.SubmissionResults) == 2
    ensures SubmissionStatus(Mock.SubmissionResults) == "failed"
  {
    var rs := Mock.SubmissionResults;
    assert rs[..2][..1] == rs[..1] && rs[..1][..0] == [];
    assert rs[..|rs| - 1] == rs[..2];
    assert !rs[2].passed;
  }

  // ---------------------------------------------------------------------------
  // Leaderboard
  // ---------------------------------------------------------------------------

  /** A stored submission, as far as the leaderboard's count looks at it. */
  datatype SubmissionRecord = SubmissionRecord(userId: string, status: string)

  /** The number of a user's submissions whose status is "passed". */
  function SolvedCount(submissions: seq<SubmissionRecord>, userId: string): (n: nat)
    ensures n <= |submissions|
  {
    if submissions == [] then 0
    else
      var last := submissions[|submissions| - 1];
      SolvedCount(submissions[..|submissions| - 1], userId) + (if last.userId == userId && last.status == "passed" then 1 else 0)
  }

  predicate UniqueUserIds(users: seq<User>) {
    forall i, j :: 0 <= i < j < |users| ==> users[i].id != users[j].id
  }

  /** `get_leaderboard` over the users the query returned: one entry per user,
      ranked 1, 2, … in that order, with the user's solved count and a flag on
      the requesting user's own entry (only one when ids are unique). */
  method Leaderboard(users: seq<User>, submissions: seq<SubmissionRecord>, userId: string)
    returns (board: seq<LeaderboardEntry>)
    ensures |board| == |users|
    ensures forall i :: 0 <= i < |users| ==> board[i].rank == i + 1
    ensures forall i :: 0 <= i < |users| ==>
      board[i] == LeaderboardEntry(i + 1, users[i].name, users[i].points,
                                   SolvedCount(submissions, users[i].id), users[i].avatar, users[i].id == userId)
    ensures UniqueUserIds(users) ==>
      forall i, j :: 0 <= i < j < |board| && board[i].isCurrentUser ==> !board[j].isCurrentUser
  {
    board := [];
    var rank := 1;
    for k := 0 to |users|
      invariant |board| == k && rank == k + 1
      invariant forall i :: 0 <= i < k ==>
        board[i] == LeaderboardEntry(i + 1, users[i].name, users[i].points,
                                     SolvedCount(submissions, users[i].id), users[i].avatar, users[i].id == userId)
    {
      var user := users[k];
      var solved := SolvedCount(submissions, user.id);
      board := board + [LeaderboardEntry(rank, user.name, user.points, solved, user.avatar, user.id == userId)];
      rank := rank + 1;
    }
  }
}
