/** The front end's mock subjects and test results, used as concrete example
    vectors by the lemmas of the other modules. */
module Mock {
  import opened Models

  /** The "Data Structures" (CS301) components: two pending, weights summing to 100. */
  const DataStructures: seq<Component> := [
    Component("Quiz 1", 18.0, 20.0, 15.0, false),
    Component("Assignment 1", 28.0, 30.0, 20.0, false),
    Component("Mid Term", 32.0, 50.0, 30.0, false),
    Component("Quiz 2", 0.0, 20.0, 15.0, true),
    Component("Final Exam", 0.0, 80.0, 20.0, true)
  ]

  /** The "Machine Learning" (CS402) components. */
  const MachineLearning: seq<Component> := [
    Component("Assignment 1", 22.0, 25.0, 20.0, false),
    Component("Project Phase 1", 35.0, 40.0, 30.0, false),
    Component("Quiz 1", 15.0, 20.0, 15.0, false),
    Component("Project Phase 2", 0.0, 40.0, 25.0, true),
    Component("Final Exam", 0.0, 75.0, 10.0, true)
  ]

  /** The three test results that every coding submission is graded with. */
  const SubmissionResults: seq<TestResult> := [
    TestResult(1, true, "output1", "output1"),
    TestResult(2, true, "output2", "output2"),
    TestResult(3, false, "output3", "wrong_output")
  ]

  /** The six badges of the dashboard, four of them earned. */
  const Badges: seq<Badge> := [
    Badge("1", "First Blood", "trophy", true, "legendary", "First 90% score"),
    Badge("2", "Compliance Champion", "shield", true, "epic", "30-day compliance streak"),
    Badge("3", "Code Warrior", "code", true, "rare", "Solved 50 coding challenges"),
    Badge("4", "Perfect Score", "star", false, "legendary", "Achieve 100% in any subject"),
    Badge("5", "Night Owl", "moon", true, "common", "Study session after midnight"),
    Badge("6", "Tactical Master", "target", false, "epic", "Predict grade within 2%")
  ]
}
