/** The fixed weekly targets, as one explicit configuration value. */
module TargetsConfig {

  datatype WeeklyTargets = WeeklyTargets(prMerged: nat, featuresCompleted: nat, bugFixRatio: real, testsWritten: nat)

  /** Three merged pull requests, one completed feature, a bug-fix ratio of
      one and five test commits per week. */
  const WeeklyTargetsConfig := WeeklyTargets(3, 1, 1.0, 5)
}
