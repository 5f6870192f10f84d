/**
 * The script's driver loop: each (code, fields) package is dispatched and its
 * report produced in order. An exception ends the script, so the reports
 * produced so far are all there is. Printing is not modelled: the loop
 * collects the report records instead.
 */
module Script {
  import opened Wrappers
  import opened Homework
  import opened HomeworkProperties

  method RunPackages(packages: seq<(string, seq<real>)>) returns (reports: seq<InfoMessage>, failure: Option<Error>)
    ensures |reports| <= |packages|
    ensures failure.None? ==> |reports| == |packages|
    ensures forall i :: 0 <= i < |reports| ==>
              ReadPackage(packages[i].0, packages[i].1).Ok? &&
              reports[i] == ShowTrainingInfo(ReadPackage(packages[i].0, packages[i].1).value)
    ensures failure.Some? ==>
              |reports| < |packages| &&
              ReadPackage(packages[|reports|].0, packages[|reports|].1) == Err(failure.value)
  {
    reports, failure := [], None;
    var i := 0;
    while i < |packages|
      invariant i == |reports| <= |packages|
      invariant forall k :: 0 <= k < i ==>
                  ReadPackage(packages[k].0, packages[k].1).Ok? &&
                  reports[k] == ShowTrainingInfo(ReadPackage(packages[k].0, packages[k].1).value)
    {
      var (workoutType, data) := packages[i];
      var training := ReadPackage(workoutType, data);
      if training.Err? {
        failure := Some(training.error);
        return;
      }
      reports := reports + [ShowTrainingInfo(training.value)];
      i := i + 1;
    }
  }

  /** The script's own package list: every package is reported, in order, with the values of the example lemmas. */
  method RunScriptPackages() returns (reports: seq<InfoMessage>, failure: Option<Error>)
    ensures failure.None?
    ensures reports == [InfoMessage("Swimming", 1.0, 0.9936, 1.0, 336.0),
                        InfoMessage("Running", 1.0, 9.75, 9.75, 797.805),
                        InfoMessage("SportsWalking", 1.0, 5.85, 5.85, 349.251747525)]
  {
    var packages := [("SWM", [720.0, 1.0, 80.0, 25.0, 40.0]),
                     ("RUN", [15000.0, 1.0, 75.0]),
                     ("WLK", [9000.0, 1.0, 75.0, 180.0])];
    SwimmingPackageExample();
    RunningPackageExample();
    WalkingPackageExample();
    reports, failure := RunPackages(packages);
  }
}
