/**
 * Workout statistics: three formula sets (running, race walking, swimming),
 * the dispatcher that builds a workout from a three-letter code and a list of
 * sensor fields, and the report record a workout produces.
 *
 * Floating-point numbers are modelled as exact reals.
 */
module Homework {
  import opened Wrappers

  // Unit conversions and per-activity constants (class attributes of the Python workout classes).
  const MetersInKm: real := 1000.0     // M_IN_KM
  const MinutesInHour: real := 60.0    // h_to_m
  const CmInM: real := 100.0           // SportsWalking.sm_to_m
  const KmhToMs: real := 0.278         // SportsWalking.kmh_to_ms

  const StepLength: real := 0.65       // Training.LEN_STEP, inherited by Running and SportsWalking
  const StrokeLength: real := 1.38     // Swimming.LEN_STEP, overrides the inherited one

  const RunSpeedMultiplier: real := 18.0   // Running.calories_mean_speed_multiplier
  const RunSpeedShift: real := 1.79        // Running.calories_mean_speed_shift
  const WalkWeightCoef: real := 0.035      // SportsWalking.cof_one
  const WalkSpeedCoef: real := 0.029       // SportsWalking.cof_two
  const SwimSpeedShift: real := 1.1        // Swimming.coef_one
  const SwimMultiplier: real := 2.0        // Swimming.coef_two

  /** The three concrete workout classes. */
  datatype TrainingClass = RunningClass | SportsWalkingClass | SwimmingClass {

    /** The class name, which the report carries as the training type. */
    function Name(): string {
      match this
      case RunningClass => "Running"
      case SportsWalkingClass => "SportsWalking"
      case SwimmingClass => "Swimming"
    }

    /** The sensor code the dispatcher maps to this class. */
    function Code(): string {
      match this
      case RunningClass => "RUN"
      case SportsWalkingClass => "WLK"
      case SwimmingClass => "SWM"
    }

    /** The number of constructor parameters. */
    function Arity(): (n: nat)
      ensures 3 <= n <= 5
    {
      match this
      case RunningClass => 3
      case SportsWalkingClass => 4
      case SwimmingClass => 5
    }

    /** The LEN_STEP class attribute that the inherited get_distance reads. */
    function LenStep(): real {
      if this == SwimmingClass then StrokeLength else StepLength
    }
  }

  /** The constructor arguments of a workout object. */
  datatype Sample =
    | Running(action: real, duration: real, weight: real)
    | SportsWalking(action: real, duration: real, weight: real, height: real)
    | Swimming(action: real, duration: real, weight: real, lengthPool: real, countPool: real)
  {
    function Class(): TrainingClass {
      match this
      case Running(_, _, _) => RunningClass
      case SportsWalking(_, _, _, _) => SportsWalkingClass
      case Swimming(_, _, _, _, _) => SwimmingClass
    }

    /** The arguments in constructor-parameter order. */
    function Fields(): (fs: seq<real>)
      ensures |fs| == Class().Arity()
      ensures fs[0] == action && fs[1] == duration && fs[2] == weight
    {
      match this
      case Running(a, d, w) => [a, d, w]
      case SportsWalking(a, d, w, h) => [a, d, w, h]
      case Swimming(a, d, w, l, c) => [a, d, w, l, c]
    }

    /** No division the constructor performs has a zero divisor. */
    predicate WellDefined() {
      duration != 0.0 && (SportsWalking? ==> height != 0.0)
    }
  }

  /** A constructed workout object: its arguments and the three values its constructor caches. */
  datatype Training = Training(sample: Sample, distance: real, speed: real, calories: real)

  /** The report record. */
  datatype InfoMessage = InfoMessage(trainingType: string, duration: real, distance: real, speed: real, calories: real)

  datatype Error =
    | UnknownCode(code: string)                 // KeyError from the code table
    | WrongFieldCount(expected: nat, given: nat) // TypeError from unpacking the field list
    | ZeroDivision                               // ZeroDivisionError inside a constructor

  /** The dispatcher's code table: each class under its own code. */
  const Codes: map<string, TrainingClass> :=
    map[SwimmingClass.Code() := SwimmingClass,
        RunningClass.Code() := RunningClass,
        SportsWalkingClass.Code() := SportsWalkingClass]

  /** Training.get_distance, in km; the step length is the one of the object's class. */
  function Distance(s: Sample): real {
    s.action * s.Class().LenStep() / MetersInKm
  }

  /** Training.get_mean_speed, and Swimming's override, in km/h. */
  function MeanSpeed(s: Sample): (r: real)
    requires s.duration != 0.0
    ensures !s.Swimming? ==> r * s.duration == Distance(s)
    ensures s.Swimming? ==> r * s.duration * MetersInKm == s.lengthPool * s.countPool
  {
    match s
    case Swimming(_, duration, _, lengthPool, countPool) =>
      lengthPool * countPool / MetersInKm / duration
    case _ => Distance(s) / s.duration
  }

  /**
   * get_spent_calories of each class. `speed` is the cached speed attribute:
   * SportsWalking and Swimming read it, Running recomputes get_mean_speed().
   */
  function SpentCalories(s: Sample, speed: real): real
    requires s.Running? ==> s.duration != 0.0
    requires s.SportsWalking? ==> s.height != 0.0
  {
    match s
    case Running(_, duration, weight) =>
      (RunSpeedMultiplier * MeanSpeed(s) + RunSpeedShift) * weight / MetersInKm
      * (duration * MinutesInHour)
    case SportsWalking(_, duration, weight, height) =>
      (WalkWeightCoef * weight
       + (speed * KmhToMs) * (speed * KmhToMs) / (height / CmInM) * WalkSpeedCoef * weight)
      * MinutesInHour * duration
    case Swimming(_, duration, weight, _, _) =>
      (speed + SwimSpeedShift) * SwimMultiplier * weight * duration
  }

  /** Training.show_training_info: the report, computed by the object's getters. */
  function ShowTrainingInfo(t: Training): InfoMessage
    requires t.sample.WellDefined()
  {
    InfoMessage(t.sample.Class().Name(), t.sample.duration,
                Distance(t.sample), MeanSpeed(t.sample), SpentCalories(t.sample, t.speed))
  }

  /** The cached attributes of `t` are what its getters report. */
  predicate Cached(t: Training) {
    t.sample.WellDefined() &&
    ShowTrainingInfo(t) == InfoMessage(t.sample.Class().Name(), t.sample.duration,
                                       t.distance, t.speed, t.calories)
  }

  /** Running.__init__: fails with a zero division exactly when the duration is zero. */
  function NewRunning(action: real, duration: real, weight: real): (r: Result<Training, Error>)
    ensures r.Ok? <==> duration != 0.0
    ensures r.Err? ==> r.error == ZeroDivision
    ensures r.Ok? ==> r.value.sample == Running(action, duration, weight) && Cached(r.value)
  {
    var s := Running(action, duration, weight);
    if duration == 0.0 then Err(ZeroDivision)
    else
      var distance := Distance(s);
      var speed := MeanSpeed(s);
      Ok(Training(s, distance, speed, SpentCalories(s, speed)))
  }

  /** SportsWalking.__init__: the speed divides by the duration, the calories by the height. */
  function NewSportsWalking(action: real, duration: real, weight: real, height: real): (r: Result<Training, Error>)
    ensures r.Ok? <==> duration != 0.0 && height != 0.0
    ensures r.Err? ==> r.error == ZeroDivision
    ensures r.Ok? ==> r.value.sample == SportsWalking(action, duration, weight, height) && Cached(r.value)
  {
    var s := SportsWalking(action, duration, weight, height);
    if duration == 0.0 || height == 0.0 then Err(ZeroDivision)
    else
      var distance := Distance(s);
      var speed := MeanSpeed(s);
      Ok(Training(s, distance, speed, SpentCalories(s, speed)))
  }

  /** Swimming.__init__: only the speed divides, by the duration. */
  function NewSwimming(action: real, duration: real, weight: real, lengthPool: real, countPool: real): (r: Result<Training, Error>)
    ensures r.Ok? <==> duration != 0.0
    ensures r.Err? ==> r.error == ZeroDivision
    ensures r.Ok? ==> r.value.sample == Swimming(action, duration, weight, lengthPool, countPool) && Cached(r.value)
  {
    var s := Swimming(action, duration, weight, lengthPool, countPool);
    if duration == 0.0 then Err(ZeroDivision)
    else
      var distance := Distance(s);
      var speed := MeanSpeed(s);
      Ok(Training(s, distance, speed, SpentCalories(s, speed)))
  }

  /**
   * read_package: look the code up, unpack the fields into the constructor
   * of that class in parameter order, and construct.
   */
  function ReadPackage(workoutType: string, data: seq<real>): (r: Result<Training, Error>)
    ensures workoutType !in Codes ==> r == Err(UnknownCode(workoutType))
    ensures workoutType in Codes && |data| != Codes[workoutType].Arity() ==>
              r == Err(WrongFieldCount(Codes[workoutType].Arity(), |data|))
    ensures workoutType in Codes && |data| == Codes[workoutType].Arity() && r.Err? ==>
              r.error == ZeroDivision
    ensures r.Ok? <==> workoutType in Codes && |data| == Codes[workoutType].Arity()
                       && data[1] != 0.0
                       && (Codes[workoutType] == SportsWalkingClass ==> data[3] != 0.0)
    ensures r.Ok? ==> workoutType in Codes && r.value.sample.Class() == Codes[workoutType]
                      && r.value.sample.Fields() == data && Cached(r.value)
  {
    if workoutType !in Codes then Err(UnknownCode(workoutType))
    else
      var c := Codes[workoutType];
      if |data| != c.Arity() then Err(WrongFieldCount(c.Arity(), |data|))
      else
        match c
        case SwimmingClass => NewSwimming(data[0], data[1], data[2], data[3], data[4])
        case RunningClass => NewRunning(data[0], data[1], data[2])
        case SportsWalkingClass => NewSportsWalking(data[0], data[1], data[2], data[3])
  }
}
