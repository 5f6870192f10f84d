/** Properties of the workout formulas, the constructors and the dispatcher. */
module HomeworkProperties {
  import opened Wrappers
  import opened Homework

  /** The distance is the action count times the class's step length, converted from m to km. */
  lemma DistanceByVariant(s: Sample)
    ensures s.Swimming? ==> Distance(s) == s.action * 1.38 / 1000.0
    ensures !s.Swimming? ==> Distance(s) == s.action * 0.65 / 1000.0
  {
  }

  /** Swimming's speed comes from the pool: changing the action count moves the distance, not the speed. */
  lemma SwimmingSpeedIgnoresAction(action: real, action': real, duration: real, weight: real,
                                   lengthPool: real, countPool: real)
    requires duration != 0.0
    ensures MeanSpeed(Swimming(action, duration, weight, lengthPool, countPool))
            == MeanSpeed(Swimming(action', duration, weight, lengthPool, countPool))
            == lengthPool * countPool / 1000.0 / duration
    ensures action != action' ==>
              Distance(Swimming(action, duration, weight, lengthPool, countPool))
              != Distance(Swimming(action', duration, weight, lengthPool, countPool))
  {
  }

  /** Running's calories recompute the speed, so they do not depend on the cached one. */
  lemma RunningCaloriesIgnoreCachedSpeed(s: Sample, speed: real, speed': real)
    requires s.Running? && s.duration != 0.0
    ensures SpentCalories(s, speed) == SpentCalories(s, speed')
  {
  }

  /** Running calories, with the speed substituted: weight * (0.000702 * action + 0.1074 * duration). */
  lemma RunningCaloriesClosedForm(action: real, duration: real, weight: real)
    requires duration != 0.0
    ensures NewRunning(action, duration, weight).Ok?
    ensures NewRunning(action, duration, weight).value.calories
            == weight * (0.000702 * action + 0.1074 * duration)
  {
    var s := Running(action, duration, weight);
    var v := MeanSpeed(s);
    assert v * duration == action * 0.00065;
    calc {
      SpentCalories(s, v);
      (18.0 * v + 1.79) * weight / 1000.0 * (duration * 60.0);
      (18.0 * (v * duration) + 1.79 * duration) * weight * 0.06;
      (18.0 * (action * 0.00065) + 1.79 * duration) * weight * 0.06;
      weight * (0.000702 * action + 0.1074 * duration);
    }
  }

  /** The race-walking calorie expression once the speed is written as x / duration. */
  lemma WalkingCaloriesIdentity(x: real, duration: real, weight: real, height: real)
    requires duration != 0.0 && height != 0.0
    ensures (0.035 * weight + (x / duration * 0.278) * (x / duration * 0.278) / (height / 100.0) * 0.029 * weight)
            * 60.0 * duration
            == weight * (2.1 * duration + 174.0 * 0.278 * 0.278 * x * x / (duration * height))
  {
  }

  /** Race-walking calories: weight * (2.1 * duration + 0.00000568153326 * action^2 / (duration * height)). */
  lemma WalkingCaloriesClosedForm(action: real, duration: real, weight: real, height: real)
    requires duration != 0.0 && height != 0.0
    ensures NewSportsWalking(action, duration, weight, height).Ok?
    ensures NewSportsWalking(action, duration, weight, height).value.calories
            == weight * (2.1 * duration + 0.00000568153326 * action * action / (duration * height))
  {
    var s := SportsWalking(action, duration, weight, height);
    var x := action * 0.00065;
    assert MeanSpeed(s) == x / duration;
    WalkingCaloriesIdentity(x, duration, weight, height);
    assert 174.0 * 0.278 * 0.278 * x * x == 0.00000568153326 * action * action;
  }

  /** Swimming calories: weight * (lengthPool * countPool / 500 + 2.2 * duration). */
  lemma SwimmingCaloriesClosedForm(action: real, duration: real, weight: real, lengthPool: real, countPool: real)
    requires duration != 0.0
    ensures NewSwimming(action, duration, weight, lengthPool, countPool).Ok?
    ensures NewSwimming(action, duration, weight, lengthPool, countPool).value.calories
            == weight * (lengthPool * countPool / 500.0 + 2.2 * duration)
  {
    var s := Swimming(action, duration, weight, lengthPool, countPool);
    var v := MeanSpeed(s);
    assert v * duration * 1000.0 == lengthPool * countPool;
    calc {
      SpentCalories(s, v);
      (v + 1.1) * 2.0 * weight * duration;
      2.0 * weight * (v * duration) + 2.2 * weight * duration;
      2.0 * weight * (lengthPool * countPool / 1000.0) + 2.2 * weight * duration;
    }
  }

  /** Every class's code is in the table and leads back to it. */
  lemma CodeRoundTrip(c: TrainingClass)
    ensures c.Code() in Codes && Codes[c.Code()] == c
  {
  }

  /** Every code in the table is the code of the class it names. */
  lemma CodesAreClassCodes(code: string)
    requires code in Codes
    ensures Codes[code].Code() == code
  {
  }

  /** Dispatching a sample's own code and fields rebuilds that sample, whenever its constructor succeeds. */
  lemma ReadPackageRoundTrip(s: Sample)
    ensures ReadPackage(s.Class().Code(), s.Fields()).Ok? <==> s.WellDefined()
    ensures s.WellDefined() ==> ReadPackage(s.Class().Code(), s.Fields()).value.sample == s
  {
    CodeRoundTrip(s.Class());
  }

  /**
   * The report of a dispatched workout names the class the code selects, repeats the input
   * duration and carries exactly the values the constructor cached.
   */
  lemma ReportPassesThrough(code: string, data: seq<real>)
    requires ReadPackage(code, data).Ok?
    ensures code in Codes && |data| >= 3
    ensures ShowTrainingInfo(ReadPackage(code, data).value)
            == InfoMessage(Codes[code].Name(), data[1], ReadPackage(code, data).value.distance,
                           ReadPackage(code, data).value.speed, ReadPackage(code, data).value.calories)
  {
  }

  /** The report of the swimming entry of the script's package list. */
  lemma SwimmingPackageExample()
    ensures ReadPackage("SWM", [720.0, 1.0, 80.0, 25.0, 40.0]).Ok?
    ensures ShowTrainingInfo(ReadPackage("SWM", [720.0, 1.0, 80.0, 25.0, 40.0]).value)
            == InfoMessage("Swimming", 1.0, 0.9936, 1.0, 336.0)
  {
  }

  /** The report of the running entry of the script's package list. */
  lemma RunningPackageExample()
    ensures ReadPackage("RUN", [15000.0, 1.0, 75.0]).Ok?
    ensures ShowTrainingInfo(ReadPackage("RUN", [15000.0, 1.0, 75.0]).value)
            == InfoMessage("Running", 1.0, 9.75, 9.75, 797.805)
  {
  }

  /** The report of the race-walking entry of the script's package list. */
  lemma WalkingPackageExample()
    ensures ReadPackage("WLK", [9000.0, 1.0, 75.0, 180.0]).Ok?
    ensures ShowTrainingInfo(ReadPackage("WLK", [9000.0, 1.0, 75.0, 180.0]).value)
            == InfoMessage("SportsWalking", 1.0, 5.85, 5.85, 349.251747525)
  {
  }

  /** Codes outside the table are rejected, whatever the fields. */
  lemma UnknownCodeExample(data: seq<real>)
    ensures ReadPackage("CYC", data) == Err(UnknownCode("CYC"))
  {
  }
}
