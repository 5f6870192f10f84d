# Workout statistics (hw_python_oop)

A Dafny model of `homework.py`. The script computes distance, mean speed and calories for three
kinds of workout: running, race walking ("sports walking") and swimming. `read_package` picks the
workout class from a three-letter sensor code ("RUN", "WLK", "SWM") and builds it from an ordered
list of numeric fields. `show_training_info` gathers the computed values into an `InfoMessage`
record.

How the model is laid out:

- `wrappers.dfy` holds `Result`, which stands for the exceptions the script raises, and `Option`,
  which `Script.RunPackages` uses for its failure result.
- `homework.dfy` (module `Homework`) holds the whole model:
  - `Sample` holds the constructor arguments of a workout object. It has one datatype
    constructor per class.
  - `Training` is a constructed object: its `Sample` plus the `distance`, `speed` and
    `calories` that `__init__` caches.
  - `Distance`, `MeanSpeed` and `SpentCalories` are the getters. Where the source overrides a
    method in a class, the function matches on that class.
  - The class attributes (`LEN_STEP`, `M_IN_KM`, `h_to_m` and the calorie coefficients) are
    named constants.
  - `SpentCalories(s, speed)` takes the cached `speed` attribute as an argument. `SportsWalking`
    and `Swimming` read that attribute. `Running` recomputes `get_mean_speed()` and ignores it.
  - `NewRunning`, `NewSportsWalking` and `NewSwimming` are the three `__init__` methods.
    `ReadPackage` is the dispatcher.
- `script.dfy` (module `Script`) holds `RunPackages`, the script's driver loop. It dispatches
  each package in turn and collects the report records the script would print. It stops at the
  first exception, because an uncaught exception ends the script. `RunScriptPackages` runs it on
  the script's own package list.
- `properties.dfy` (module `HomeworkProperties`) holds the lemmas:
  - one closed form of the calories per class, with the mean speed substituted;
  - the round trip from a sample's code and fields back through the dispatcher;
  - the three packages of the script's package list, used as worked examples.

Python floats are modelled as exact reals, so each formula is an exact arithmetic statement.
Python's `/` raises `ZeroDivisionError` when the divisor is zero. The model writes this out in two
ways:
- as `requires` clauses on the getters;
- as an `Err(ZeroDivision)` result from the constructors.

Each constructor calls the getters, so, over reals, a constructor fails in exactly these cases:
- the duration is zero, for every class;
- the height is zero, for race walking only.

Besides an unknown code (`KeyError`), the code raises two other kinds of error that the model keeps:
- a `TypeError` when the number of fields does not match the constructor;
- the `ZeroDivisionError` above.

`ReadPackage` checks in the same order as the script: first the code (`UnknownCode`), then the
field count (`WrongFieldCount`), then the constructor (`ZeroDivision`).

## Model

| member | source | states |
|---|---|---|
| `Homework.MeanSpeed` | homework.py:36-38 | models `Training.get_mean_speed` and also `Swimming.get_mean_speed` (homework.py:113-115), whose override is its swimming branch. It needs a non-zero duration. For running and walking, speed × duration = distance. For swimming, speed × duration × 1000 = pool length × pool count. |
| `Homework.Distance` | homework.py:32-34 | models `Training.get_distance`. It has no contract of its own: `HomeworkProperties.DistanceByVariant` states its property. |
| `Homework.SpentCalories` | homework.py:63-111 | models the three `get_spent_calories` overrides: Running (homework.py:63-67), SportsWalking (homework.py:86-90) and Swimming (homework.py:109-111). It has no contract of its own. Its properties are stated by `HomeworkProperties.RunningCaloriesClosedForm`, `WalkingCaloriesClosedForm`, `SwimmingCaloriesClosedForm` and `RunningCaloriesIgnoreCachedSpeed`. |
| `Homework.ShowTrainingInfo` | homework.py:44-48 | models `Training.show_training_info`. It has no contract of its own. Its property is stated by `HomeworkProperties.ReportPassesThrough` and by the predicate `Homework.Cached`, which every constructor ensures. |
| `Homework.NewRunning` | homework.py:57-61 | succeeds exactly when duration ≠ 0, and otherwise fails with a zero division. On success the object keeps the arguments, and its cached distance, speed and calories are what `show_training_info` reports. |
| `Homework.NewSportsWalking` | homework.py:78-84 | succeeds exactly when duration ≠ 0 and height ≠ 0, and otherwise fails with a zero division. On success it keeps the arguments, and its caches agree with the report. |
| `Homework.NewSwimming` | homework.py:100-107 | succeeds exactly when duration ≠ 0, and otherwise fails with a zero division. On success it keeps the arguments, and its caches agree with the report. |
| `Homework.ReadPackage` | homework.py:118-123 | an unknown code always gives `UnknownCode` and never a workout. A known code with the wrong number of fields gives `WrongFieldCount`. A known code with the right number of fields can fail only with `ZeroDivision`. It succeeds exactly when the code is known, the field count is the class's arity, the duration is non-zero and, for WLK, the height is non-zero. On success the object is of the code's class, its arguments are the fields in constructor-parameter order, and its caches agree with the report. |
| `HomeworkProperties.DistanceByVariant` | homework.py:23-34 | distance = action × 1.38 / 1000 for swimming, because Swimming's `LEN_STEP` overrides the inherited one. It is action × 0.65 / 1000 for running and walking. |
| `HomeworkProperties.SwimmingSpeedIgnoresAction` | homework.py:113-115 | swimming's speed is pool length × pool count / 1000 / duration. It is the same for any action count, while the distance changes with the action count. |
| `HomeworkProperties.RunningCaloriesIgnoreCachedSpeed` | homework.py:63-67 | running calories recompute the mean speed, so the cached speed has no effect on them. |
| `HomeworkProperties.RunningCaloriesClosedForm` | homework.py:63-67 | a constructed running workout burns weight × (0.000702 × action + 0.1074 × duration). This is (18 × speed + 1.79) × weight / 1000 × duration × 60 with the speed substituted. |
| `HomeworkProperties.WalkingCaloriesClosedForm` | homework.py:86-90 | a constructed walking workout burns weight × (2.1 × duration + 0.00000568153326 × action² / (duration × height)). This is the walking formula, where the speed is the cached km/h mean speed. |
| `HomeworkProperties.SwimmingCaloriesClosedForm` | homework.py:109-111 | a constructed swimming workout burns weight × (pool length × pool count / 500 + 2.2 × duration). This is (speed + 1.1) × 2 × weight × duration with the cached speed substituted. |
| `HomeworkProperties.CodeRoundTrip` | homework.py:120-122 | the code table holds every class's code and maps it back to that class. |
| `HomeworkProperties.CodesAreClassCodes` | homework.py:120-122 | every code in the table is the code of the class it maps to. |
| `HomeworkProperties.ReadPackageRoundTrip` | homework.py:118-123 | dispatching a sample's own code and fields succeeds exactly when its divisions are defined. On success it rebuilds that same sample. |
| `HomeworkProperties.ReportPassesThrough` | homework.py:44-48 | for a workout built by dispatch, the report's training type is the name of the class the code selects. Its duration is the input duration. Its distance, speed and calories are the constructor's cached values. |
| `HomeworkProperties.SwimmingPackageExample` | homework.py:133 | `SWM [720, 1, 80, 25, 40]` gives the report ("Swimming", 1, 0.9936, 1.0, 336). |
| `HomeworkProperties.RunningPackageExample` | homework.py:134 | `RUN [15000, 1, 75]` gives the report ("Running", 1, 9.75, 9.75, 797.805). |
| `HomeworkProperties.WalkingPackageExample` | homework.py:135 | `WLK [9000, 1, 75, 180]` gives the report ("SportsWalking", 1, 5.85, 5.85, 349.251747525), exactly over reals. |
| `Script.RunPackages` | homework.py:138-140 | returns one report per package, in order, each the report of that package's dispatched workout. When a package fails, it returns the reports of the packages before it and that package's error, and no later package is processed. Without a failure, every package has a report. |
| `Script.RunScriptPackages` | homework.py:132-140 | the script's three packages all succeed, and the loop reports them in order as ("Swimming", 1, 0.9936, 1.0, 336), ("Running", 1, 9.75, 9.75, 797.805) and ("SportsWalking", 1, 5.85, 5.85, 349.251747525). |
| `HomeworkProperties.UnknownCodeExample` | homework.py:120-123 | an unlisted code such as "CYC" is rejected for any list of fields. |

## Left out

- `InfoMessage.get_message` (homework.py:13-18) is left out. It renders the record as a fixed
  Russian sentence with three-decimal float formatting. The model keeps the record and its fields
  only.
- Printing is left out: `main` (homework.py:126-128) and the printing in the `__main__` loop.
  `RunPackages` returns the records the loop would print. The three hard-coded packages
  (homework.py:132-136) appear as the example lemmas.
- `Training.get_spent_calories` (homework.py:40-42) is left out. It is the abstract base method and
  returns `None`, and no base-class workout is ever built.
- IEEE-754 rounding is left out. Every value is an exact real, so the model makes no claim about
  the float results the script prints.
- Float overflow and underflow exceptions are left out, because reals neither overflow nor
  underflow. In the script, `(self.speed * self.kmh_to_ms)**2` (homework.py:88) raises
  `OverflowError` for a very large speed. An integer `action` beyond float range raises
  `OverflowError` at homework.py:34. A non-zero subnormal height underflows to 0.0 in
  `self.height / self.sm_to_m` (homework.py:89), so the next division raises
  `ZeroDivisionError` on a height the model accepts.
- Field types are not modelled: every field is a real. Python does not enforce the annotations
  (`action: int` and so on), and the script passes integers. Non-numeric list entries are not
  modelled.
- Errors are not modelled beyond their kind: the message texts of `KeyError`, `TypeError` and
  `ZeroDivisionError` are not kept.
- Reassigning attributes after construction is not modelled. Objects are immutable values here.
  Python would allow changing, say, `duration` later, and the cached values would then go stale.
- Inheritance and dynamic method dispatch are not modelled as such. Each override is a `match` on
  the workout's class.
