# Workout calculator, modelled in Dafny

`homework.py` converts sensor readings from three kinds of workout (running,
race walking, swimming) into a report: class name, duration, distance, mean
speed and calories spent. A base class `Training` holds the step or stroke
count (`action`), the duration in hours and the weight in kilograms, with the
shared constants `M_IN_KM = 1000`, `LEN_STEP = 0.65` and `HOUR_TO_MINUTES = 60`.
`Running` adds its calorie formula, `SportsWalking` adds a height and its
formula, `Swimming` overrides the step length (1.38 m), derives its speed from
the pool length and lap count, and has its own formula. `read_package` maps a
three-letter code to a class and spreads a list of numbers over that class's
constructor parameters.

The model:

- `results.dfy`, module `Results`: the exceptions the model keeps
  (`ZeroDivisionError`, `NotImplementedError`, `KeyError`, and the
  `TypeError` of a constructor called with the wrong number of arguments) as
  an `Error` datatype, and two results that carry either a value or an error.
  `Result<T>` holds a training or a report. `Quantity` holds a real and is
  failure-compatible, so the calorie formulas chain with `:-`.
- `trainings.dfy`, module `Trainings`: the class hierarchy as one datatype
  `Training` with four constructors. `Base` is the bare base class. The
  others are `Running`, `SportsWalking` and `Swimming`. Each method becomes a
  function: `Distance`, `MeanSpeed`, `Calories` and `ShowTrainingInfo`.
  Lemmas give the formulas in reference forms (over distance or over pool
  geometry), their signs and monotonicity, and what each kind shares or
  overrides.
- `dispatch.dfy`, module `Dispatch`: the code-to-class table, positional
  binding (`Construct`), `ReadPackage`, and its inverse (`CodeOf`, `KindOf`
  and `Fields`). The round trip holds in both directions. The lemma
  `ReadPackageRoundTrip` reads every training back from its own code and
  fields. `ReadPackage`'s own contract says that a successful read returns
  exactly the training with that code and those fields. The three demo packages
  and the rejected packages are lemmas with exact expected values.

All quantities are exact `real`s. Every constant is a finite decimal, so each
formula is an exact rational expression. Python's `/` raises on a zero divisor, and the model
keeps that as a `ZeroDivision` error rather than a precondition: a zero
duration makes the speed, the calories and the report fail, and a zero height
makes the race-walking calories fail. The report evaluates its fields in
order. A bare `Training` with a zero duration therefore fails on the speed
(`ZeroDivision`) before its calorie method raises `NotImplemented`.

Exact values the code computes for the demo packages:
`('SWM', [720, 1, 80, 25, 40])` gives distance `0.9936`, speed `1` and
calories `336`. `('RUN', [15000, 1, 75])` gives `9.75`, `9.75` and `797.805`.
`('WLK', [9000, 1, 75, 180])` gives `5.85`, `5.85` and `349.251747525`.
Swimming counts a 1.38 m stroke, so 720 strokes give 0.9936 km, not the
0.468 km that 0.65 m steps would give.

## Model

| member | source | states |
|---|---|---|
| `Trainings.Name` | homework.py:56 | the report's class name is "Training", "Running", "SportsWalking" or "Swimming", each exactly for its own kind |
| `Trainings.LenStep` | homework.py:26 | the length of one step is positive: 0.65 m, inherited by every kind except Swimming, which overrides it with 1.38 m (homework.py:102) |
| `Trainings.Divide` | homework.py:44 | Python's `/` succeeds exactly when the divisor is non-zero and otherwise raises `ZeroDivision`; it is the division at homework.py:44, 94 and 118 |
| `Trainings.Distance` | homework.py:38-40 | distance in km is the step count times 0.65 m (1.38 m for a swimming stroke) over 1000; non-negative for a non-negative count |
| `Trainings.DistanceAdditive` | homework.py:38-40 | distance is additive in the step count |
| `Trainings.LandKindsShareDistanceAndSpeed` | homework.py:38-44 | the base class, `Running` and `SportsWalking` inherit the 0.65 m step: with equal inputs they have equal distance and equal speed |
| `Trainings.SwimmingDistance` | homework.py:100-102 | `Swimming` overrides the step length: a stroke counts 1.38 m |
| `Trainings.MeanSpeed` | homework.py:42-44 | the speed succeeds exactly when the duration is non-zero, otherwise raises `ZeroDivision` |
| `Trainings.LandSpeedTimesDuration` | homework.py:42-44 | on land, speed times duration equals the distance |
| `Trainings.SwimmingSpeedTimesDuration` | homework.py:116-118 | swimming speed times duration times 1000 equals pool length times lap count |
| `Trainings.SwimmingIgnoresAction` | homework.py:116-123 | swimming speed and calories do not depend on the stroke count |
| `Trainings.Calories` | homework.py:46-123 | the base class always raises `NotImplemented`; a kind's calories succeed exactly when the duration (and, for race walking, the height) is non-zero, and otherwise raise `ZeroDivision` |
| `Trainings.RunningCaloriesFromDistance` | homework.py:68-73 | running calories equal (18 × distance + 1.79 × duration) × weight × 60 / 1000 |
| `Trainings.RunningCaloriesNonNegative` | homework.py:68-73 | running calories are non-negative for non-negative steps and weight and a positive duration |
| `Trainings.RunningCaloriesMonotone` | homework.py:68-73 | more steps in the same session never lower the running calories |
| `Trainings.WalkingCaloriesFromDistance` | homework.py:90-97 | race-walking calories equal 60 × weight × (0.035 × duration + 0.029 × 100 × (0.278 × distance)² / (height × duration)) |
| `Trainings.WalkingCaloriesNonNegative` | homework.py:90-97 | race-walking calories are non-negative for any step count once duration and height are positive and weight is non-negative |
| `Trainings.WalkingCaloriesMonotone` | homework.py:90-97 | for a non-negative step count, more steps in the same race walk never lower the calories, since the squared speed grows with the steps |
| `Trainings.WalkingCaloriesAtRest` | homework.py:90-97 | with no steps, race-walking calories are the weight term alone, 0.035 × weight per minute |
| `Trainings.SwimmingCaloriesFromPool` | homework.py:120-123 | swimming calories equal 2 × weight × (pool length × laps / 1000 + 1.1 × duration) |
| `Trainings.SwimmingCaloriesNonNegative` | homework.py:120-123 | swimming calories are non-negative for a non-negative pool, weight and a positive duration |
| `Trainings.ShowTrainingInfo` | homework.py:54-60 | the report holds, in order, the class name, duration, distance, speed and calories; it succeeds exactly when speed and calories do; on the base class it always fails |
| `Dispatch.TrainingTypesTable` | homework.py:129-131 | the table has exactly the codes SWM, RUN and WLK and one entry per kind; no two kinds take the same number of constructor parameters |
| `Dispatch.Arity` | homework.py:29-33 | Running takes 3 positional parameters, SportsWalking 4 (homework.py:83-86) and Swimming 5 (homework.py:106-111) |
| `Dispatch.KindOf` | homework.py:129-131 | the kind of a training is the dispatch-table entry of its class: one kind per non-base constructor |
| `Dispatch.CodeOf` | homework.py:129-131 | each kind's code is in the table and the table maps it back to that kind |
| `Dispatch.TableCodeRoundTrip` | homework.py:129-131 | every code in the table names one kind whose code it is |
| `Dispatch.Fields` | homework.py:106-114 | a training lists its constructor parameters as action, duration, weight, then its own fields; the count is that kind's arity |
| `Dispatch.Construct` | homework.py:133 | a class called with the values spread by position succeeds exactly when the count matches its arity (3, 4 or 5), builds that kind from those fields, and otherwise raises `ArityMismatch` |
| `Dispatch.ReadPackage` | homework.py:126-134 | an unknown code raises `UnknownWorkoutType`; a known code with the wrong count raises `ArityMismatch`; on success the training's code and fields are exactly the inputs |
| `Dispatch.ReadPackageRoundTrip` | homework.py:126-134 | every non-base training is read back from its own code and fields |
| `Dispatch.DispatchedReportFailsOnlyOnZeroDivisor` | homework.py:126-134 | the dispatcher never builds a bare base training, so its report can fail only on a zero divisor |
| `Dispatch.SwimmingPackage` | homework.py:145 | the swimming demo package gives distance 0.9936, speed 1 and calories 336 |
| `Dispatch.RunningPackage` | homework.py:146 | the running demo package gives distance 9.75, speed 9.75 and calories 797.805 |
| `Dispatch.WalkingPackage` | homework.py:147 | the race-walking demo package gives distance 5.85, speed 5.85 and calories 349.251747525 |
| `Dispatch.RejectedPackages` | homework.py:132-134 | an unknown code and a package of the wrong length are rejected with the matching error |

## Left out

- `InfoMessage.get_message` (homework.py:13-20): string templating with three-decimal float formatting. It is presentation only. The model keeps the five-field record it formats.
- `main` and the demo loop (homework.py:137-152): `print` output and a driver loop. The three demo packages appear only as the lemmas above.
- IEEE-754 rounding: every quantity is an exact real. No claim is made about bit-level float results.
- Float range is not modelled. There is no `Error` case for an `OverflowError`. One can come from `** 2` at homework.py:93 once the converted speed passes about 1.34e154. Another can come from an `int` step count beyond the float range at homework.py:40.
- The recursive return at homework.py:52 cannot be reached, because the guard before it always raises. The model returns `NotImplemented` and does not recurse.
- The class name comes from `__class__.__name__` at run time. The model uses one fixed name per constructor.
- Python's `int` and `float` are not told apart: the step count and pool fields are reals like the rest. The model also does not cover a data list holding non-numbers.
