/** The dispatcher: a three-letter workout code selects a kind of training,
    and a flat list of sensor values is bound to that kind's constructor
    parameters by position. */
module Dispatch {
  import opened Results
  import opened Trainings

  /** The kinds the dispatch table can construct. */
  datatype Kind = SwimmingKind | RunningKind | SportsWalkingKind

  /** The dispatch table from workout code to kind. */
  const TrainingTypes: map<string, Kind> :=
    map["SWM" := SwimmingKind, "RUN" := RunningKind, "WLK" := SportsWalkingKind]

  /** The number of positional parameters of each kind's constructor. */
  function Arity(kind: Kind): (n: nat)
    ensures 3 <= n <= 5
    ensures kind == SportsWalkingKind ==> n == 4
    ensures kind == SwimmingKind ==> n == 5
    ensures kind == RunningKind ==> n == 3
  {
    match kind
    case RunningKind => 3
    case SportsWalkingKind => 4
    case SwimmingKind => 5
  }

  /** The kind of a training built by the dispatcher. */
  function KindOf(t: Training): (kind: Kind)
    requires !t.Base?
    ensures kind == RunningKind <==> t.Running?
    ensures kind == SportsWalkingKind <==> t.SportsWalking?
    ensures kind == SwimmingKind <==> t.Swimming?
  {
    match t
    case Running(_, _, _) => RunningKind
    case SportsWalking(_, _, _, _) => SportsWalkingKind
    case Swimming(_, _, _, _, _) => SwimmingKind
  }

  /** The code the dispatch table gives a kind. */
  function CodeOf(kind: Kind): (code: string)
    ensures code in TrainingTypes && TrainingTypes[code] == kind
  {
    match kind
    case RunningKind => "RUN"
    case SportsWalkingKind => "WLK"
    case SwimmingKind => "SWM"
  }

  /** The constructor parameters of a training in declaration order: action,
      duration, weight, then the kind's own fields. */
  function Fields(t: Training): (data: seq<real>)
    ensures |data| >= 3 && data[0] == t.action && data[1] == t.duration && data[2] == t.weight
    ensures !t.Base? ==> |data| == Arity(KindOf(t))
    ensures t.SportsWalking? ==> data[3] == t.height
    ensures t.Swimming? ==> data[3] == t.lengthPool && data[4] == t.countPool
  {
    match t
    case Base(action, duration, weight) => [action, duration, weight]
    case Running(action, duration, weight) => [action, duration, weight]
    case SportsWalking(action, duration, weight, height) => [action, duration, weight, height]
    case Swimming(action, duration, weight, lengthPool, countPool) =>
      [action, duration, weight, lengthPool, countPool]
  }

  /** Calling a kind's constructor with `data` spread as positional
      arguments: a list of the wrong length raises a `TypeError` instead of
      being padded or truncated. */
  function Construct(kind: Kind, data: seq<real>): (r: Result<Training>)
    ensures r.Success? <==> |data| == Arity(kind)
    ensures r.Failure? ==> r.error == ArityMismatch(Arity(kind), |data|)
    ensures r.Success? ==> !r.value.Base? && KindOf(r.value) == kind && Fields(r.value) == data
  {
    if |data| != Arity(kind) then
      Failure(ArityMismatch(Arity(kind), |data|))
    else
      match kind
      case RunningKind => Success(Running(data[0], data[1], data[2]))
      case SportsWalkingKind => Success(SportsWalking(data[0], data[1], data[2], data[3]))
      case SwimmingKind => Success(Swimming(data[0], data[1], data[2], data[3], data[4]))
  }

  /** Reads one sensor package: an unknown code raises a `KeyError`; a known
      one constructs its kind from the values. On success the result is exactly
      the training whose code and fields are the inputs. */
  function ReadPackage(workoutType: string, data: seq<real>): (r: Result<Training>)
    ensures workoutType !in TrainingTypes ==> r == Failure(UnknownWorkoutType(workoutType))
    ensures workoutType in TrainingTypes && |data| != Arity(TrainingTypes[workoutType]) ==>
              r == Failure(ArityMismatch(Arity(TrainingTypes[workoutType]), |data|))
    ensures r.Success? <==> workoutType in TrainingTypes && |data| == Arity(TrainingTypes[workoutType])
    ensures r.Success? ==> !r.value.Base? && CodeOf(KindOf(r.value)) == workoutType && Fields(r.value) == data
  {
    if workoutType in TrainingTypes then
      Construct(TrainingTypes[workoutType], data)
    else
      Failure(UnknownWorkoutType(workoutType))
  }

  /** The table knows exactly three codes, one per kind, and no two kinds
      take the same number of constructor parameters. */
  lemma TrainingTypesTable(k1: Kind, k2: Kind)
    ensures TrainingTypes.Keys == {"SWM", "RUN", "WLK"}
    ensures TrainingTypes.Values == {SwimmingKind, RunningKind, SportsWalkingKind}
    ensures Arity(k1) == Arity(k2) ==> k1 == k2
  {
  }

  /** Each code of the table names one kind, so a kind's code leads back to it. */
  lemma TableCodeRoundTrip(code: string)
    requires code in TrainingTypes
    ensures CodeOf(TrainingTypes[code]) == code
  {
  }

  /** Every training the dispatcher can build is read back from its own code
      and fields. */
  lemma ReadPackageRoundTrip(t: Training)
    requires !t.Base?
    ensures ReadPackage(CodeOf(KindOf(t)), Fields(t)) == Success(t)
  {
  }

  /** The dispatcher never builds a bare base training, so a report on what
      it builds can fail only by dividing by a zero duration or height. */
  lemma DispatchedReportFailsOnlyOnZeroDivisor(workoutType: string, data: seq<real>)
    requires ReadPackage(workoutType, data).Success?
    ensures var t := ReadPackage(workoutType, data).value;
            && !t.Base?
            && (ShowTrainingInfo(t).Failure? ==> ShowTrainingInfo(t).error == ZeroDivision)
  {
  }

  /** The swimming package of the demo: 720 strokes, one hour, 80 kg, a 25 m
      pool swum 40 times. */
  lemma SwimmingPackage()
    ensures ReadPackage("SWM", [720.0, 1.0, 80.0, 25.0, 40.0]) == Success(Swimming(720.0, 1.0, 80.0, 25.0, 40.0))
    ensures ShowTrainingInfo(Swimming(720.0, 1.0, 80.0, 25.0, 40.0))
         == Success(InfoMessage("Swimming", 1.0, 0.9936, 1.0, 336.0))
  {
  }

  /** The running package of the demo: 15000 steps, one hour, 75 kg. */
  lemma RunningPackage()
    ensures ReadPackage("RUN", [15000.0, 1.0, 75.0]) == Success(Running(15000.0, 1.0, 75.0))
    ensures ShowTrainingInfo(Running(15000.0, 1.0, 75.0))
         == Success(InfoMessage("Running", 1.0, 9.75, 9.75, 797.805))
  {
  }

  /** The race-walking package of the demo: 9000 steps, one hour, 75 kg, 180 cm. */
  lemma WalkingPackage()
    ensures ReadPackage("WLK", [9000.0, 1.0, 75.0, 180.0]) == Success(SportsWalking(9000.0, 1.0, 75.0, 180.0))
    ensures ShowTrainingInfo(SportsWalking(9000.0, 1.0, 75.0, 180.0))
         == Success(InfoMessage("SportsWalking", 1.0, 5.85, 5.85, 349.251747525))
  {
  }

  /** An unknown code is rejected, and so is a race walk without its height. */
  lemma RejectedPackages()
    ensures ReadPackage("XYZ", [1.0, 2.0, 3.0]) == Failure(UnknownWorkoutType("XYZ"))
    ensures ReadPackage("WLK", [9000.0, 1.0, 75.0]) == Failure(ArityMismatch(4, 3))
    ensures ReadPackage("RUN", [15000.0, 1.0, 75.0, 180.0]) == Failure(ArityMismatch(3, 4))
  {
  }
}
