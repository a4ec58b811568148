/** The training hierarchy of the workout calculator: a base training and
    three kinds that share or override its distance, speed and calorie
    formulas. Every quantity is an exact real; the base class and its three
    subclasses become the four constructors of one datatype. */
module Trainings {
  import opened Results

  // Shared constants of the base class.
  const MetersPerKm: real := 1000.0
  const StepLength: real := 0.65
  const MinutesPerHour: real := 60.0

  // Running.
  const RunSpeedMultiplier: real := 18.0
  const RunSpeedShift: real := 1.79

  // Race walking.
  const WalkWeightMultiplier: real := 0.035
  const WalkSpeedHeightMultiplier: real := 0.029
  const KmhInMs: real := 0.278
  const CmPerMeter: real := 100.0

  // Swimming: a stroke replaces the step length.
  const StrokeLength: real := 1.38
  const SwimSpeedShift: real := 1.1
  const SwimWeightMultiplier: real := 2.0

  /** One workout session: the step or stroke count, the duration in hours
      and the weight in kilograms, plus the extra fields of each kind. */
  datatype Training =
    | Base(action: real, duration: real, weight: real)
    | Running(action: real, duration: real, weight: real)
    | SportsWalking(action: real, duration: real, weight: real, height: real)
    | Swimming(action: real, duration: real, weight: real, lengthPool: real, countPool: real)

  /** The five fields of the report on one training, in the order they are produced. */
  datatype InfoMessage = InfoMessage(
    trainingType: string,
    duration: real,
    distance: real,
    speed: real,
    calories: real)

  /** The class name shown in the report. */
  function Name(t: Training): (name: string)
    ensures name == "Training" <==> t.Base?
    ensures name == "Running" <==> t.Running?
    ensures name == "SportsWalking" <==> t.SportsWalking?
    ensures name == "Swimming" <==> t.Swimming?
  {
    match t
    case Base(_, _, _) => "Training"
    case Running(_, _, _) => "Running"
    case SportsWalking(_, _, _, _) => "SportsWalking"
    case Swimming(_, _, _, _, _) => "Swimming"
  }

  /** The length in metres of one unit of `action`: Swimming overrides the
      step length, every other kind inherits it. */
  function LenStep(t: Training): (len: real)
    ensures len > 0.0
    ensures t.Swimming? ==> len == 1.38
    ensures !t.Swimming? ==> len == 0.65
  {
    if t.Swimming? then StrokeLength else StepLength
  }

  /** Python's `/`: raises on a zero divisor. */
  function Divide(x: real, y: real): (r: Quantity)
    ensures r.Value? <==> y != 0.0
    ensures r.Fault? ==> r.error == ZeroDivision
  {
    if y == 0.0 then Fault(ZeroDivision) else Value(x / y)
  }

  /** The distance in kilometres, shared by every kind. */
  function Distance(t: Training): (km: real)
    ensures t.Swimming? ==> km == t.action * 0.00138
    ensures !t.Swimming? ==> km == t.action * 0.00065
    ensures t.action >= 0.0 ==> km >= 0.0
  {
    t.action * LenStep(t) / MetersPerKm
  }

  /** The mean speed in km/h: distance over duration, except for Swimming,
      which derives it from the pool length and the number of laps. */
  function MeanSpeed(t: Training): (r: Quantity)
    ensures r.Value? <==> t.duration != 0.0
    ensures r.Fault? ==> r.error == ZeroDivision
  {
    match t
    case Swimming(_, duration, _, lengthPool, countPool) =>
      Divide(lengthPool * countPool / MetersPerKm, duration)
    case _ =>
      Divide(Distance(t), t.duration)
  }

  /** The calories spent. The bare base training always raises
      `NotImplementedError` (its local calorie count is zero, so its guard
      always fires); each kind has its own formula over the mean speed. */
  function Calories(t: Training): (r: Quantity)
    ensures t.Base? ==> r == Fault(NotImplemented)
    ensures r.Value? <==> !t.Base? && t.duration != 0.0 && (t.SportsWalking? ==> t.height != 0.0)
    ensures r.Fault? && !t.Base? ==> r.error == ZeroDivision
  {
    match t
    case Base(_, _, _) =>
      Fault(NotImplemented)
    case Running(_, duration, weight) =>
      var speed :- MeanSpeed(t);
      Value((RunSpeedMultiplier * speed + RunSpeedShift)
              * weight / MetersPerKm * duration * MinutesPerHour)
    case SportsWalking(_, duration, weight, height) =>
      var speed :- MeanSpeed(t);
      var ms := speed * KmhInMs;
      var perHeight :- Divide(ms * ms, height / CmPerMeter);
      Value((WalkWeightMultiplier * weight
               + perHeight * WalkSpeedHeightMultiplier * weight)
              * (duration * MinutesPerHour))
    case Swimming(_, duration, weight, _, _) =>
      var speed :- MeanSpeed(t);
      Value((speed + SwimSpeedShift) * SwimWeightMultiplier * weight * duration)
  }

  /** The report on a training. Its fields are evaluated in order, so the
      speed's division by the duration fails before the calorie formula is
      reached. */
  function ShowTrainingInfo(t: Training): (r: Result<InfoMessage>)
    ensures t.Base? ==> r.Failure?
    ensures t.Base? ==> r.error == (if t.duration == 0.0 then ZeroDivision else NotImplemented)
    ensures !t.Base? && r.Failure? ==> r.error == ZeroDivision
    ensures r.Success? <==> !t.Base? && t.duration != 0.0 && (t.SportsWalking? ==> t.height != 0.0)
    ensures r.Success? ==>
              && r.value.trainingType == Name(t)
              && r.value.duration == t.duration
              && r.value.distance == Distance(t)
              && MeanSpeed(t) == Value(r.value.speed)
              && Calories(t) == Value(r.value.calories)
  {
    var distance := Distance(t);
    match MeanSpeed(t)
    case Fault(e) => Failure(e)
    case Value(speed) =>
      match Calories(t)
      case Fault(e) => Failure(e)
      case Value(calories) => Success(InfoMessage(Name(t), t.duration, distance, speed, calories))
  }

  // Order facts about real products and quotients, used by the race-walking monotonicity proof.

  /** Scaling by a non-negative factor keeps the order. */
  lemma ScaleMonotone(a: real, b: real, c: real)
    requires a <= b && c >= 0.0
    ensures a * c <= b * c
  {
  }

  /** Squaring keeps the order of non-negative reals. */
  lemma SquareMonotone(a: real, b: real)
    requires 0.0 <= a <= b
    ensures a * a <= b * b
  {
  }

  /** Dividing by a positive divisor keeps the order. */
  lemma QuotientMonotone(a: real, b: real, c: real)
    requires a <= b && c > 0.0
    ensures a / c <= b / c
  {
  }

  /** On land, speed times duration gives back the distance. */
  lemma LandSpeedTimesDuration(t: Training)
    requires !t.Swimming? && t.duration != 0.0
    ensures MeanSpeed(t).Value? && MeanSpeed(t).value * t.duration == Distance(t)
  {
  }

  /** In the pool, speed times duration gives back the pool length times the
      number of laps, in kilometres. */
  lemma SwimmingSpeedTimesDuration(action: real, duration: real, weight: real, lengthPool: real, countPool: real)
    requires duration != 0.0
    ensures MeanSpeed(Swimming(action, duration, weight, lengthPool, countPool)).Value?
    ensures MeanSpeed(Swimming(action, duration, weight, lengthPool, countPool)).value * duration * MetersPerKm
         == lengthPool * countPool
  {
  }

  /** Distance is additive in the step count. */
  lemma DistanceAdditive(t: Training, a: real, b: real)
    ensures Distance(t.(action := a + b)) == Distance(t.(action := a)) + Distance(t.(action := b))
  {
  }

  /** Running, race walking and the base training share the inherited step
      length of 0.65 m, so with the same step count and duration they cover
      the same distance at the same speed. */
  lemma LandKindsShareDistanceAndSpeed(action: real, duration: real, weight: real, height: real)
    ensures Distance(Running(action, duration, weight)) == action * 0.00065
    ensures Distance(SportsWalking(action, duration, weight, height)) == action * 0.00065
    ensures Distance(Base(action, duration, weight)) == action * 0.00065
    ensures MeanSpeed(Running(action, duration, weight)) == MeanSpeed(SportsWalking(action, duration, weight, height))
    ensures MeanSpeed(Base(action, duration, weight)) == MeanSpeed(Running(action, duration, weight))
  {
  }

  /** A swimming stroke counts 1.38 m towards the distance. */
  lemma SwimmingDistance(action: real, duration: real, weight: real, lengthPool: real, countPool: real)
    ensures Distance(Swimming(action, duration, weight, lengthPool, countPool)) == action * 0.00138
  {
  }

  /** The swimming speed and calories do not depend on the stroke count. */
  lemma SwimmingIgnoresAction(action: real, other: real, duration: real, weight: real, lengthPool: real, countPool: real)
    ensures MeanSpeed(Swimming(other, duration, weight, lengthPool, countPool))
         == MeanSpeed(Swimming(action, duration, weight, lengthPool, countPool))
    ensures Calories(Swimming(other, duration, weight, lengthPool, countPool))
         == Calories(Swimming(action, duration, weight, lengthPool, countPool))
  {
  }

  /** Running calories written over the distance instead of the speed. */
  lemma RunningCaloriesFromDistance(action: real, duration: real, weight: real)
    requires duration != 0.0
    ensures Calories(Running(action, duration, weight))
         == Value((RunSpeedMultiplier * Distance(Running(action, duration, weight)) + RunSpeedShift * duration)
                    * weight * MinutesPerHour / MetersPerKm)
  {
  }

  /** Running calories are non-negative for a non-negative session. */
  lemma RunningCaloriesNonNegative(action: real, duration: real, weight: real)
    requires action >= 0.0 && duration > 0.0 && weight >= 0.0
    ensures Calories(Running(action, duration, weight)).Value?
    ensures Calories(Running(action, duration, weight)).value >= 0.0
  {
  }

  /** More steps in the same running session burn at least as many calories. */
  lemma RunningCaloriesMonotone(action: real, more: real, duration: real, weight: real)
    requires action <= more && duration > 0.0 && weight >= 0.0
    ensures Calories(Running(action, duration, weight)).Value?
    ensures Calories(Running(more, duration, weight)).Value?
    ensures Calories(Running(action, duration, weight)).value <= Calories(Running(more, duration, weight)).value
  {
  }

  /** Race-walking calories written over the distance instead of the speed:
      the squared speed in m/s over the height in metres becomes the squared
      converted distance over height and duration. */
  lemma WalkingCaloriesFromDistance(action: real, duration: real, weight: real, height: real)
    requires duration != 0.0 && height != 0.0
    ensures Calories(SportsWalking(action, duration, weight, height))
         == Value(MinutesPerHour * weight
                  * (WalkWeightMultiplier * duration
                     + WalkSpeedHeightMultiplier * CmPerMeter
                       * (KmhInMs * Distance(SportsWalking(action, duration, weight, height)))
                       * (KmhInMs * Distance(SportsWalking(action, duration, weight, height)))
                       / (height * duration)))
  {
  }

  /** Race-walking calories are non-negative for any step count once the
      duration and height are positive and the weight is non-negative. */
  lemma WalkingCaloriesNonNegative(action: real, duration: real, weight: real, height: real)
    requires duration > 0.0 && weight >= 0.0 && height > 0.0
    ensures Calories(SportsWalking(action, duration, weight, height)).Value?
    ensures Calories(SportsWalking(action, duration, weight, height)).value >= 0.0
  {
  }

  /** More steps in the same race walk burn at least as many calories: the
      speed grows with the steps, and so does its square. */
  lemma WalkingCaloriesMonotone(action: real, more: real, duration: real, weight: real, height: real)
    requires 0.0 <= action <= more && duration > 0.0 && weight >= 0.0 && height > 0.0
    ensures Calories(SportsWalking(action, duration, weight, height)).Value?
    ensures Calories(SportsWalking(more, duration, weight, height)).Value?
    ensures Calories(SportsWalking(action, duration, weight, height)).value
         <= Calories(SportsWalking(more, duration, weight, height)).value
  {
    var fewer, longer := SportsWalking(action, duration, weight, height), SportsWalking(more, duration, weight, height);
    var slow, fast := MeanSpeed(fewer).value, MeanSpeed(longer).value;
    var lo, hi := slow * KmhInMs, fast * KmhInMs;
    var meters := height / CmPerMeter;
    var loPerHeight, hiPerHeight := Divide(lo * lo, meters).value, Divide(hi * hi, meters).value;
    var minutes := duration * MinutesPerHour;
    assert Calories(fewer) == Value((WalkWeightMultiplier * weight + loPerHeight * WalkSpeedHeightMultiplier * weight) * minutes);
    assert Calories(longer) == Value((WalkWeightMultiplier * weight + hiPerHeight * WalkSpeedHeightMultiplier * weight) * minutes);
    QuotientMonotone(0.0, Distance(fewer), duration);
    QuotientMonotone(Distance(fewer), Distance(longer), duration);
    SquareMonotone(lo, hi);
    QuotientMonotone(lo * lo, hi * hi, meters);
    ScaleMonotone(loPerHeight, hiPerHeight, WalkSpeedHeightMultiplier * weight);
    ScaleMonotone(WalkWeightMultiplier * weight + loPerHeight * WalkSpeedHeightMultiplier * weight,
                  WalkWeightMultiplier * weight + hiPerHeight * WalkSpeedHeightMultiplier * weight, minutes);
  }

  /** A race walk without steps burns only the weight term, 2.1 kcal per
      kilogram and hour. */
  lemma WalkingCaloriesAtRest(duration: real, weight: real, height: real)
    requires duration != 0.0 && height != 0.0
    ensures Calories(SportsWalking(0.0, duration, weight, height)) == Value(2.1 * weight * duration)
  {
  }

  /** Swimming calories written over the pool geometry instead of the speed. */
  lemma SwimmingCaloriesFromPool(action: real, duration: real, weight: real, lengthPool: real, countPool: real)
    requires duration != 0.0
    ensures Calories(Swimming(action, duration, weight, lengthPool, countPool))
         == Value(SwimWeightMultiplier * weight * (lengthPool * countPool / MetersPerKm + SwimSpeedShift * duration))
  {
  }

  /** Swimming calories are non-negative for a non-negative session. */
  lemma SwimmingCaloriesNonNegative(action: real, duration: real, weight: real, lengthPool: real, countPool: real)
    requires duration > 0.0 && weight >= 0.0 && lengthPool >= 0.0 && countPool >= 0.0
    ensures Calories(Swimming(action, duration, weight, lengthPool, countPool)).Value?
    ensures Calories(Swimming(action, duration, weight, lengthPool, countPool)).value >= 0.0
  {
  }
}
