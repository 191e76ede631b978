/** Brew profiles and their conversion into the steps and the auto-stop condition of the profiler. */
module BrewProfiles {
  import opened Options

  // The profile message. `Other...` stands for every enumerator the conversion does not know.
  datatype TargetType = PressureTarget | FlowRateTarget | OtherTarget
  datatype AdvanceType = TotalTimeAdvance | TotalWeightAdvance | StepTimeAdvance | OtherAdvance
  datatype StopType = TotalTimeStop | TotalWeightStop | OtherStop
  datatype AdvanceCondition = AdvanceCondition(kind: AdvanceType, value: real)
  datatype StopCondition = StopCondition(kind: StopType, value: real)
  datatype BrewStep = BrewStep(targetType: TargetType, targetValue: real, advance: Option<AdvanceCondition>)
  datatype BrewProfile =
    BrewProfile(name: string, temperature: int, steps: seq<BrewStep>, stop: Option<StopCondition>)

  // What the profiler takes. Values keep the unit of the profile.
  datatype StepTarget = ConstantPressure(value: real) | ConstantFlow(value: real)
  datatype Condition = Never | OnTotalTime(value: real) | OnWeight(value: real) | OnStepTime(value: real)
  type Step = (StepTarget, Condition)

  /** None stands for the exception. */
  function GetStepTarget(step: BrewStep): Option<StepTarget> {
    match step.targetType
    case PressureTarget => Some(ConstantPressure(step.targetValue))
    case FlowRateTarget => Some(ConstantFlow(step.targetValue))
    case OtherTarget => None
  }

  function GetStepCondition(step: BrewStep): Option<Condition> {
    if step.advance.None? then Some(Never) else
    match step.advance.value.kind
    case TotalTimeAdvance => Some(OnTotalTime(step.advance.value.value))
    case TotalWeightAdvance => Some(OnWeight(step.advance.value.value))
    case StepTimeAdvance => Some(OnStepTime(step.advance.value.value))
    case OtherAdvance => None
  }

  function GetStopCondition(profile: BrewProfile): Option<Condition> {
    if profile.stop.None? then Some(Never) else
    match profile.stop.value.kind
    case TotalTimeStop => Some(OnTotalTime(profile.stop.value.value))
    case TotalWeightStop => Some(OnWeight(profile.stop.value.value))
    case OtherStop => None
  }

  /** The transformed range copied into a vector: the first step that cannot be converted throws. */
  function ConvertSteps(steps: seq<BrewStep>): Option<seq<Step>> {
    if steps == [] then Some([]) else
    var target := GetStepTarget(steps[0]);
    var condition := GetStepCondition(steps[0]);
    if target.None? || condition.None? then None else
    var rest := ConvertSteps(steps[1..]);
    if rest.None? then None else Some([(target.value, condition.value)] + rest.value)
  }

  /** The stop condition converts unless its kind is unknown, and keeps kind and value. */
  lemma StopConditionIsKept(profile: BrewProfile)
    ensures var stop := GetStopCondition(profile);
            match profile.stop
            case None => stop == Some(Never)
            case Some(condition) =>
              && (stop.Some? <==> condition.kind != OtherStop)
              && (stop.Some? ==>
                    && !stop.value.Never? && stop.value.value == condition.value
                    && (stop.value.OnTotalTime? <==> condition.kind == TotalTimeStop)
                    && (stop.value.OnWeight? <==> condition.kind == TotalWeightStop))
  {
  }

  predicate Convertible(step: BrewStep) {
    step.targetType != OtherTarget && (step.advance.Some? ==> step.advance.value.kind != OtherAdvance)
  }

  /** Conversion succeeds iff every step is convertible, and then keeps number, order and content. */
  lemma {:induction false} ConvertStepsIsPointwise(steps: seq<BrewStep>)
    ensures ConvertSteps(steps).Some? <==>
              (forall i :: 0 <= i < |steps| ==>
                 && steps[i].targetType != OtherTarget
                 && (steps[i].advance.Some? ==> steps[i].advance.value.kind != OtherAdvance))
    ensures ConvertSteps(steps).Some? ==>
              var converted := ConvertSteps(steps).value;
              && |converted| == |steps|
              && (forall i :: 0 <= i < |steps| ==>
                    && (converted[i].0.ConstantPressure? <==> steps[i].targetType == PressureTarget)
                    && (converted[i].0.ConstantFlow? <==> steps[i].targetType == FlowRateTarget)
                    && converted[i].0.value == steps[i].targetValue)
              && (forall i :: 0 <= i < |steps| ==>
                    match steps[i].advance
                    case None => converted[i].1 == Never
                    case Some(advance) =>
                      && !converted[i].1.Never? && converted[i].1.value == advance.value
                      && (converted[i].1.OnTotalTime? <==> advance.kind == TotalTimeAdvance)
                      && (converted[i].1.OnWeight? <==> advance.kind == TotalWeightAdvance)
                      && (converted[i].1.OnStepTime? <==> advance.kind == StepTimeAdvance))
  {
    if steps != [] {
      ConvertStepsIsPointwise(steps[1..]);
      assert forall i :: 0 <= i < |steps| - 1 ==> steps[1..][i] == steps[i + 1];
      assert forall i :: 0 < i < |steps| ==> steps[i] == steps[1..][i - 1];
    }
  }
}
