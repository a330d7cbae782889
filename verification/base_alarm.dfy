/**
 * `BaseAlarmBuilder`: a fluent accumulator of alarm settings. The source
 * mutates the builder and returns `this`; here every setter returns the
 * updated builder. An unset (undefined) field is None.
 */
module BaseAlarm {
  import opened Wrappers
  import opened CloudWatch

  datatype Builder = Builder(
    threshold: Option<real>,
    periodSeconds: Option<nat>,
    op: Option<ComparisonOperator>,
    alarmDescription: Option<string>,
    evaluationPeriods: Option<int>,
    statistic: Option<Statistic>)
  {
    function SetDescription(description: string): Builder {
      this.(alarmDescription := Some(description))
    }

    function SetEvaluationPeriods(periods: int): Builder {
      this.(evaluationPeriods := Some(periods))
    }

    function SetThreshold(t: real): Builder {
      this.(threshold := Some(t))
    }

    /** Accepts a statistic and discards it: the field is never written. */
    function SetStatistic(s: Statistic): Builder {
      this
    }

    function SetPeriod(seconds: nat): Builder {
      this.(periodSeconds := Some(seconds))
    }

    function SetOp(o: ComparisonOperator): Builder {
      this.(op := Some(o))
    }

    function GetThreshold(): Option<real> { threshold }
    function GetPeriod(): Option<nat> { periodSeconds }
    function GetOp(): Option<ComparisonOperator> { op }
    function GetStatistic(): Option<Statistic> { statistic }
    function GetAlarmDescription(): Option<string> { alarmDescription }
    function GetEvaluationPeriods(): Option<int> { evaluationPeriods }

    /** Every setting an `Alarm` needs has been supplied. */
    predicate Complete() {
      threshold.Some? && periodSeconds.Some? && op.Some?
      && alarmDescription.Some? && evaluationPeriods.Some?
    }
  }

  const UNSET := Builder(None, None, None, None, None, None)

  /** The constructor: a 60-second period, one evaluation period, and the average statistic requested. */
  function NewBuilder(): (b: Builder)
    ensures b.GetPeriod() == Some(ONE_MINUTE)
    ensures b.GetEvaluationPeriods() == Some(1)
    ensures b.GetThreshold().None? && b.GetOp().None? && b.GetAlarmDescription().None?
    ensures b.GetStatistic().None?
    ensures !b.Complete()
  {
    UNSET.SetPeriod(ONE_MINUTE).SetEvaluationPeriods(1).SetStatistic(Average)
  }

  /** The base `build()` is abstract: it always throws "Not implemented". */
  function Build(b: Builder): (r: Result<AlarmSpec, string>)
    ensures r.Failure? && r.error == "Not implemented"
  {
    Failure("Not implemented")
  }

  /** Each getter reads what its own setter last stored, and each setter leaves every other field as it was. */
  lemma SettersTouchOnlyTheirField(b: Builder, d: string, n: int, t: real, s: Statistic, p: nat, o: ComparisonOperator)
    ensures b.SetDescription(d).GetAlarmDescription() == Some(d)
    ensures b.SetEvaluationPeriods(n).GetEvaluationPeriods() == Some(n)
    ensures b.SetThreshold(t).GetThreshold() == Some(t)
    ensures b.SetPeriod(p).GetPeriod() == Some(p)
    ensures b.SetOp(o).GetOp() == Some(o)
    ensures b.SetStatistic(s).GetStatistic() == b.GetStatistic()
    ensures b.SetStatistic(s) == b
    ensures b.SetDescription(d) == b.(alarmDescription := b.SetDescription(d).alarmDescription)
    ensures b.SetEvaluationPeriods(n) == b.(evaluationPeriods := b.SetEvaluationPeriods(n).evaluationPeriods)
    ensures b.SetThreshold(t) == b.(threshold := b.SetThreshold(t).threshold)
    ensures b.SetPeriod(p) == b.(periodSeconds := b.SetPeriod(p).periodSeconds)
    ensures b.SetOp(o) == b.(op := b.SetOp(o).op)
  {
  }

  /** Setting a field twice keeps the second value. */
  lemma LastWriteWins(b: Builder, d1: string, d2: string, n1: int, n2: int, t1: real, t2: real,
                      p1: nat, p2: nat, o1: ComparisonOperator, o2: ComparisonOperator)
    ensures b.SetDescription(d1).SetDescription(d2) == b.SetDescription(d2)
    ensures b.SetEvaluationPeriods(n1).SetEvaluationPeriods(n2) == b.SetEvaluationPeriods(n2)
    ensures b.SetThreshold(t1).SetThreshold(t2) == b.SetThreshold(t2)
    ensures b.SetPeriod(p1).SetPeriod(p2) == b.SetPeriod(p2)
    ensures b.SetOp(o1).SetOp(o2) == b.SetOp(o2)
  {
  }

  /** The order of a chain of setters does not matter, and the chain the catalogues use completes a fresh builder. */
  lemma SetterChainsCommute(b: Builder, d: string, t: real, p: nat, o: ComparisonOperator)
    ensures b.SetDescription(d).SetThreshold(t).SetPeriod(p).SetOp(o)
         == b.SetOp(o).SetPeriod(p).SetThreshold(t).SetDescription(d)
    ensures NewBuilder().SetDescription(d).SetStatistic(Average).SetThreshold(t).SetPeriod(p).SetOp(o).Complete()
  {
  }
}
