/** Rule definitions: comparison operators, typed conditions and when they compile. */
module Conditions {
  import opened RuleState

  datatype Mode = Push | Scheduled

  datatype Op = GT | GTE | LT | LTE | EQ | NEQ | UnknownOp(text: string)
  {
    /** Compare a measured value with the constant of a condition. */
    function Compare(a: real, b: real): bool {
      match this
      case GT => a > b
      case GTE => a >= b
      case LT => a < b
      case LTE => a <= b
      case EQ => a == b
      case NEQ => a != b
      case UnknownOp(_) => false
    }
  }

  datatype Agg = Avg | Sum | Min | Max | Count | UnknownAgg(text: string)

  /** The condition types. `Foreign` stands for pattern, SQL and expression conditions,
      whose compilation is decided by libraries outside this model. */
  datatype Condition =
    | Threshold(field: string, op: Op, value: real)
    | WindowAggregate(field: string, agg: Agg, window: int, op: Op, value: real)
    | Foreign(mode: Mode, wellFormed: bool)
  {
    function Mode(): Mode {
      match this
      case Threshold(_, _, _) => Push
      case WindowAggregate(_, _, _, _, _) => Scheduled
      case Foreign(mode, _) => mode
    }

    predicate Compiles() {
      match this
      case Threshold(field, op, _) => field != "" && !op.UnknownOp?
      case WindowAggregate(field, agg, window, op, _) =>
        field != "" && window > 0 && !agg.UnknownAgg? && !op.UnknownOp?
      case Foreign(_, wellFormed) => wellFormed
    }
  }

  /** A condition fails to compile only for one of the reasons that the source names. */
  lemma CompilesUnless(c: Condition)
    requires !c.Compiles()
    ensures c.Threshold? ==> c.field == "" || c.op.UnknownOp?
    ensures c.WindowAggregate? ==> c.field == "" || c.window <= 0 || c.agg.UnknownAgg? || c.op.UnknownOp?
    ensures c.Foreign? ==> !c.wellFormed
  {
  }

  datatype Rule = Rule(
    id: RuleId,
    name: string,
    enabled: bool,
    labels: map<string, string>,
    inputRef: string,
    condition: Condition,
    schedule: int)
  {
    /** Validation of a rule before it is stored; severities are not part of this model. */
    predicate Valid() {
      name != "" && inputRef != "" && (condition.Mode() == Scheduled ==> schedule > 0)
    }
  }
}
