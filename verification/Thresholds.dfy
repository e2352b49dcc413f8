/** Threshold rules, evaluated on one record at a time. */
module Thresholds {
  import opened Base
  import opened Conditions
  import opened Windows

  /** Evaluate a threshold on a record. A missing record is an error; a field that is missing or
      not a number does not trigger; otherwise the number is compared with the constant. */
  method EvalThreshold(c: Condition, record: Option<Record>) returns (triggered: bool, err: bool)
    requires c.Threshold?
    ensures err <==> record.None?
    ensures triggered ==> record.Some? && c.field in record.value && record.value[c.field].Number?
    ensures record.Some? && c.field in record.value && record.value[c.field].Number? ==>
              var x := record.value[c.field].v;
              triggered <==>
                match c.op
                case GT => x > c.value
                case GTE => x >= c.value
                case LT => x < c.value
                case LTE => x <= c.value
                case EQ => x == c.value
                case NEQ => x != c.value
                case UnknownOp(_) => false
  {
    triggered, err := false, false;
    if record.None? {
      return false, true;
    }
    var r := record.value;
    if c.field in r && r[c.field].Number? {
      triggered := c.op.Compare(r[c.field].v, c.value);
    }
  }
}
