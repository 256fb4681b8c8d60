/** The log severities of the notification bar and their one total order.

    The order Debug < Info < Warning < Error is the order of the severity
    enumeration the dashboard imports; it is defined here once, by a rank,
    and used by every admission and preemption comparison of the model. */
module Severity {

  datatype LogSeverity = Debug | Info | Warning | Error

  /** Position of a severity in the order, Debug lowest. */
  function Rank(s: LogSeverity): (r: nat)
    ensures r < 4
    ensures r == 0 <==> s == Debug
  {
    match s
    case Debug => 0
    case Info => 1
    case Warning => 2
    case Error => 3
  }

  /** `a >= b` in the severity order. */
  predicate AtLeast(a: LogSeverity, b: LogSeverity) {
    Rank(a) >= Rank(b)
  }

  /** AtLeast is a total order on the four severities, with Debug at the
      bottom and Error at the top. */
  lemma AtLeastIsTotalOrder(a: LogSeverity, b: LogSeverity, c: LogSeverity)
    ensures AtLeast(a, a)
    ensures AtLeast(a, b) || AtLeast(b, a)
    ensures AtLeast(a, b) && AtLeast(b, a) ==> a == b
    ensures AtLeast(a, b) && AtLeast(b, c) ==> AtLeast(a, c)
    ensures AtLeast(a, Debug) && AtLeast(Error, a)
  {
  }
}
