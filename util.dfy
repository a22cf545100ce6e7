/**
 * util.Variable is not part of this model. It is assumed to be a running
 * (total, samples) pair: `Variable()` is (0, 0), and `sample(v)` adds v to
 * the total and one to the sample count.
 */
module Util {

  datatype Variable = Variable(total: int, samples: int) {

    /** sample(v) */
    function Sample(v: int): (r: Variable) {
      Variable(total + v, samples + 1)
    }

    /** What sampling only 0s and 1s keeps: 0 <= total <= samples. */
    predicate Bounded() {
      0 <= total <= samples
    }
  }

  /** Variable(): nothing sampled yet. */
  const Empty: Variable := Variable(0, 0)

  /** Python's int(b) for a bool. */
  function Int(b: bool): (r: int) {
    if b then 1 else 0
  }
}
