/**
 * Abnormal termination of a stage body. The supervising runtime restarts a stage
 * whose body stops abruptly; the model lets the caller choose where, inside one
 * loop iteration, the body stops.
 */
module Faults {

  /**
   * `Never`: the iteration runs to its end.
   * `Before(k)`: the iteration stops immediately before its effect point number k
   * (effect points are numbered from 0 in the order the stage reaches them, point 0
   * being the start of the iteration; each stage says which point is the site of its
   * demonstration panic).
   * If the iteration never reaches point k, it runs to its end.
   */
  datatype Crash = Never | Before(point: nat) {

    /** Whether the body stops on reaching effect point `k`. */
    predicate StopsAt(k: nat) {
      Before? && point == k
    }
  }
}
