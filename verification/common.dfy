/** Small value types shared by the launcher modules. */
module Common {

  /** A value that may be absent; `None` stands for a Java `null`. */
  datatype Option<+T> = None | Some(value: T)

  /** Result code of a background server task (Const.TASK_SUCCESS and friends). */
  datatype TaskResult = TaskSuccess | TaskError | TaskNetworkError

  /** Number of occurrences of `x` in `s`. */
  function Count<T(==)>(s: seq<T>, x: T): (n: nat)
    ensures n <= |s|
    ensures n == 0 <==> x !in s
  {
    if |s| == 0 then 0
    else (if s[0] == x then 1 else 0) + Count(s[1..], x)
  }
}
