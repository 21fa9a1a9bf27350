/** Small shared vocabulary: optional values, handler outcomes and timestamps. */
module Common {

  /** A value that may be absent (`undefined` / `null` in the application). */
  datatype Option<T> = None | Some(value: T)

  /** What a handler did: it went ahead, or it stopped early after showing an
      alert whose reason is carried in `Fail`. */
  datatype Check<E> = Pass | Fail(reason: E)

  /** A clock reading in milliseconds since the epoch. Every clock read
      (`Date.now()`, `new Date()`) is a parameter of the handler that makes it. */
  type Time = int
}
