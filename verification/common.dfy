/** Shapes shared by the state containers of src/hooks.ts. */
module Common {

  /** A value that may be absent (`undefined` or `null` in the source). */
  datatype Option<T> = None | Some(value: T)

  /** A plain record (`Record<string, any>`) as a map from keys to values. */
  type Record<V> = map<string, V>

  /** What a loading-guarded call does before its first `await`: it is either rejected at
      once with the guard's message, or it starts the request it describes. */
  datatype Launch<Q> = Rejected(reason: string) | Launched(request: Q)
}
