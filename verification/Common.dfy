/** Values shared by every component: optional results, and one row of a
    versioned table. Every table of the server is used through the same contract:
    an insert that refuses an existing key, and an update that applies only when the
    caller's version is the row's current one and then raises that version by one. */
module Common {
  datatype Option<+T> = None | Some(value: T)

  /** One durable row and its compare-and-swap version. */
  datatype Row<+T> = Row(value: T, version: nat)

  /** What the environment does to one call: answer it, refuse it before it takes
      effect, or apply it and lose the reply. */
  datatype Fault = Fine | Refuse | Lose
}
