/** What a scheduler can be asked to run. */
module Tasks {
  datatype Option<+T> = None | Some(value: T)

  type FiberId = nat

  /** Callbacks are opaque, except for the two kinds that the hooks put into timers:
      the timeout of a blocking call, and the wake-up of a sleeping fiber. */
  datatype Callback =
    | User(id: nat)
    | Timeout(call: nat)
    | WakeFiber(fiber: FiberId)

  /** A queue element holds either a fiber or a callback. */
  datatype Task =
    | FiberTask(fiber: FiberId)
    | CallbackTask(cb: Callback)
}
