/**
 * How an awaited callback ends, as the UI handlers that `try`/`catch` it see it.
 */
module Effects {
  import opened Wrappers

  /**
   * `Done`: the promise resolved. `Threw(Some(m))`: it rejected with an `Error`
   * whose message is `m`. `Threw(None)`: it rejected with something that is not an
   * `Error`.
   */
  datatype Outcome = Done | Threw(message: Option<string>)

  /** `err instanceof Error ? err.message : fallback`. */
  function ErrorText(o: Outcome, fallback: string): string
    requires o.Threw?
  {
    o.message.GetOr(fallback)
  }
}
