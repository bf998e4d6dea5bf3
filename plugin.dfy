/**
 * The parts of the Terraform plugin framework the provider's resources use:
 * diagnostics appended to a response, and the state a response carries back.
 */
module Plugin {

  /** An error diagnostic: summary and detail. */
  datatype Diag = Diag(summary: string, detail: string)

  /** The summary every client-side error of the provider carries. */
  const CLIENT_ERROR := "Client Error"

  function ClientError(detail: string): Diag
  {
    Diag(CLIENT_ERROR, detail)
  }

  /**
   * What a response leaves in Terraform's state: the prior value untouched,
   * a model written with `State.Set`, or the resource removed.
   */
  datatype StateOut<+M> = Unchanged | Written(model: M) | Removed

  /**
   * A response: the diagnostics in the order they were added and the state.
   * `Panic` stands for a Go runtime panic (an out-of-range slice or a nil
   * dereference), which aborts the plugin process.
   */
  datatype Response<+M> = Response(diags: seq<Diag>, state: StateOut<M>) | Panic(reason: string)
}
