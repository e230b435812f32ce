/** Option and Result values shared by the model: `None`/`Err` stand for the
    Python code's missing attributes and raised exceptions. */
module Results {

  datatype Option<+T> = None | Some(value: T) {

    /** The wrapped value, or `default` when there is none. */
    function GetOr(default: T): T {
      if Some? then value else default
    }
  }

  datatype Result<+T, +E> = Ok(value: T) | Err(error: E)

  /** Why a panel round failed: a failure raised while building the model
      client or the team, a missing key while rendering stored history, or a
      failure raised by the conversation engine. */
  datatype Error = SetupError(message: string) | KeyError(key: string) | EngineError(message: string)
}
