/**
 * The few things the model needs to know about the embedded Python
 * interpreter: a handler object and a raised exception. What a handler does
 * when it is called is not modelled here; the dispatcher takes it as a
 * parameter (see RobynProcessor.PyHost).
 */
module Python {

  /**
   * A Python callable registered as a route handler. `paramCount` is what
   * `len(inspect.signature(handler).parameters)` reports and
   * `isCoroutineFunction` what `asyncio.iscoroutinefunction(handler)`
   * reports; `id` stands for the object's identity.
   */
  datatype PyCallable = PyCallable(id: nat, paramCount: nat, isCoroutineFunction: bool)

  /** A raised Python exception, by class name and message. */
  datatype PyException = PyException(kind: string, message: string)
}
