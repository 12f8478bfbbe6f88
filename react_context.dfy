/**
 * The guard both context hooks share: `useContext` yields `undefined`
 * outside the matching provider, and the hook then throws its own message.
 */
module ReactContext {
  import opened Wrappers

  /** `const context = useContext(C); if (context === undefined) throw new Error(message); return context`. */
  function UseContext<T>(context: Option<T>, message: string): (r: Result<T>)
    ensures context.None? <==> r == Err(message)
    ensures context.Some? ==> r == Ok(context.value)
  {
    match context
    case None => Err(message)
    case Some(c) => Ok(c)
  }
}
