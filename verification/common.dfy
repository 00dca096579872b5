/** Small value types shared by every module of the launcher model. */
module Common {

  /** A value that may be absent: JavaScript's `undefined`/`null`, or an omitted option. */
  datatype Option<+T> = None | Some(value: T) {

    /** The carried value, or `default` when absent (the `??` operator). */
    function GetOr(default: T): T
    {
      match this
      case Some(v) => v
      case None => default
    }
  }

  /** `join(root, name)` from node:path, for a relative name without `..` segments. */
  function PathJoin(root: string, name: string): string
  {
    root + "/" + name
  }

  /** How a spawned process settles its promise: resolved with "Success" or rejected with "Failure". */
  datatype Outcome = Success | Failure
}
