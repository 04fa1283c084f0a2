/** Option, Result and the Python exceptions that escape the monitors' functions. */
module Common {

  datatype Option<+T> = None | Some(value: T) {
    /** `x or default` for a value that is either missing or present. */
    function GetOr(default: T): T {
      if Some? then value else default
    }
  }

  /**
   * The exceptions the modelled code does not catch. Each one aborts the request
   * that triggered it (Flask answers with an error page), so the model returns it.
   */
  datatype PyError =
    | Unpack        // `a, b, c = fields` with the wrong number of fields (ValueError)
    | NotAnInteger  // int() of a string that is not a decimal integer (ValueError), or of null, a list or an object (TypeError)
    | MissingField  // `parts[1]` past the end (IndexError) or `s["host"]` absent (KeyError)
    | NotADict      // `item.setdefault(...)` on a JSON value that is not an object (AttributeError)
    | ToolMissing   // launching an external program failed (OSError)
    | Unreadable    // open() of a file that exists failed (OSError)
    | DecodeFailed  // a program's output is not valid text (UnicodeDecodeError)
    | DockerFailed  // the docker client's request to the daemon failed (docker.errors.APIError)

  datatype Result<+T> = Ok(value: T) | Err(error: PyError) {
    predicate IsFailure() {
      Err?
    }

    function PropagateFailure<U>(): Result<U>
      requires Err?
    {
      Err(error)
    }

    function Extract(): T
      requires Ok?
    {
      value
    }
  }

  /** `m.get(k)`: None for a missing key. */
  function Get<K, V>(m: map<K, V>, k: K): Option<V> {
    if k in m then Some(m[k]) else None
  }

  /** `m.get(k, default)`. */
  function Lookup<K, V>(m: map<K, V>, k: K, default: V): V {
    if k in m then m[k] else default
  }
}
