/** Small value types shared by the modules of the watcher model. */
module Common {

  /** A value that may be absent; `None` plays the part of Python's `None`. */
  datatype Option<+T> = None | Some(value: T) {

    /** The wrapped value, or `default` when absent (Python's `dict.get(key, default)`). */
    function GetOr(default: T): T {
      match this
      case Some(v) => v
      case None => default
    }
  }

  /** Either a value or the error that was raised instead of producing it. */
  datatype Result<+T, +E> = Ok(value: T) | Err(error: E)

  /** `base ** exponent` on non-negative integers. */
  function Pow(base: nat, exponent: nat): nat {
    if exponent == 0 then 1 else base * Pow(base, exponent - 1)
  }

  /** `part` occurs in `s` starting at index `k`. */
  predicate OccursAt(s: string, part: string, k: nat) {
    k + |part| <= |s| && s[k..k + |part|] == part
  }

  /** `part` occurs in `s` as a contiguous run of characters (Python's `part in s`). */
  predicate Contains(s: string, part: string) {
    exists k: nat | k <= |s| :: OccursAt(s, part, k)
  }

  /** Whatever surrounds it, a string contains its own middle piece. */
  lemma ContainsMiddle(prefix: string, part: string, suffix: string)
    ensures Contains(prefix + part + suffix, part)
  {
    var s := prefix + part + suffix;
    assert OccursAt(s, part, |prefix|);
  }
}
