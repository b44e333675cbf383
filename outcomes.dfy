/** The three protocol outcomes, the per-class counters the scripts keep,
    and the Option/Result wrappers used for the scripts' exception paths. */
module Outcomes {

  datatype Option<T> = None | Some(value: T)

  /** Ok, or the Python exception the scripts would raise instead. */
  datatype Result<T> = Ok(value: T) | Err(error: Error)

  datatype Error = ZeroDivisionError

  /** The mutually exclusive labels of one measured bit-string. */
  datatype Outcome = Exploded | Success | Inconclusive

  /** The three counters: exploded, success and inconclusive shot counts. */
  datatype Tally = Tally(exploded: nat, success: nat, inconclusive: nat)
  {
    function Sum(): nat { exploded + success + inconclusive }
  }
}
