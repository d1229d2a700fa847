/** Failure-carrying values shared by every service of the model. */
module Prelude {

  datatype Option<+T> = None | Some(value: T)

  datatype Result<+T, +E> = Ok(value: T) | Err(error: E)

  /** How a state-changing call ended: committed, or refused and rolled back. */
  datatype Outcome<+E> = Done | Refused(reason: E)

  lemma HasMember(s: set<int>)
    requires s != {}
    ensures exists id :: id in s
  {
    assert (forall id :: id !in s) ==> s == {};
  }
}
