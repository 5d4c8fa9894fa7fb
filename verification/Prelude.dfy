// Shared vocabulary: optional values, clock readings, and what can become of a
// call to a remote system.
module Prelude {

  datatype Option<+T> = None | Some(value: T)

  // A reading of a clock. Only its order matters.
  type Time = int

  // A version 5 UUID (section 5.5 of RFC 9562), taken to be an injective function
  // of the namespace and the name it is computed from.
  datatype Uuid = V5(namespace: Namespace, name: string)
  datatype Namespace = AnalysisNamespace | OutboxNamespace

  // What a statement sent to the database comes to. An error does not tell the
  // caller whether the commit happened, so it is split in two.
  datatype Outcome =
    | Done            // applied, and the caller saw success
    | Rejected        // not applied, and the caller saw an error
    | Unacknowledged  // applied, but the caller saw an error
  {
    predicate Applied() {
      !Rejected?
    }
  }
}
