/** Vocabulary shared by every component: optional values, error results and raw bytes. */
module Prelude {

  datatype Option<+T> = None | Some(value: T)

  datatype Result<+T, +E> = Ok(value: T) | Err(error: E)

  newtype Byte = x: int | 0 <= x < 0x100

  type Bytes = seq<Byte>

  /** The categories of `DataLakeError` (apps/core/exceptions.py and apps/execution/claims.py). */
  datatype Category =
    | ConfigurationError
    | FetchFailed
    | MalformedResponseError
    | PageLimitExceededError
    | AuthenticationError
    | OutboundRequestBlockedError
    | MappingError
    | LoadFailed
    | SchemaMismatchError
    | UnsupportedCapability
    | SecretNotFound
    | RawPayloadAccessDenied
    | RawPayloadIntegrityError
    | RunClaimRejected
    | InvalidRunTransition
    | UnexpectedError

  /** A platform error: where it was raised decides its category and whether a retry may help. */
  datatype Error = Error(category: Category, retryable: bool)

  const CONFIGURATION_ERROR := Error(ConfigurationError, false)
  const PAGE_LIMIT_EXCEEDED := Error(PageLimitExceededError, false)

  /** The concatenation of a list of lists, read from the left. */
  function Flatten<T>(parts: seq<seq<T>>): seq<T> {
    if parts == [] then [] else parts[0] + Flatten(parts[1..])
  }

  lemma {:induction false} FlattenAppend<T>(parts: seq<seq<T>>, last: seq<T>)
    ensures Flatten(parts + [last]) == Flatten(parts) + last
  {
    if parts == [] {
      assert Flatten([last]) == last + Flatten([]);
    } else {
      assert (parts + [last])[1..] == parts[1..] + [last];
      FlattenAppend(parts[1..], last);
    }
  }
}
