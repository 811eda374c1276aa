/** Tagged outcomes shared by the whole model.

    The Kotlin code turns every exception into a `Resource` value; the remote
    service (Retrofit) is an oracle whose reply to one call is a
    `RemoteOutcome`. The user-facing message strings of the app are kept as
    the constructors of `Msg`, one per distinct text, so that "distinct
    messages" is structural. */
module Outcomes {

  datatype Option<+T> = None | Some(value: T)

  /** What one remote call ends with: a payload, or the exception it throws.
      `NoConnectivity` is the interceptor's NoConnectivityException (a kind of
      IOException, caught first wherever both are caught), `Http(code)` a
      retrofit2.HttpException, `Io` any other IOException, `Other` any other
      exception. */
  datatype RemoteOutcome<+T> =
    | Ok(value: T)
    | NoConnectivity
    | Http(code: int)
    | Io
    | Other

  /** Every user-facing message the core emits. The exception detail appended
      by "...: ${e.message}" is not modelled. */
  datatype Msg =
    // Transaction repository
    | SavedLocallyWillSync          // offline: saved locally, will sync
    | CreateFailed(code: int)       // HTTP error creating a transaction
    | NetworkSavedLocally           // network error, saved locally
    | Unexpected                    // "unexpected error: ..."
    | TransactionNotFound
    | ServerError(code: int)
    | Failed                        // "error: ..."
    | ConnectionNeededToCancel
    | CannotCancel
    // Product repository
    | NoConnection
    | NetworkError
    | ProductNotFound
    | PriceCalculationFailed
    // Auth repository
    | InvalidCredentials            // sign-in refused (401)
    | AccessDenied                  // sign-in forbidden (403)
    | NetworkTryLater               // network error, try later
    | UserFetchFailed               // retry after a refresh failed
    | AuthorizationFailed           // refresh failed without a message
    | UserDataFailed                // user fetch failed, not a 401
    | NoRefreshToken
    | RefreshFailed
    // View-model defaults and rules
    | CartEmpty
    | CreateTransactionFailed
    | LoadCategoriesFailed
    | LoadProductsFailed
    | ProductUnavailable
    | LoadTransactionsFailed
    | LoadTransactionFailed
    | CancelTransactionFailed
    | LoginFailed
    // Login field validation
    | EnterUsername
    | UsernameTooShort
    | EnterPassword
    | PasswordTooShort

  /** The single terminal value a repository Flow emits (its Loading emission
      is not modelled). The message of an Error is nullable, as in Kotlin. */
  datatype Resource<+T> = Success(data: T) | Error(message: Option<Msg>)

  /** How a repository Flow ends: with its terminal value, or with an
      exception that escapes it. A local read made inside the handler for
      NoConnectivityException is not guarded by the sibling `catch` clauses,
      so when that read throws, nothing more is emitted. */
  datatype FlowEnd<+T> = Emits(value: Resource<T>) | Throws

  /** `result.message ?: default` in the view-models. */
  function MessageOr(message: Option<Msg>, default: Msg): (m: Msg)
    ensures message.Some? ==> m == message.value
    ensures message.None? ==> m == default
  {
    match message
    case Some(v) => v
    case None => default
  }
}
