/** TransactionDetailsViewModel: one transaction, whether the signed-in user
    may cancel it, and the cancellation itself. Times are epoch seconds;
    `LocalDateTime.parse` and the clock are parameters. */
module DetailsViewModel {
  import opened Outcomes
  import opened Models

  /** The window, in whole minutes, in which a sale may still be cancelled. */
  const CancelWindowMinutes := 30

  /** `ChronoUnit.MINUTES.between(from, to)`: whole minutes, truncated
      toward zero (so a `from` in the future gives a negative count). */
  function MinutesBetween(from: int, to: int): (m: int)
    ensures from <= to ==> 0 <= m && 60 * m <= to - from < 60 * (m + 1)
    ensures to < from ==> m <= 0 && 60 * (-m) <= from - to < 60 * (-m + 1)
  {
    if from <= to then (to - from) / 60 else -((from - to) / 60)
  }

  /** `canCancelTransaction`. `createdAt` is the parse of the transaction's
      timestamp (None when it does not parse), `now` the clock, `userId`
      and `role` the signed-in user as loaded so far. A cancelled sale, a
      timestamp that does not parse, more than 30 whole minutes, or a user
      not yet loaded each rule the cancellation out, and a seller may only
      cancel its own sale. */
  function CanCancelTransaction(t: Transaction, createdAt: Option<int>, now: int,
                                userId: Option<string>, role: Option<UserRole>): (r: bool)
    ensures r ==> !t.isCancelled && createdAt.Some? && MinutesBetween(createdAt.value, now) <= CancelWindowMinutes
    ensures r ==> role == Some(ADMIN) || (role == Some(SELLER) && userId == Some(t.createdBy.id))
  {
    if t.isCancelled then false
    else if createdAt.None? then false
    else if MinutesBetween(createdAt.value, now) > CancelWindowMinutes then false
    else match role
         case Some(ADMIN) => true
         case Some(SELLER) => userId == Some(t.createdBy.id)
         case None => false
  }

  /** The time limit in seconds: 31 minutes or more after the sale, no one
      may cancel it; right up to that, 30 whole minutes still count as
      within the window. */
  lemma CancelWindow(t: Transaction, created: int, now: int, userId: Option<string>, role: Option<UserRole>)
    ensures now - created >= 31 * 60 ==> !CanCancelTransaction(t, Some(created), now, userId, role)
    ensures now - created < 31 * 60 ==>
              (CanCancelTransaction(t, Some(created), now, userId, role) <==>
               !t.isCancelled && (role == Some(ADMIN) || (role == Some(SELLER) && userId == Some(t.createdBy.id))))
  {
    var m := MinutesBetween(created, now);
    if now - created >= 31 * 60 {
      assert m >= 31;
    } else {
      assert !(m > CancelWindowMinutes);
    }
  }

  /** Within the window and not yet cancelled: an admin may cancel any
      sale, a seller exactly its own. */
  lemma WhoMayCancel(t: Transaction, created: int, now: int, userId: Option<string>)
    requires !t.isCancelled
    requires MinutesBetween(created, now) <= CancelWindowMinutes
    ensures CanCancelTransaction(t, Some(created), now, userId, Some(ADMIN))
    ensures CanCancelTransaction(t, Some(created), now, userId, Some(SELLER)) <==> userId == Some(t.createdBy.id)
  {
  }

  datatype DetailsUiState = DetailsUiState(
    transaction: Option<Transaction>,
    canCancel: bool,
    isLoading: bool,
    error: Option<Msg>,
    isCancelled: bool)

  const InitialState := DetailsUiState(None, false, false, None, false)

  class TransactionDetailsViewModel {
    var uiState: DetailsUiState
    var currentUserId: Option<string>
    var currentUserRole: Option<UserRole>

    constructor()
      ensures uiState == InitialState && currentUserId == None && currentUserRole == None
    {
      uiState := InitialState;
      currentUserId, currentUserRole := None, None;
    }

    /** `loadCurrentUser`: only a success is remembered. */
    method LoadCurrentUser(outcome: Resource<User>)
      modifies this
      ensures uiState == old(uiState)
      ensures outcome.Success? ==> currentUserId == Some(outcome.data.id) && currentUserRole == Some(outcome.data.role)
      ensures outcome.Error? ==> currentUserId == old(currentUserId) && currentUserRole == old(currentUserRole)
    {
      if outcome.Success? {
        currentUserId := Some(outcome.data.id);
        currentUserRole := Some(outcome.data.role);
      }
    }

    /** `loadTransaction`: a loaded transaction comes with the decision
        whether it may be cancelled, for the user loaded at that moment. */
    method LoadTransaction(outcome: Resource<Transaction>, parse: string -> Option<int>, now: int)
      modifies this
      ensures currentUserId == old(currentUserId) && currentUserRole == old(currentUserRole)
      ensures uiState == match outcome
                         case Success(t) =>
                           old(uiState).(transaction := Some(t),
                                         canCancel := CanCancelTransaction(t, parse(t.createdAt), now,
                                                                           old(currentUserId), old(currentUserRole)),
                                         isLoading := false, error := None)
                         case Error(m) =>
                           old(uiState).(isLoading := false, error := Some(MessageOr(m, LoadTransactionFailed)))
    {
      match outcome {
        case Success(t) =>
          var canCancel := CanCancelTransaction(t, parse(t.createdAt), now, currentUserId, currentUserRole);
          uiState := uiState.(transaction := Some(t), canCancel := canCancel, isLoading := false, error := None);
        case Error(m) =>
          uiState := uiState.(isLoading := false, error := Some(MessageOr(m, LoadTransactionFailed)));
      }
    }

    /** `cancelTransaction`: a success marks the screen cancelled and shows
        the server's copy; a failure only reports. */
    method CancelTransaction(outcome: Resource<Transaction>)
      modifies this
      ensures currentUserId == old(currentUserId) && currentUserRole == old(currentUserRole)
      ensures uiState == match outcome
                         case Success(t) => old(uiState).(isLoading := false, isCancelled := true, transaction := Some(t))
                         case Error(m) =>
                           old(uiState).(isLoading := false, error := Some(MessageOr(m, CancelTransactionFailed)))
    {
      uiState := uiState.(isLoading := true);
      match outcome {
        case Success(t) =>
          uiState := uiState.(isLoading := false, isCancelled := true, transaction := Some(t));
        case Error(m) =>
          uiState := uiState.(isLoading := false, error := Some(MessageOr(m, CancelTransactionFailed)));
      }
    }
  }
}
