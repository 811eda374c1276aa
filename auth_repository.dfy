/** AuthRepositoryImpl: sign-in against the identity server, the current
    user, and the token refresh. Each remote call's reply is a parameter;
    every method also returns its steps in order, the remote calls it made
    and the writes to the token store, so that which calls happen and when
    the tokens change is part of the contract. */
module AuthRepository {
  import opened Outcomes
  import opened Models
  import opened Tokens

  /** One step of an auth operation: a call on `AuthApi`, or a write to the
      token store. `AuthApi` is built on the client that has only the
      connectivity and logging interceptors (NetworkModule.kt:44-54, 98), and
      `getCurrentUser()` declares no header (AuthApi.kt:28-29), so the user
      call carries no token of its own: what it can rely on is only which
      tokens were stored before it. */
  datatype AuthStep =
    | LoginCall(username: string, password: string)
    | UserCall
    | RefreshCall(refreshToken: string)
    | TokensSaved(accessToken: string, refreshToken: string)
    | TokensCleared

  /** The message for a failed sign-in: each message names one kind of
      failure, and a server error carries the status code. */
  function LoginError<T>(failure: RemoteOutcome<T>): (m: Msg)
    ensures m == InvalidCredentials <==> failure == Http(401)
    ensures m == AccessDenied <==> failure == Http(403)
    ensures m.ServerError? <==> failure.Http? && failure.code != 401 && failure.code != 403
    ensures m.ServerError? ==> m.code == failure.code
    ensures m == NoConnection <==> failure.NoConnectivity?
    ensures m == NetworkTryLater <==> failure.Io?
    ensures m == Unexpected <==> failure.Ok? || failure.Other?
  {
    match failure
    case Http(code) => if code == 401 then InvalidCredentials else if code == 403 then AccessDenied else ServerError(code)
    case NoConnectivity => NoConnection
    case Io => NetworkTryLater
    case _ => Unexpected
  }

  /** Different sign-in failures never share a message: 401, 403, each other
      status, no connectivity and other network errors are told apart. */
  lemma LoginErrorsDistinct<T>(a: RemoteOutcome<T>, b: RemoteOutcome<T>)
    requires !a.Ok? && !b.Ok?
    requires LoginError(a) == LoginError(b)
    ensures a == b
  {
  }

  class AuthRepositoryImpl {
    const tokenManager: TokenManager

    constructor(tokenManager: TokenManager)
      ensures this.tokenManager == tokenManager
    {
      this.tokenManager := tokenManager;
    }

    /** `login`: the tokens are stored as soon as the server grants them,
        before the user is fetched, and stay stored if that fetch fails. */
    method Login(username: string, password: string, tokenReply: RemoteOutcome<TokenResponse>,
                 userReply: RemoteOutcome<User>)
      returns (r: Resource<User>, steps: seq<AuthStep>)
      modifies tokenManager
      ensures tokenReply.Ok? ==>
                && tokenManager.prefs == Saved(old(tokenManager.prefs), tokenReply.value.accessToken, tokenReply.value.refreshToken)
                && Lookup(tokenManager.prefs, AccessTokenKey) == Some(tokenReply.value.accessToken)
                && steps == [LoginCall(username, password),
                             TokensSaved(tokenReply.value.accessToken, tokenReply.value.refreshToken),
                             UserCall]
                && r == if userReply.Ok? then Success(userReply.value) else Error(Some(LoginError(userReply)))
      ensures !tokenReply.Ok? ==>
                && tokenManager.prefs == old(tokenManager.prefs)
                && steps == [LoginCall(username, password)]
                && r == Error(Some(LoginError(tokenReply)))
    {
      steps := [LoginCall(username, password)];
      if !tokenReply.Ok? {
        return Error(Some(LoginError(tokenReply))), steps;
      }
      var tokens := tokenReply.value;
      tokenManager.SaveTokens(tokens.accessToken, tokens.refreshToken);
      SaveThenRead(old(tokenManager.prefs), tokens.accessToken, tokens.refreshToken);
      steps := steps + [TokensSaved(tokens.accessToken, tokens.refreshToken), UserCall];
      if userReply.Ok? {
        r := Success(userReply.value);
      } else {
        r := Error(Some(LoginError(userReply)));
      }
    }

    /** `logout`. */
    method Logout()
      modifies tokenManager
      ensures tokenManager.prefs == Cleared(old(tokenManager.prefs))
    {
      tokenManager.ClearTokens();
    }

    /** `isLoggedIn`. */
    function IsLoggedIn(): (b: bool)
      reads this, tokenManager
      ensures b <==> tokenManager.GetAccessToken().Some?
    {
      tokenManager.IsLoggedIn()
    }

    /** `refreshToken`: without a stored refresh token nothing is called and
        nothing changes; otherwise a success stores the new pair and any
        failure clears both tokens. */
    method RefreshToken(reply: RemoteOutcome<TokenResponse>) returns (r: Resource<()>, steps: seq<AuthStep>)
      modifies tokenManager
      ensures Lookup(old(tokenManager.prefs), RefreshTokenKey).None? ==>
                r == Error(Some(NoRefreshToken)) && steps == [] && tokenManager.prefs == old(tokenManager.prefs)
      ensures Lookup(old(tokenManager.prefs), RefreshTokenKey).Some? && reply.Ok? ==>
                && r == Success(())
                && steps == [RefreshCall(old(tokenManager.prefs)[RefreshTokenKey]),
                             TokensSaved(reply.value.accessToken, reply.value.refreshToken)]
                && tokenManager.prefs == Saved(old(tokenManager.prefs), reply.value.accessToken, reply.value.refreshToken)
      ensures Lookup(old(tokenManager.prefs), RefreshTokenKey).Some? && !reply.Ok? ==>
                && r == Error(Some(RefreshFailed))
                && steps == [RefreshCall(old(tokenManager.prefs)[RefreshTokenKey]), TokensCleared]
                && tokenManager.prefs == Cleared(old(tokenManager.prefs))
    {
      var refresh := tokenManager.GetRefreshToken();
      if refresh.None? {
        return Error(Some(NoRefreshToken)), [];
      }
      steps := [RefreshCall(refresh.value)];
      if reply.Ok? {
        tokenManager.SaveTokens(reply.value.accessToken, reply.value.refreshToken);
        steps := steps + [TokensSaved(reply.value.accessToken, reply.value.refreshToken)];
        r := Success(());
      } else {
        r := Error(Some(RefreshFailed));
        tokenManager.ClearTokens();
        steps := steps + [TokensCleared];
      }
    }

    /** `getCurrentUser`: a 401 triggers one refresh and, only if it
        succeeds, one retry once the new tokens are stored; any other status
        fails at once without a refresh. */
    method GetCurrentUser(first: RemoteOutcome<User>, refreshReply: RemoteOutcome<TokenResponse>,
                          retry: RemoteOutcome<User>)
      returns (r: Resource<User>, steps: seq<AuthStep>)
      modifies tokenManager
      ensures 1 <= |steps| <= 4 && steps[0] == UserCall
      ensures first.Ok? ==> r == Success(first.value) && steps == [UserCall] && tokenManager.prefs == old(tokenManager.prefs)
      ensures first.Http? && first.code != 401 ==>
                r == Error(Some(UserDataFailed)) && steps == [UserCall] && tokenManager.prefs == old(tokenManager.prefs)
      ensures !first.Ok? && !first.Http? ==>
                r == Error(Some(Failed)) && steps == [UserCall] && tokenManager.prefs == old(tokenManager.prefs)
      ensures first == Http(401) && Lookup(old(tokenManager.prefs), RefreshTokenKey).None? ==>
                r == Error(Some(NoRefreshToken)) && steps == [UserCall] && tokenManager.prefs == old(tokenManager.prefs)
      ensures first == Http(401) && Lookup(old(tokenManager.prefs), RefreshTokenKey).Some? && !refreshReply.Ok? ==>
                && r == Error(Some(RefreshFailed))
                && steps == [UserCall, RefreshCall(old(tokenManager.prefs)[RefreshTokenKey]), TokensCleared]
                && tokenManager.prefs == Cleared(old(tokenManager.prefs))
      ensures first == Http(401) && Lookup(old(tokenManager.prefs), RefreshTokenKey).Some? && refreshReply.Ok? ==>
                && r == (if retry.Ok? then Success(retry.value) else Error(Some(UserFetchFailed)))
                && steps == [UserCall, RefreshCall(old(tokenManager.prefs)[RefreshTokenKey]),
                             TokensSaved(refreshReply.value.accessToken, refreshReply.value.refreshToken), UserCall]
                && tokenManager.prefs == Saved(old(tokenManager.prefs), refreshReply.value.accessToken,
                                               refreshReply.value.refreshToken)
    {
      steps := [UserCall];
      match first {
        case Ok(user) =>
          r := Success(user);
        case Http(code) =>
          if code == 401 {
            var refreshed, refreshSteps := RefreshToken(refreshReply);
            steps := steps + refreshSteps;
            match refreshed {
              case Success(_) =>
                steps := steps + [UserCall];
                r := if retry.Ok? then Success(retry.value) else Error(Some(UserFetchFailed));
              case Error(m) =>
                r := Error(Some(MessageOr(m, AuthorizationFailed)));
            }
          } else {
            r := Error(Some(UserDataFailed));
          }
        case _ =>
          r := Error(Some(Failed));
      }
    }
  }
}
