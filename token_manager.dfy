/** TokenManager: the two OAuth tokens kept in the app's DataStore
    preferences, a string-to-string map shared with other settings. */
module Tokens {
  import opened Outcomes

  const AccessTokenKey := "access_token"
  const RefreshTokenKey := "refresh_token"

  function Lookup(prefs: map<string, string>, key: string): (v: Option<string>)
    ensures v.Some? <==> key in prefs
    ensures v.Some? ==> v.value == prefs[key]
  {
    if key in prefs then Some(prefs[key]) else None
  }

  /** The preferences after `saveTokens(access, refresh)`. */
  function Saved(prefs: map<string, string>, access: string, refresh: string): map<string, string>
  {
    prefs[AccessTokenKey := access][RefreshTokenKey := refresh]
  }

  /** The preferences after `clearTokens`. */
  function Cleared(prefs: map<string, string>): map<string, string>
  {
    prefs - {AccessTokenKey, RefreshTokenKey}
  }

  /** `isLoggedIn`: an access token is stored. */
  predicate LoggedIn(prefs: map<string, string>)
  {
    Lookup(prefs, AccessTokenKey).Some?
  }

  /** Saving and then reading gives back the saved tokens, and the user
      counts as logged in. */
  lemma SaveThenRead(prefs: map<string, string>, access: string, refresh: string)
    ensures Lookup(Saved(prefs, access, refresh), AccessTokenKey) == Some(access)
    ensures Lookup(Saved(prefs, access, refresh), RefreshTokenKey) == Some(refresh)
    ensures LoggedIn(Saved(prefs, access, refresh))
  {
    assert AccessTokenKey != RefreshTokenKey by {
      assert AccessTokenKey[0] != RefreshTokenKey[0];
    }
  }

  /** After clearing, neither token can be read and no one is logged in. */
  lemma ClearThenRead(prefs: map<string, string>)
    ensures Lookup(Cleared(prefs), AccessTokenKey) == None
    ensures Lookup(Cleared(prefs), RefreshTokenKey) == None
    ensures !LoggedIn(Cleared(prefs))
  {
  }

  /** Saving and clearing touch the two token keys and no other
      preference. */
  lemma OnlyTokenKeysChange(prefs: map<string, string>, access: string, refresh: string, key: string)
    requires key != AccessTokenKey && key != RefreshTokenKey
    ensures Lookup(Saved(prefs, access, refresh), key) == Lookup(prefs, key)
    ensures Lookup(Cleared(prefs), key) == Lookup(prefs, key)
  {
  }

  /** A later save replaces an earlier one completely. */
  lemma SaveOverwrites(prefs: map<string, string>, a1: string, r1: string, a2: string, r2: string)
    ensures Saved(Saved(prefs, a1, r1), a2, r2) == Saved(prefs, a2, r2)
  {
    assert AccessTokenKey != RefreshTokenKey by {
      assert AccessTokenKey[0] != RefreshTokenKey[0];
    }
  }

  class TokenManager {
    var prefs: map<string, string>

    constructor(initial: map<string, string>)
      ensures prefs == initial
    {
      prefs := initial;
    }

    /** `saveTokens`. */
    method SaveTokens(access: string, refresh: string)
      modifies this
      ensures prefs == Saved(old(prefs), access, refresh)
    {
      prefs := prefs[AccessTokenKey := access];
      prefs := prefs[RefreshTokenKey := refresh];
    }

    /** `getAccessToken`: the stored access token, or null when there is
        none. */
    function GetAccessToken(): (t: Option<string>)
      reads this
      ensures t.Some? <==> AccessTokenKey in prefs
      ensures t.Some? ==> t.value == prefs[AccessTokenKey]
    {
      Lookup(prefs, AccessTokenKey)
    }

    /** `getRefreshToken`: the stored refresh token, or null when there is
        none. */
    function GetRefreshToken(): (t: Option<string>)
      reads this
      ensures t.Some? <==> RefreshTokenKey in prefs
      ensures t.Some? ==> t.value == prefs[RefreshTokenKey]
    {
      Lookup(prefs, RefreshTokenKey)
    }

    /** `isLoggedIn`. */
    function IsLoggedIn(): (b: bool)
      reads this
      ensures b <==> AccessTokenKey in prefs
    {
      GetAccessToken() != None
    }

    /** `clearTokens`. */
    method ClearTokens()
      modifies this
      ensures prefs == Cleared(old(prefs))
    {
      prefs := prefs - {AccessTokenKey};
      prefs := prefs - {RefreshTokenKey};
    }
  }
}
