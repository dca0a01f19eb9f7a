/**
 * The browser's `localStorage`, reduced to the two keys the session code
 * uses. A missing key reads as `None` (`getItem` returns null).
 */
module Storage {
  import opened Wrappers

  datatype Key = AccessTokenKey | RefreshTokenKey

  /** The contents of the two slots. */
  datatype Tokens = Tokens(access: Option<string>, refresh: Option<string>)

  const NoTokens := Tokens(None, None)

  /** Both slots written, or both removed. */
  predicate Paired(t: Tokens) {
    t.access.Some? <==> t.refresh.Some?
  }

  /**
   * How `if (token)` reads a slot: a missing value and the empty string are
   * both false.
   */
  predicate Truthy(v: Option<string>)
    ensures Truthy(v) ==> v.Some?
  {
    v.Some? && v.value != ""
  }

  class LocalStorage {
    var accessToken: Option<string>
    var refreshToken: Option<string>

    constructor ()
      ensures Snapshot() == NoTokens
    {
      accessToken := None;
      refreshToken := None;
    }

    function Snapshot(): Tokens
      reads this
    {
      Tokens(accessToken, refreshToken)
    }

    function GetItem(key: Key): (v: Option<string>)
      reads this
      ensures v == (if key == AccessTokenKey then Snapshot().access else Snapshot().refresh)
    {
      match key
      case AccessTokenKey => accessToken
      case RefreshTokenKey => refreshToken
    }

    method SetItem(key: Key, value: string)
      modifies this
      ensures GetItem(key) == Some(value)
      ensures key == AccessTokenKey ==> refreshToken == old(refreshToken)
      ensures key == RefreshTokenKey ==> accessToken == old(accessToken)
    {
      match key
      case AccessTokenKey => accessToken := Some(value);
      case RefreshTokenKey => refreshToken := Some(value);
    }

    method RemoveItem(key: Key)
      modifies this
      ensures GetItem(key) == None
      ensures key == AccessTokenKey ==> refreshToken == old(refreshToken)
      ensures key == RefreshTokenKey ==> accessToken == old(accessToken)
    {
      match key
      case AccessTokenKey => accessToken := None;
      case RefreshTokenKey => refreshToken := None;
    }
  }
}
