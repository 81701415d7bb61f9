/**
 * The authentication store (src/store/auth.ts): the bearer token and the
 * profile of the logged-in user, both `null` until login.
 */
module Auth {
  import opened Wrappers

  /** The claims decoded from the access token; the user id is the `sub` claim. */
  datatype DecodedJwtPayload = DecodedJwtPayload(
    sub: int,
    username: string,
    role: string,
    fullName: Option<string>,
    storeId: Option<int>)

  /** The user as held in the store, with `id` in place of `sub`. */
  datatype StoredUserProfile = StoredUserProfile(
    id: int,
    username: string,
    role: string,
    fullName: Option<string>,
    storeId: Option<int>)

  /** The profile `setAuth` builds from the decoded claims. */
  function ProfileOf(p: DecodedJwtPayload): StoredUserProfile {
    StoredUserProfile(p.sub, p.username, p.role, p.fullName, p.storeId)
  }

  /** The claims a stored profile came from: `id` back into `sub`. */
  function ClaimsOf(u: StoredUserProfile): DecodedJwtPayload {
    DecodedJwtPayload(u.id, u.username, u.role, u.fullName, u.storeId)
  }

  /**
   * The mapping from claims to profile loses nothing: the profile's id is
   * the `sub` claim, and every claim can be read back from the profile.
   */
  lemma ProfileKeepsClaims(p: DecodedJwtPayload)
    ensures ProfileOf(p).id == p.sub
    ensures ClaimsOf(ProfileOf(p)) == p
    ensures forall q :: ProfileOf(q) == ProfileOf(p) ==> q == p
  {
    forall q | ProfileOf(q) == ProfileOf(p) ensures q == p {
      assert ClaimsOf(ProfileOf(q)) == q;
    }
  }

  class AuthStore {
    var token: Option<string>
    var user: Option<StoredUserProfile>

    /** The initial state: no token and no user. */
    constructor ()
      ensures token == None && user == None
    {
      token := None;
      user := None;
    }

    /**
     * Replaces the whole session: the token is stored verbatim and the user
     * is the profile built from the claims; nothing of the old state remains.
     */
    method SetAuth(newToken: string, decoded: DecodedJwtPayload)
      modifies this
      ensures token == Some(newToken)
      ensures user == Some(ProfileOf(decoded))
    {
      token := Some(newToken);
      user := Some(ProfileOf(decoded));
    }

    /** Clears the session; calling it again changes nothing more. */
    method Logout()
      modifies this
      ensures token == None && user == None
    {
      token := None;
      user := None;
    }
  }
}
