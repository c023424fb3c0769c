/** `grant_access?`: a guest holding the order's token may see it; otherwise
    the current session's user must own it. The session lookup is the
    authentication library's, so its result is a parameter. */
module Access {
  import opened Wrappers
  import opened OrderTypes

  /** The token branch: a token was given and equals the order's token. */
  predicate TokenGrants(token: Option<string>, orderToken: string)
  {
    token.Some? && token.value == orderToken
  }

  /** `session` is the user of the current session, None when there is no session. */
  function GrantAccess(token: Option<string>, orderToken: string,
                       session: Option<UserId>, owner: Option<UserId>): (r: bool)
    ensures r <==> TokenGrants(token, orderToken) || (session.Some? && session == owner)
  {
    if TokenGrants(token, orderToken) then true
    else if session.None? then false
    else Some(session.value) == owner
  }

  /** The matching token grants access whatever the session. */
  lemma MatchingTokenGrants(orderToken: string, session: Option<UserId>, owner: Option<UserId>)
    ensures GrantAccess(Some(orderToken), orderToken, session, owner)
  {
  }

  /** Without a session, access is granted exactly when the given token is the order's. */
  lemma WithoutSessionOnlyTokenGrants(token: Option<string>, orderToken: string, owner: Option<UserId>)
    ensures GrantAccess(token, orderToken, None, owner) <==> token == Some(orderToken)
  {
  }

  /** A missing or wrong token falls back to the session: access exactly when
      the session's user owns the order. */
  lemma WrongTokenFallsBackToOwner(token: Option<string>, orderToken: string,
                                   session: Option<UserId>, owner: Option<UserId>)
    requires token != Some(orderToken)
    ensures GrantAccess(token, orderToken, session, owner) <==> session.Some? && owner == session
  {
  }
}
