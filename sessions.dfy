/** The session store: token validation with lazy eviction, and the hourly sweep. */
module Sessions {
  import opened Wire

  /** True when the session has expired at time now (Date.now() > expiresAt). */
  predicate Expired(s: Session, now: nat) {
    now > s.expiresAt
  }

  /** What verifyToken returns. A missing token field is never a key of the map. */
  function Lookup(sessions: map<Token, Session>, token: Option<Token>, now: nat): Option<Session> {
    if token.None? || token.value !in sessions then None
    else if Expired(sessions[token.value], now) then None
    else Some(sessions[token.value])
  }

  /** The session map after verifyToken: an expired entry that was looked up is deleted. */
  function AfterLookup(sessions: map<Token, Session>, token: Option<Token>, now: nat): map<Token, Session> {
    if token.Some? && token.value in sessions && Expired(sessions[token.value], now)
    then sessions - {token.value}
    else sessions
  }

  /** The session map after the sweep at time now. */
  function Live(sessions: map<Token, Session>, now: nat): map<Token, Session> {
    map t | t in sessions && !Expired(sessions[t], now) :: sessions[t]
  }

  /** The sweep never changes what a token validates to at the same instant:
      lazy eviction and the periodic sweep agree. */
  lemma SweepPreservesLookup(sessions: map<Token, Session>, token: Option<Token>, now: nat)
    ensures Lookup(Live(sessions, now), token, now) == Lookup(sessions, token, now)
  {
  }

  /** A lookup only removes what the sweep would remove anyway. */
  lemma LookupEvictsOnlyExpired(sessions: map<Token, Session>, token: Option<Token>, now: nat)
    ensures Live(AfterLookup(sessions, token, now), now) == Live(sessions, now)
    ensures Live(sessions, now).Keys <= AfterLookup(sessions, token, now).Keys <= sessions.Keys
  {
  }

  /** Once a session has expired it stays unusable: a token rejected at time now
      because it expired is rejected at every later time. */
  lemma ExpiryIsPermanent(sessions: map<Token, Session>, token: Token, now: nat, later: nat)
    requires token in sessions && Expired(sessions[token], now)
    requires now <= later
    ensures Lookup(sessions, Some(token), later) == None
    ensures token !in Live(sessions, later)
  {
  }
}
