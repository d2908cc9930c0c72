/**
 * The module-level token cache of app/composables/useAuth.ts and the three operations
 * that read and write it. The requests `getToken`, `login` and `logout` make (`$fetch`,
 * the session refresh and clear, navigation) are outside the model: their outcomes are
 * inputs.
 */
module Auth {
  import opened Common

  /** What `$fetch('/api/user')` gives: a session (maybe without a token), nothing, or an error. */
  datatype SessionReply = Session(token: Option<string>) | NoSession | LookupFailed

  /** How an awaited request that gives nothing the model needs ends. */
  datatype Step = Completed | Threw

  /** `session?.token || null`: a non-empty token, or null. */
  function TokenOf(reply: SessionReply): (t: Option<string>)
    requires !reply.LookupFailed?
    ensures t.Some? <==> reply.Session? && TruthyText(reply.token)
    ensures t.Some? ==> t == reply.token
  {
    if reply.Session? && TruthyText(reply.token) then reply.token else None
  }

  /** The token `getToken` resolves from the cached value and the session lookup it may make. */
  function ResolvedToken(cached: Option<string>, lookup: SessionReply): Option<string> {
    if TruthyText(cached) then cached
    else if lookup.LookupFailed? then None
    else TokenOf(lookup)
  }

  /** How `logout` ends. */
  datatype LogoutOutcome = RequestThrew | ClearThrew | NavigatedTo(path: string)

  class TokenCache {
    /** `token.value`: null, or the token last read from the session. */
    var token: Option<string>

    /** The cache never holds the empty token: every write goes through `|| null`. */
    ghost predicate Valid()
      reads this
    {
      token != Some("")
    }

    /** The ref starts as null. */
    constructor ()
      ensures Valid() && token.None?
    {
      token := None;
    }

    /**
     * `getToken`: a cached token is returned without a lookup; on a miss the session's token
     * (or null) is stored and returned; a failed lookup returns null and stores nothing.
     */
    method GetToken(lookup: SessionReply) returns (t: Option<string>, lookedUp: bool)
      requires Valid()
      modifies this
      ensures Valid()
      ensures t == ResolvedToken(old(token), lookup)
      ensures lookedUp <==> !TruthyText(old(token))
      ensures TruthyText(old(token)) ==> token == old(token)
      ensures !TruthyText(old(token)) && !lookup.LookupFailed? ==> token == TokenOf(lookup) && t == token
      ensures !TruthyText(old(token)) && lookup.LookupFailed? ==> token == old(token) && t.None?
    {
      if TruthyText(token) {
        return token, false;
      }
      lookedUp := true;
      if lookup.LookupFailed? {
        t := None;
      } else {
        token := TokenOf(lookup);
        t := token;
      }
    }

    /**
     * `login`: after the login request, the session refresh and the session read all
     * complete, the cache holds the session's token or null; if any of them throws the
     * error propagates and the cache is as it was.
     */
    method Login(request: Step, refresh: Step, lookup: SessionReply) returns (ok: bool)
      requires Valid()
      modifies this
      ensures Valid()
      ensures ok <==> request.Completed? && refresh.Completed? && !lookup.LookupFailed?
      ensures ok ==> token == TokenOf(lookup)
      ensures !ok ==> token == old(token)
    {
      if request.Threw? || refresh.Threw? || lookup.LookupFailed? {
        return false;
      }
      token := TokenOf(lookup);
      ok := true;
    }

    /**
     * `logout`: the cache is emptied once the logout request completes, before the session
     * is cleared and `/login` is shown; a failing request leaves the cache as it was.
     */
    method Logout(request: Step, clear: Step) returns (outcome: LogoutOutcome)
      requires Valid()
      modifies this
      ensures Valid()
      ensures request.Threw? ==> outcome == RequestThrew && token == old(token)
      ensures request.Completed? ==> token.None?
      ensures request.Completed? ==> outcome == if clear.Threw? then ClearThrew else NavigatedTo("/login")
    {
      if request.Threw? {
        return RequestThrew;
      }
      token := None;
      if clear.Threw? {
        return ClearThrew;
      }
      outcome := NavigatedTo("/login");
    }
  }

  /**
   * A cached token is served without asking the session again, and after a logout the next
   * `getToken` has to look the session up.
   */
  method CacheScenario(first: SessionReply, second: SessionReply)
    returns (firstLookedUp: bool, secondLookedUp: bool, afterLogoutLookedUp: bool, served: Option<string>)
    requires first.Session? && TruthyText(first.token)
    ensures firstLookedUp && !secondLookedUp && afterLogoutLookedUp
    ensures served == first.token
  {
    var cache := new TokenCache();
    var t;
    t, firstLookedUp := cache.GetToken(first);
    served, secondLookedUp := cache.GetToken(second);
    var outcome := cache.Logout(Completed, Completed);
    t, afterLogoutLookedUp := cache.GetToken(second);
  }
}
