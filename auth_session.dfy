/** The session hook: the session and loading flags, the transitions on auth
    events, signing out, the handling of auth errors, and the effect that
    subscribes to auth events on mount and stops listening on cleanup. The
    auth service's answers are inputs; browser storage, the query cache and
    the address bar are fields of the hook's state. */
module AuthSession {
  import opened Common

  const RefreshTokenNotFound: string := "refresh_token_not_found"
  const InvalidRefreshToken: string := "invalid refresh token"
  const SignOutNetworkMessage: string :=
    "Network " + "connection " + "error. " + "Please " + "check " + "your " + "connection " + "and " + "try " + "again."

  datatype Session = Session(userId: string)

  /** The auth events the hook tells apart; every other event name is
      `OtherEvent`. */
  datatype AuthEvent = SignedIn | SignedOut | TokenRefreshed | OtherEvent(name: string)

  /** One call of the auth listener: the event and the session it carries. */
  datatype Delivery = Delivery(event: AuthEvent, session: Option<Session>)

  datatype Toast = Toast(title: string, description: string)

  // ---------------------------------------------------------------------------
  // Pure parts of the transitions

  /** The session after an event: none after SIGNED_OUT, the event's session
      after any other event. */
  function SessionAfter(d: Delivery): (s: Option<Session>)
    ensures d.event.SignedOut? ==> s.None?
    ensures !d.event.SignedOut? ==> s == d.session
  {
    if d.event.SignedOut? then None else d.session
  }

  /** The session after a run of events delivered to a mounted hook. */
  function Replay(current: Option<Session>, ds: seq<Delivery>): Option<Session>
    decreases |ds|
  {
    if ds == [] then current else Replay(SessionAfter(ds[0]), ds[1..])
  }

  /** The session only ever reflects the last event: earlier events and the
      session before them leave no trace. */
  lemma {:induction false} ReplayIsLastDelivery(current: Option<Session>, ds: seq<Delivery>)
    ensures Replay(current, ds) == if ds == [] then current else SessionAfter(ds[|ds| - 1])
    decreases |ds|
  {
    if |ds| > 1 {
      ReplayIsLastDelivery(SessionAfter(ds[0]), ds[1..]);
      assert ds[1..][|ds[1..]| - 1] == ds[|ds| - 1];
    }
  }

  /** The description of the sign-out error toast: the network message when
      the error mentions "502", the error's own message otherwise. */
  function SignOutErrorDescription(message: string): (d: string)
    ensures Contains(message, "502") ==> d == SignOutNetworkMessage
    ensures !Contains(message, "502") ==> d == message
  {
    if Contains(message, "502") then SignOutNetworkMessage else message
  }

  /** The errors `handleAuthError` answers by signing out. */
  predicate IsRefreshFailure(message: string) {
    Contains(message, RefreshTokenNotFound) || Contains(message, InvalidRefreshToken)
  }

  /** What `getSession` answers when the session is initialised. */
  datatype SessionReply = ReplyError(message: string) | Current(session: Option<Session>) | Unexpected

  // ---------------------------------------------------------------------------
  // The hook's state

  class AuthSessionHook {
    var session: Option<Session>
    var loading: bool
    var mounted: bool
    var subscribed: bool
    var queryCache: seq<string>
    var localItems: map<string, string>
    var sessionItems: map<string, string>
    var location: Option<string>
    var toasts: seq<Toast>

    /** The first render: no session yet, loading. */
    constructor(queryCache: seq<string>, localItems: map<string, string>, sessionItems: map<string, string>)
      ensures session.None? && loading && !mounted && !subscribed
      ensures this.queryCache == queryCache && this.localItems == localItems && this.sessionItems == sessionItems
      ensures location.None? && toasts == []
    {
      session := None;
      loading := true;
      mounted := false;
      subscribed := false;
      this.queryCache := queryCache;
      this.localItems := localItems;
      this.sessionItems := sessionItems;
      location := None;
      toasts := [];
    }

    /** The effect: `mounted` is set and the auth listener subscribed. */
    method Mount()
      modifies this
      ensures mounted && subscribed
      ensures session == old(session) && loading == old(loading) && queryCache == old(queryCache)
      ensures localItems == old(localItems) && sessionItems == old(sessionItems)
      ensures location == old(location) && toasts == old(toasts)
    {
      mounted := true;
      subscribed := true;
    }

    /** The effect's cleanup: later events and answers are ignored and the
        listener is unsubscribed. */
    method Cleanup()
      modifies this
      ensures !mounted && !subscribed
      ensures session == old(session) && loading == old(loading) && queryCache == old(queryCache)
      ensures localItems == old(localItems) && sessionItems == old(sessionItems)
      ensures location == old(location) && toasts == old(toasts)
    {
      mounted := false;
      subscribed := false;
    }

    /** The auth listener: nothing after cleanup; otherwise SIGNED_OUT drops
        the session, clears the query cache and goes to "/", SIGNED_IN takes
        the event's session and goes to "/", and any other event takes the
        event's session. */
    method OnAuthStateChange(d: Delivery)
      modifies this
      ensures !old(mounted) ==> session == old(session) && queryCache == old(queryCache) && location == old(location)
      ensures old(mounted) ==> session == SessionAfter(d)
      ensures old(mounted) && d.event.SignedOut? ==> queryCache == []
      ensures !(old(mounted) && d.event.SignedOut?) ==> queryCache == old(queryCache)
      ensures old(mounted) && (d.event.SignedOut? || d.event.SignedIn?) ==> location == Some("/")
      ensures !(old(mounted) && (d.event.SignedOut? || d.event.SignedIn?)) ==> location == old(location)
      ensures loading == old(loading) && mounted == old(mounted) && subscribed == old(subscribed)
      ensures localItems == old(localItems) && sessionItems == old(sessionItems) && toasts == old(toasts)
    {
      if !mounted {
        return;
      }
      if d.event.SignedOut? {
        session := None;
        queryCache := [];
        location := Some("/");
      } else if d.event.SignedIn? {
        session := d.session;
        location := Some("/");
      } else {
        session := d.session;
      }
    }

    /** `handleSignOut`: clear the query cache, clear both storages unless
        told not to, sign out, and on success drop the session and go to
        "/login"; a sign-out error shows a toast instead. Loading ends false
        either way. */
    method HandleSignOut(skipStorageClear: bool, signOutError: Option<string>)
      modifies this
      ensures !loading
      ensures queryCache == []
      ensures skipStorageClear ==> localItems == old(localItems) && sessionItems == old(sessionItems)
      ensures !skipStorageClear ==> localItems == map[] && sessionItems == map[]
      ensures signOutError.None? ==> session.None? && location == Some("/login") && toasts == old(toasts)
      ensures signOutError.Some? ==>
                session == old(session) && location == old(location)
                && toasts == old(toasts) + [Toast("Error signing out", SignOutErrorDescription(signOutError.value))]
      ensures mounted == old(mounted) && subscribed == old(subscribed)
    {
      loading := true;
      queryCache := [];
      if !skipStorageClear {
        localItems := map[];
        sessionItems := map[];
      }
      if signOutError.Some? {
        toasts := toasts + [Toast("Error signing out", SignOutErrorDescription(signOutError.value))];
      } else {
        session := None;
        location := Some("/login");
      }
      loading := false;
    }

    /** `handleAuthError`: a refresh-token failure signs out keeping the
        storages and shows "Session Expired"; any other error only shows its
        message. */
    method HandleAuthError(message: string, signOutError: Option<string>)
      modifies this
      ensures IsRefreshFailure(message) ==>
                !loading && queryCache == [] && localItems == old(localItems) && sessionItems == old(sessionItems)
                && (signOutError.None? ==> session.None? && location == Some("/login"))
                && (signOutError.Some? ==> session == old(session) && location == old(location))
                && toasts == old(toasts)
                             + (if signOutError.Some? then [Toast("Error signing out", SignOutErrorDescription(signOutError.value))] else [])
                             + [Toast("Session Expired", "Please sign in again")]
      ensures !IsRefreshFailure(message) ==>
                session == old(session) && loading == old(loading) && queryCache == old(queryCache)
                && localItems == old(localItems) && sessionItems == old(sessionItems) && location == old(location)
                && toasts == old(toasts) + [Toast("Authentication Error", message)]
      ensures mounted == old(mounted) && subscribed == old(subscribed)
    {
      if IsRefreshFailure(message) {
        HandleSignOut(true, signOutError);
        toasts := toasts + [Toast("Session Expired", "Please sign in again")];
      } else {
        toasts := toasts + [Toast("Authentication Error", message)];
      }
    }

    /** `initializeSession`: an error goes to `handleAuthError` whether or not
        the hook is still mounted; a session (or none) is taken and loading
        ends only while mounted; an unexpected failure ends loading only while
        mounted. */
    method InitializeSession(reply: SessionReply, signOutError: Option<string>)
      modifies this
      ensures reply.Current? && old(mounted) ==> session == reply.session && !loading
      ensures reply.Unexpected? && old(mounted) ==> session == old(session) && !loading
      ensures (reply.Current? || reply.Unexpected?) && !old(mounted) ==>
                session == old(session) && loading == old(loading)
      ensures !reply.ReplyError? ==>
                queryCache == old(queryCache) && localItems == old(localItems) && sessionItems == old(sessionItems)
                && location == old(location) && toasts == old(toasts)
      ensures reply.ReplyError? && !IsRefreshFailure(reply.message) ==>
                session == old(session) && loading == old(loading)
                && toasts == old(toasts) + [Toast("Authentication Error", reply.message)]
      ensures reply.ReplyError? && IsRefreshFailure(reply.message) ==>
                !loading && localItems == old(localItems) && sessionItems == old(sessionItems)
                && |toasts| > 0 && toasts[|toasts| - 1] == Toast("Session Expired", "Please sign in again")
      ensures mounted == old(mounted) && subscribed == old(subscribed)
    {
      match reply
      case ReplyError(m) =>
        HandleAuthError(m, signOutError);
      case Current(s) =>
        if mounted {
          session := s;
          loading := false;
        }
      case Unexpected =>
        if mounted {
          loading := false;
        }
    }
  }
}
