/** The login hook: the guard on a blank member number, the sign-in with the
    derived credentials, the sign-up fallback for a first login, the session
    polling loop and the classification of the error shown to the member.
    Every answer of the auth service and the database is an input gathered in
    a `LoginWorld`; the tables written on sign-up are a `Tables` object. */
module LoginForm {
  import opened Common
  import opened AuthUtils
  import opened MemberUtils

  const MobileWidth: int := 768
  const SessionRetries: nat := 3
  const FailedToFetch: string := "Failed to fetch"
  const InvalidCredentials: string := "Invalid login credentials"
  const NoSessionMessage: string := "Failed to establish session"
  const NoSessionAfterSignUpMessage: string := "Failed to establish session after signup"
  const DefaultMessage: string := "An unexpected error occurred"

  /** The message a browser gives the ReferenceError raised by calling
      `updateMemberWithAuthId` without importing it. */
  const UpdateNotDefinedMessage: string := "update" + "M" + ("ember" + "With" + "AuthId" + " is" + " not" + " defined")

  // ---------------------------------------------------------------------------
  // The guard: `!memberNumber.trim()`

  /** The characters `String.prototype.trim` removes: white space and line
      terminators. */
  predicate IsTrimmed(c: char) {
    c == '\t' || c == '\n' || c == '\U{0B}' || c == '\U{0C}' || c == '\r' || c == ' '
    || c == '\U{A0}' || c == '\U{1680}' || ('\U{2000}' <= c <= '\U{200A}')
    || c == '\U{2028}' || c == '\U{2029}' || c == '\U{202F}' || c == '\U{205F}'
    || c == '\U{3000}' || c == '\U{FEFF}'
  }

  function TrimStart(s: string): (r: string)
    ensures |r| <= |s| && r == s[|s| - |r|..]
    ensures r != [] ==> !IsTrimmed(r[0])
    ensures forall i :: 0 <= i < |s| - |r| ==> IsTrimmed(s[i])
  {
    if s != [] && IsTrimmed(s[0]) then TrimStart(s[1..]) else s
  }

  function TrimEnd(s: string): (r: string)
    ensures |r| <= |s| && r == s[..|r|]
    ensures r != [] ==> !IsTrimmed(r[|r| - 1])
    ensures forall i :: |r| <= i < |s| ==> IsTrimmed(s[i])
  {
    if s != [] && IsTrimmed(s[|s| - 1]) then TrimEnd(s[..|s| - 1]) else s
  }

  function Trim(s: string): string {
    TrimEnd(TrimStart(s))
  }

  /** The guard's test: a member number trims to "" exactly when every one of
      its characters is white space or a line terminator. */
  lemma TrimEmptyIffBlank(s: string)
    ensures Trim(s) == [] <==> forall i :: 0 <= i < |s| ==> IsTrimmed(s[i])
  {
    var t := TrimStart(s);
    if Trim(s) == [] {
      assert t == [];
    }
  }

  // ---------------------------------------------------------------------------
  // The error classifier of the catch block

  /** The substrings the catch block looks for, in the order it tests them,
      each with the message it then shows. */
  const Rules: seq<(string, string)> := [
    ("Member not found", "Member number not found or inactive"),
    (InvalidCredentials, "Invalid member number. Please try again."),
    ("Email not confirmed", "Please verify your email before logging in"),
    (RefreshTokenNotFound, "Session expired. Please try logging in again."),
    (FailedToFetch, "Network error. Please check your connection and try again.")
  ]

  /** The first rule, from `from` on, whose substring the message contains. */
  function FirstRule(rules: seq<(string, string)>, message: string, from: nat): (r: Option<nat>)
    requires from <= |rules|
    decreases |rules| - from
    ensures r.Some? ==> from <= r.value < |rules| && Contains(message, rules[r.value].0)
    ensures r.Some? ==> forall j :: from <= j < r.value ==> !Contains(message, rules[j].0)
    ensures r.None? ==> forall j :: from <= j < |rules| ==> !Contains(message, rules[j].0)
  {
    if from == |rules| then None
    else if Contains(message, rules[from].0) then Some(from)
    else FirstRule(rules, message, from + 1)
  }

  /** The message shown for an error: that of the first matching rule, or the
      default one. */
  function ShownMessage(message: string): string {
    match FirstRule(Rules, message, 0)
    case Some(i) => Rules[i].1
    case None => DefaultMessage
  }

  /** The catch block's if-chain, which reassigns `errorMessage`. */
  method ClassifyLoginError(message: string) returns (errorMessage: string)
    ensures errorMessage == ShownMessage(message)
  {
    errorMessage := DefaultMessage;
    if Contains(message, Rules[0].0) {
      errorMessage := Rules[0].1;
    } else if Contains(message, InvalidCredentials) {
      errorMessage := Rules[1].1;
    } else if Contains(message, Rules[2].0) {
      errorMessage := Rules[2].1;
    } else if Contains(message, RefreshTokenNotFound) {
      errorMessage := Rules[3].1;
    } else if Contains(message, FailedToFetch) {
      errorMessage := Rules[4].1;
    }
  }

  /** A member who is not found sees the dedicated message. */
  lemma NotFoundIsRecognised()
    ensures ShownMessage(NotFoundMessage) == "Member number not found or inactive"
  {
    assert NotFoundMessage[0..|Rules[0].0|] == Rules[0].0;
    assert OccursAt(NotFoundMessage, Rules[0].0, 0);
  }

  /** A message that contains none of the five substrings is shown as the
      default message. */
  lemma NoRuleShowsDefault(message: string)
    requires !Contains(message, "Member not found") && !Contains(message, InvalidCredentials)
    requires !Contains(message, "Email not confirmed") && !Contains(message, RefreshTokenNotFound)
    requires !Contains(message, FailedToFetch)
    ensures ShownMessage(message) == DefaultMessage
  {
  }

  /** The network error that verifyMember gives up with, and that a failed
      fetch during sign-in is rewritten into, contains none of the
      substrings: the member sees the default message, not the network one. */
  lemma NetworkErrorShowsDefault()
    ensures ShownMessage(NetworkErrorMessage) == DefaultMessage
  {
    NetworkMisses("Member not found", 0);
    NetworkMisses(InvalidCredentials, 0);
    NetworkMisses("Email not confirmed", 0);
    NetworkMisses(RefreshTokenNotFound, 7);
    NetworkMisses(FailedToFetch, 0);
    NoRuleShowsDefault(NetworkErrorMessage);
  }

  /** The network error misses every pattern that has a character outside
      the message's alphabet. */
  lemma NetworkMisses(sub: string, k: nat)
    requires k < |sub| && !('a' <= sub[k] <= 'z') && sub[k] !in " .NP"
    ensures !Contains(NetworkErrorMessage, sub)
  {
    NetworkErrorAlphabet();
    NotContainsMissingChar(NetworkErrorMessage, sub, k);
  }

  // ---------------------------------------------------------------------------
  // The session check: at most three `getSession` calls

  /** One `getSession` answer. */
  datatype SessionPoll = PollError(message: string) | NoSession | Session(userId: string)

  /** The polling loop from `retryCount` on: the user of the first session
      found; when none is found, the error of a failing third call, or
      otherwise "Failed to establish session". */
  function SessionFrom(polls: seq<SessionPoll>, retryCount: nat): (r: Result<string, string>)
    requires retryCount <= SessionRetries <= |polls|
    decreases SessionRetries - retryCount
    ensures r.Ok? <==> exists k :: retryCount <= k < SessionRetries && polls[k].Session?
    ensures r.Ok? ==> exists k :: retryCount <= k < SessionRetries && polls[k] == Session(r.value)
                                  && forall j :: retryCount <= j < k ==> !polls[j].Session?
    ensures r.Err? ==> r.error == NoSessionMessage || polls[SessionRetries - 1] == PollError(r.error)
    ensures (forall k :: retryCount <= k < SessionRetries ==> !polls[k].Session?) ==>
              r == if retryCount < SessionRetries && polls[SessionRetries - 1].PollError?
                   then Err(polls[SessionRetries - 1].message)
                   else Err(NoSessionMessage)
  {
    if retryCount == SessionRetries then Err(NoSessionMessage)
    else match polls[retryCount]
      case Session(u) => Ok(u)
      case PollError(m) =>
        if retryCount + 1 == SessionRetries then Err(m) else SessionFrom(polls, retryCount + 1)
      case NoSession => SessionFrom(polls, retryCount + 1)
  }

  /** The `while (!session && retryCount < maxRetries)` loop. */
  method WaitForSession(polls: seq<SessionPoll>) returns (r: Result<string, string>)
    requires SessionRetries <= |polls|
    ensures r == SessionFrom(polls, 0)
  {
    var session: Option<string> := None;
    var retryCount: nat := 0;
    while session.None? && retryCount < SessionRetries
      invariant retryCount <= SessionRetries
      invariant session.None? && SessionFrom(polls, retryCount) == SessionFrom(polls, 0)
      decreases SessionRetries - retryCount
    {
      var poll := polls[retryCount];
      if poll.PollError? {
        retryCount := retryCount + 1;
        if retryCount == SessionRetries {
          return Err(poll.message);
        }
        continue;
      }
      if poll.Session? {
        session := Some(poll.userId);
        break;
      }
      retryCount := retryCount + 1;
    }
    if session.None? {
      return Err(NoSessionMessage);
    }
    r := Ok(session.value);
  }

  /** How the session check ends an attempt: success once a session is
      found, otherwise the error that ended the polling. */
  function SessionOutcome(polls: seq<SessionPoll>): (r: Result<(), string>)
    requires SessionRetries <= |polls|
    ensures r.Ok? <==> SessionFrom(polls, 0).Ok?
    ensures r.Err? ==> r.error == SessionFrom(polls, 0).error
  {
    match SessionFrom(polls, 0)
    case Err(m) => Err(m)
    case Ok(_) => Ok(())
  }

  /** Lines 88-117: the polling loop followed by the check that a session
      was found. */
  method CheckSession(polls: seq<SessionPoll>) returns (r: Result<(), string>)
    requires SessionRetries <= |polls|
    ensures r == SessionOutcome(polls)
  {
    var session := WaitForSession(polls);
    if session.Err? {
      return Err(session.error);
    }
    r := Ok(());
  }

  // ---------------------------------------------------------------------------
  // One login attempt, as a function of the answers it receives

  /** What the auth service and the database answer during one attempt. */
  datatype LoginWorld = LoginWorld(
    innerWidth: int,
    memberAttempts: seq<QueryAttempt>,
    signInError: Option<string>,
    signUpError: Option<string>,
    signUpUserId: Option<string>,
    updateError: Option<string>,
    lookupError: Option<string>,
    insertError: Option<string>,
    finalSignInError: Option<string>,
    finalSession: bool,
    retryError: Option<string>,
    sessionPolls: seq<SessionPoll>)

  predicate WellFormed(w: LoginWorld) {
    MaxRetries <= |w.memberAttempts| && SessionRetries <= |w.sessionPolls|
  }

  /** The calls an attempt makes to the auth service. */
  datatype AuthCall = ClearAuthState | SignIn(credentials: Credentials) | SignUp(credentials: Credentials, memberNumber: string)

  datatype Store = Store(members: map<string, MemberRow>, roles: seq<RoleRow>)

  /** The outcome of a stretch of the attempt: its result, the tables after
      it and the auth calls it made. */
  datatype Step = Step(result: Result<(), string>, store: Store, calls: seq<AuthCall>)

  /** Lines 63-64 as evidently intended: link the member row to the new user,
      then grant the user the member role. */
  function LinkNewUser(w: LoginWorld, memberId: string, userId: string, st: Store): (r: (Result<(), string>, Store))
    ensures r.0.Ok? <==> w.updateError.None? && w.lookupError.None?
                         && (RoleRow(userId, MemberRole) in st.roles || w.insertError.None?)
    ensures r.0.Ok? ==> r.1 == Store(SetAuthId(st.members, memberId, userId), WithMemberRole(st.roles, userId))
    ensures r.0.Err? ==> r.1.roles == st.roles
  {
    if w.updateError.Some? then (Err(w.updateError.value), st)
    else
      var members := SetAuthId(st.members, memberId, userId);
      if w.lookupError.Some? then (Err(w.lookupError.value), Store(members, st.roles))
      else if RoleRow(userId, MemberRole) !in st.roles && w.insertError.Some? then
        (Err(w.insertError.value), Store(members, st.roles))
      else (Ok(()), Store(members, WithMemberRole(st.roles, userId)))
  }

  /** The sign-up fallback after "Invalid login credentials" (lines 47-81),
      with the link of lines 63-64 made by `LinkNewUser`. */
  function FirstSignUp(w: LoginWorld, memberNumber: string, memberId: string, st: Store): Step {
    var creds := GetAuthCredentials(memberNumber);
    var signUp := [SignUp(creds, memberNumber)];
    if w.signUpError.Some? then Step(Err(w.signUpError.value), st, signUp)
    else if w.signUpUserId.None? then Step(Ok(()), st, signUp)
    else
      var link := LinkNewUser(w, memberId, w.signUpUserId.value, st);
      if link.0.Err? then Step(link.0, link.1, signUp)
      else if w.finalSignInError.Some? then Step(Err(w.finalSignInError.value), link.1, signUp + [SignIn(creds)])
      else if !w.finalSession then Step(Err(NoSessionAfterSignUpMessage), link.1, signUp + [SignIn(creds)])
      else Step(Ok(()), link.1, signUp + [SignIn(creds)])
  }

  /** Lines 47-81 as the file is written: neither `updateMemberWithAuthId`
      nor `addMemberRole` is imported, so once the sign-up has returned a
      user the call on line 63 raises a ReferenceError; nothing is written
      and no final sign-in happens. */
  function FirstSignUpAsWritten(w: LoginWorld, memberNumber: string, st: Store): Step {
    var signUp := [SignUp(GetAuthCredentials(memberNumber), memberNumber)];
    if w.signUpError.Some? then Step(Err(w.signUpError.value), st, signUp)
    else if w.signUpUserId.None? then Step(Ok(()), st, signUp)
    else Step(Err(UpdateNotDefinedMessage), st, signUp)
  }

  /** What follows a failed first sign-in (lines 38-85). */
  function SignInStep(w: LoginWorld, memberNumber: string, memberId: string, st: Store): Step {
    match w.signInError
    case None => Step(Ok(()), st, [])
    case Some(e) =>
      if Contains(e, FailedToFetch) then Step(Err(NetworkErrorMessage), st, [])
      else if Contains(e, InvalidCredentials) then FirstSignUp(w, memberNumber, memberId, st)
      else Step(SignInRecovery(e, w.retryError), st,
                if Contains(e, RefreshTokenNotFound) then [ClearAuthState, SignIn(GetAuthCredentials(memberNumber))] else [])
  }

  /** The part of an attempt after the member was found: the first
      sign-in, what follows it, and the session check (lines 33-117). */
  function SignInAndSession(w: LoginWorld, memberNumber: string, memberId: string, st: Store): Step
    requires WellFormed(w)
  {
    var s := SignInStep(w, memberNumber, memberId, st);
    var calls := [SignIn(GetAuthCredentials(memberNumber))] + s.calls;
    Step(if s.result.Err? then s.result else SessionOutcome(w.sessionPolls), s.store, calls)
  }

  /** One attempt from `clearAuthState` to the end of the session check
      (lines 25-117). */
  function Attempt(w: LoginWorld, memberNumber: string, st: Store): Step
    requires WellFormed(w)
  {
    var v := VerifyFrom(w.memberAttempts, 1);
    if v.result.Err? then Step(Err(v.result.error), st, [ClearAuthState])
    else
      var a := SignInAndSession(w, memberNumber, v.result.value.id, st);
      Step(a.result, a.store, [ClearAuthState] + a.calls)
  }

  /** Every sign-in and sign-up of an attempt uses the credentials derived
      from the member number, and the attempt starts by clearing the auth
      state. */
  lemma AttemptUsesDerivedCredentials(w: LoginWorld, memberNumber: string, st: Store)
    requires WellFormed(w)
    ensures Attempt(w, memberNumber, st).calls[0] == ClearAuthState
    ensures forall c :: c in Attempt(w, memberNumber, st).calls && !c.ClearAuthState? ==>
              c.credentials == GetAuthCredentials(memberNumber)
  {
  }

  /** A sign-up happens exactly when the member was found and the first
      sign-in failed with invalid credentials but not with a failed fetch;
      the fetch failure is tested first. */
  lemma SignUpOnlyForInvalidCredentials(w: LoginWorld, memberNumber: string, st: Store)
    requires WellFormed(w)
    ensures (exists c :: c in Attempt(w, memberNumber, st).calls && c.SignUp?) <==>
              VerifyFrom(w.memberAttempts, 1).result.Ok? && w.signInError.Some?
              && !Contains(w.signInError.value, FailedToFetch) && Contains(w.signInError.value, InvalidCredentials)
  {
    var creds := GetAuthCredentials(memberNumber);
    var v := VerifyFrom(w.memberAttempts, 1);
    if v.result.Ok? && w.signInError.Some? {
      var e := w.signInError.value;
      if !Contains(e, FailedToFetch) && Contains(e, InvalidCredentials) {
        var calls := Attempt(w, memberNumber, st).calls;
        assert calls[2] == SignUp(creds, memberNumber);
      }
    }
  }

  /** The tables change only on the sign-up path, and then only by linking
      the member that was found and granting the new user the member role. */
  lemma TablesChangeOnlyOnSignUp(w: LoginWorld, memberNumber: string, st: Store)
    requires WellFormed(w)
    ensures Attempt(w, memberNumber, st).store != st ==>
              VerifyFrom(w.memberAttempts, 1).result.Ok? && w.signUpError.None? && w.signUpUserId.Some?
              && Attempt(w, memberNumber, st).store.members
                 == SetAuthId(st.members, VerifyFrom(w.memberAttempts, 1).result.value.id, w.signUpUserId.value)
              && Attempt(w, memberNumber, st).store.roles[..|st.roles|] == st.roles
  {
    var v := VerifyFrom(w.memberAttempts, 1);
    if v.result.Ok? && w.signInError.Some? {
      var e := w.signInError.value;
      if !Contains(e, FailedToFetch) && Contains(e, InvalidCredentials) {
        FirstSignUpWrites(w, memberNumber, v.result.value.id, st);
      }
    }
  }

  /** The sign-up fallback writes only the link of the member that was found
      and the new user's role. */
  lemma FirstSignUpWrites(w: LoginWorld, memberNumber: string, memberId: string, st: Store)
    ensures FirstSignUp(w, memberNumber, memberId, st).store != st ==>
              w.signUpError.None? && w.signUpUserId.Some?
              && FirstSignUp(w, memberNumber, memberId, st).store.members == SetAuthId(st.members, memberId, w.signUpUserId.value)
              && FirstSignUp(w, memberNumber, memberId, st).store.roles[..|st.roles|] == st.roles
  {
  }

  /** A first login that goes through (every answer a success) links the
      member row to the new user, grants the member role and succeeds. */
  lemma FirstLoginLinksMember(w: LoginWorld, memberNumber: string, st: Store)
    requires WellFormed(w)
    requires VerifyFrom(w.memberAttempts, 1).result.Ok?
    requires w.signInError == Some(InvalidCredentials)
    requires w.signUpError.None? && w.signUpUserId.Some?
    requires w.updateError.None? && w.lookupError.None? && w.insertError.None?
    requires w.finalSignInError.None? && w.finalSession
    requires SessionFrom(w.sessionPolls, 0).Ok?
    ensures Attempt(w, memberNumber, st).result == Ok(())
    ensures var id := VerifyFrom(w.memberAttempts, 1).result.value.id;
            id in st.members ==>
              Attempt(w, memberNumber, st).store.members[id].authUserId == Some(w.signUpUserId.value)
    ensures RoleRow(w.signUpUserId.value, MemberRole) in Attempt(w, memberNumber, st).store.roles
  {
    InvalidCredentialsTakesSignUpPath();
  }

  /** The "Invalid login credentials" error is not a failed fetch, so it
      reaches the sign-up fallback. */
  lemma InvalidCredentialsTakesSignUpPath()
    ensures Contains(InvalidCredentials, InvalidCredentials)
    ensures !Contains(InvalidCredentials, FailedToFetch)
  {
    assert OccursAt(InvalidCredentials, InvalidCredentials, 0);
    NotContainsMissingChar(InvalidCredentials, FailedToFetch, 0);
  }

  /** As written, every first login whose sign-up returns a user fails with
      the ReferenceError, which the catch block shows as the default message,
      and leaves the member unlinked and without a role. */
  lemma AsWrittenFirstLoginFails(w: LoginWorld, memberNumber: string, st: Store)
    requires w.signUpError.None? && w.signUpUserId.Some?
    ensures FirstSignUpAsWritten(w, memberNumber, st).result == Err(UpdateNotDefinedMessage)
    ensures FirstSignUpAsWritten(w, memberNumber, st).store == st
    ensures ShownMessage(UpdateNotDefinedMessage) == DefaultMessage
  {
    UndefinedShowsDefault();
  }

  /** The characters of the ReferenceError's message; its only 'M' is the
      one after "update". */
  lemma UndefinedAlphabet()
    ensures forall c :: c in UpdateNotDefinedMessage ==> 'a' <= c <= 'u' || c in " AIMW"
    ensures 'M' !in "update" && 'M' !in "ember" + "With" + "AuthId" + " is" + " not" + " defined"
  {
  }

  /** "Member" occurs in the ReferenceError's message, but followed by
      "With", not by " not found". */
  lemma UndefinedMissesNotFound()
    ensures !Contains(UpdateNotDefinedMessage, "Member not found")
  {
    var b := "ember" + "With" + "AuthId" + " is" + " not" + " defined";
    UndefinedAlphabet();
    assert ("update" + "M" + b)[12] == b[5] == 'W';
    NotContainsPinned("update", 'M', b, "Member not found", 0, 6);
  }

  /** The ReferenceError's message contains none of the classifier's
      substrings. */
  lemma UndefinedShowsDefault()
    ensures ShownMessage(UpdateNotDefinedMessage) == DefaultMessage
  {
    UndefinedMissesNotFound();
    UndefinedMisses(InvalidCredentials, 2);
    UndefinedMisses("Email not confirmed", 0);
    UndefinedMisses(RefreshTokenNotFound, 7);
    UndefinedMisses(FailedToFetch, 0);
    NoRuleShowsDefault(UpdateNotDefinedMessage);
  }

  /** The ReferenceError's message misses every pattern that has a
      character outside the message's alphabet. */
  lemma UndefinedMisses(sub: string, k: nat)
    requires k < |sub| && !('a' <= sub[k] <= 'u') && sub[k] !in " AIMW"
    ensures !Contains(UpdateNotDefinedMessage, sub)
  {
    UndefinedAlphabet();
    NotContainsMissingChar(UpdateNotDefinedMessage, sub, k);
  }

  /** A sign-in that fails to fetch ends the attempt with the network error
      before any sign-up, and the member is shown the default message. */
  lemma FetchFailureEndsAttempt(w: LoginWorld, memberNumber: string, st: Store)
    requires WellFormed(w)
    requires VerifyFrom(w.memberAttempts, 1).result.Ok?
    requires w.signInError.Some? && Contains(w.signInError.value, FailedToFetch)
    ensures Attempt(w, memberNumber, st).result == Err(NetworkErrorMessage)
    ensures Attempt(w, memberNumber, st).store == st
    ensures ShownMessage(Attempt(w, memberNumber, st).result.error) == DefaultMessage
  {
    NetworkErrorShowsDefault();
  }

  // ---------------------------------------------------------------------------
  // The hook's state

  datatype Toast = Toast(title: string, description: string, destructive: bool)

  /** Where a successful login goes: `window.location.replace('/')` on a
      narrow window, the router's `navigate('/', { replace: true })`
      otherwise. */
  datatype Navigation = LocationReplace(path: string) | RouterNavigate(path: string)

  function LoginToast(result: Result<(), string>): (t: Toast)
    ensures t.destructive <==> result.Err?
    ensures result.Err? ==> t.description == ShownMessage(result.error)
  {
    match result
    case Ok(_) => Toast("Login successful", "Welcome back!", false)
    case Err(m) => Toast("Login failed", ShownMessage(m), true)
  }

  function HomeNavigation(w: LoginWorld): (n: Navigation)
    ensures n.path == "/"
    ensures n.LocationReplace? <==> w.innerWidth <= MobileWidth
  {
    if w.innerWidth <= MobileWidth then LocationReplace("/") else RouterNavigate("/")
  }

  class LoginFormHook {
    var memberNumber: string
    var loading: bool
    var toasts: seq<Toast>
    var navigations: seq<Navigation>
    var authCalls: seq<AuthCall>
    const tables: Tables

    constructor(tables: Tables)
      ensures memberNumber == [] && !loading && toasts == [] && navigations == [] && authCalls == []
      ensures this.tables == tables
    {
      memberNumber := [];
      loading := false;
      toasts := [];
      navigations := [];
      authCalls := [];
      this.tables := tables;
    }

    function Tables(): Store
      reads this, tables
    {
      Store(tables.members, tables.userRoles)
    }

    method SetMemberNumber(n: string)
      modifies this
      ensures memberNumber == n
      ensures loading == old(loading) && toasts == old(toasts) && navigations == old(navigations)
      ensures authCalls == old(authCalls)
    {
      memberNumber := n;
    }

    /** Lines 47-81 with the intended calls of lines 63-64. */
    method SignUpAndLink(w: LoginWorld, memberId: string) returns (r: Result<(), string>)
      modifies this, tables
      ensures var s := FirstSignUp(w, old(memberNumber), memberId, old(Tables()));
              r == s.result && Tables() == s.store && authCalls == old(authCalls) + s.calls
      ensures memberNumber == old(memberNumber) && loading == old(loading)
      ensures toasts == old(toasts) && navigations == old(navigations)
    {
      var creds := GetAuthCredentials(memberNumber);
      authCalls := authCalls + [SignUp(creds, memberNumber)];
      if w.signUpError.Some? {
        return Err(w.signUpError.value);
      }
      if w.signUpUserId.None? {
        return Ok(());
      }
      var userId := w.signUpUserId.value;
      r := tables.UpdateMemberWithAuthId(memberId, userId, w.updateError);
      if r.Err? {
        return;
      }
      var inserted;
      r, inserted := tables.AddMemberRole(userId, w.lookupError, w.insertError);
      if r.Err? {
        return;
      }
      authCalls := authCalls + [SignIn(creds)];
      if w.finalSignInError.Some? {
        return Err(w.finalSignInError.value);
      }
      if !w.finalSession {
        return Err(NoSessionAfterSignUpMessage);
      }
      r := Ok(());
    }

    /** Lines 38-85: what follows the first `signInWithPassword`. */
    method AfterSignIn(w: LoginWorld, memberId: string) returns (r: Result<(), string>)
      modifies this, tables
      ensures var s := SignInStep(w, old(memberNumber), memberId, old(Tables()));
              r == s.result && Tables() == s.store && authCalls == old(authCalls) + s.calls
      ensures memberNumber == old(memberNumber) && loading == old(loading)
      ensures toasts == old(toasts) && navigations == old(navigations)
    {
      if w.signInError.None? {
        return Ok(());
      }
      var e := w.signInError.value;
      if Contains(e, FailedToFetch) {
        return Err(NetworkErrorMessage);
      }
      if Contains(e, InvalidCredentials) {
        r := SignUpAndLink(w, memberId);
        return;
      }
      var retried;
      r, retried := HandleSignInError(e, w.retryError);
      if retried {
        authCalls := authCalls + [ClearAuthState, SignIn(GetAuthCredentials(memberNumber))];
      }
    }

    /** Lines 33-117: the first sign-in, what follows it, and the session
        check. */
    method SignInAndWait(w: LoginWorld, memberId: string) returns (result: Result<(), string>)
      requires WellFormed(w)
      modifies this, tables
      ensures var a := SignInAndSession(w, old(memberNumber), memberId, old(Tables()));
              result == a.result && Tables() == a.store && authCalls == old(authCalls) + a.calls
      ensures memberNumber == old(memberNumber) && loading == old(loading)
      ensures toasts == old(toasts) && navigations == old(navigations)
    {
      ghost var calls0 := authCalls;
      authCalls := authCalls + [SignIn(GetAuthCredentials(memberNumber))];
      ghost var s := SignInStep(w, memberNumber, memberId, Tables());
      result := AfterSignIn(w, memberId);
      AppendAssoc(calls0, [SignIn(GetAuthCredentials(memberNumber))], s.calls);
      if result.Err? {
        return;
      }
      result := CheckSession(w.sessionPolls);
    }

    /** Lines 25-117: one attempt, from clearing the auth state to the end
        of the session check. */
    method RunAttempt(w: LoginWorld) returns (result: Result<(), string>)
      requires WellFormed(w)
      modifies this, tables
      ensures var a := Attempt(w, old(memberNumber), old(Tables()));
              result == a.result && Tables() == a.store && authCalls == old(authCalls) + a.calls
      ensures memberNumber == old(memberNumber) && loading == old(loading)
      ensures toasts == old(toasts) && navigations == old(navigations)
    {
      ghost var calls0 := authCalls;
      authCalls := authCalls + [ClearAuthState];
      var member, queries := VerifyMember(w.memberAttempts);
      if member.Err? {
        return Err(member.error);
      }
      ghost var a := SignInAndSession(w, memberNumber, member.value.id, Tables());
      result := SignInAndWait(w, member.value.id);
      AppendAssoc(calls0, [ClearAuthState], a.calls);
    }

    /** `handleLogin`: nothing happens while a login is running or when the
        member number is blank; otherwise one attempt runs with `loading`
        set, ends with `loading` cleared, and shows one toast: success, with
        a navigation home, or failure with the classified message. */
    method HandleLogin(w: LoginWorld)
      requires WellFormed(w)
      modifies this, tables
      ensures memberNumber == old(memberNumber)
      ensures (old(loading) || Trim(old(memberNumber)) == []) ==>
                loading == old(loading) && toasts == old(toasts) && navigations == old(navigations)
                && authCalls == old(authCalls) && Tables() == old(Tables())
      ensures !(old(loading) || Trim(old(memberNumber)) == []) ==>
                var a := Attempt(w, memberNumber, old(Tables()));
                !loading && Tables() == a.store && authCalls == old(authCalls) + a.calls
                && toasts == old(toasts) + [LoginToast(a.result)]
                && navigations == old(navigations) + (if a.result.Ok? then [HomeNavigation(w)] else [])
    {
      if loading || Trim(memberNumber) == [] {
        return;
      }
      loading := true;
      var result := RunAttempt(w);
      Finish(w, result);
    }

    /** Lines 119-160: the outcome of an attempt becomes one toast, with a
        navigation home after a success, and `loading` is cleared. */
    method Finish(w: LoginWorld, result: Result<(), string>)
      modifies this
      ensures !loading && toasts == old(toasts) + [LoginToast(result)]
      ensures navigations == old(navigations) + (if result.Ok? then [HomeNavigation(w)] else [])
      ensures memberNumber == old(memberNumber) && authCalls == old(authCalls)
    {
      if result.Ok? {
        toasts := toasts + [Toast("Login successful", "Welcome back!", false)];
        loading := false;
        navigations := navigations + [HomeNavigation(w)];
      } else {
        var shown := ClassifyLoginError(result.error);
        toasts := toasts + [Toast("Login failed", shown, true)];
        loading := false;
      }
    }
  }
}
