/** Helpers of the member login: the credentials derived from a member
    number, the three-attempt member lookup and the recovery from a sign-in
    error. The `members` query and the auth service are not called: each
    attempt's outcome is an input. */
module AuthUtils {
  import opened Common

  const MaxRetries: nat := 3
  const NotFoundMessage: string := "Member not found" + " or inactive"
  // Long messages are declared word by word so that facts about their
  // characters can be established piece by piece.
  const NetworkErrorMessage: string :=
    "Network " + "connection " + "error. " + "Please " + "check " + "your " + "connection " + "and " + "try " + "again."
  const GaveUpMessage: string := "Failed to verify member after multiple attempts"
  const RefreshTokenNotFound: string := "refresh_token_not_found"
  const TempDomain: string := "@temp.com"

  /** The network error is written with lower-case letters, spaces, full
      stops and the capitals 'N' and 'P' only. */
  lemma NetworkErrorAlphabet()
    ensures forall c :: c in NetworkErrorMessage ==> 'a' <= c <= 'z' || c in " .NP"
  {
  }

  // ---------------------------------------------------------------------------
  // getAuthCredentials

  datatype Credentials = Credentials(email: string, password: string)

  /** The e-mail is the member number in lower case (ASCII) at "@temp.com";
      the password is the member number as typed. */
  function GetAuthCredentials(memberNumber: string): (c: Credentials)
    ensures c.password == memberNumber
    ensures |c.email| == |memberNumber| + |TempDomain|
    ensures c.email[|memberNumber|..] == TempDomain
    ensures forall i :: 0 <= i < |memberNumber| ==> c.email[i] == LowerChar(memberNumber[i])
  {
    Credentials(Lower(memberNumber) + TempDomain, memberNumber)
  }

  /** Two member numbers get the same e-mail exactly when they agree up to
      ASCII case; their passwords still differ unless they are equal. */
  lemma SameEmailIffSameLowercase(a: string, b: string)
    ensures GetAuthCredentials(a).email == GetAuthCredentials(b).email <==> Lower(a) == Lower(b)
  {
    var ea, eb := GetAuthCredentials(a).email, GetAuthCredentials(b).email;
    if ea == eb {
      assert |a| == |b|;
      assert ea[..|a|] == Lower(a);
      assert eb[..|b|] == Lower(b);
    }
  }

  // ---------------------------------------------------------------------------
  // verifyMember

  datatype MemberRecord = MemberRecord(id: string, memberNumber: string, status: string)

  /** What one query of the active member with a given number gives: the
      query's error, its rows (none when the data is null), or an exception
      from the client itself (such as a network failure). */
  datatype QueryAttempt =
    | QueryError(message: string)
    | Rows(members: seq<MemberRecord>)
    | Exception(message: string)

  /** The outcome of verifyMember and the number of queries it issued. */
  datatype Verification = Verification(result: Result<MemberRecord, string>, queries: nat)

  /** An attempt after which the loop tries again (when it is not the last):
      a query error, which is not thrown before the last attempt, or an
      exception other than the not-found error. */
  predicate Retried(a: QueryAttempt) {
    a.QueryError? || (a.Exception? && a.message != NotFoundMessage)
  }

  /** Attempt number `a` (counted from 1) was retried. */
  predicate RetriedAt(attempts: seq<QueryAttempt>, a: nat) {
    1 <= a <= |attempts| && Retried(attempts[a - 1])
  }

  /** The loop from attempt `attempt` on, one attempt per call. */
  function VerifyFrom(attempts: seq<QueryAttempt>, attempt: nat): (v: Verification)
    requires 1 <= attempt <= MaxRetries <= |attempts|
    decreases MaxRetries - attempt
    ensures attempt <= v.queries <= MaxRetries
    ensures v.result.Err? ==> v.result.error == NotFoundMessage || v.result.error == NetworkErrorMessage
    ensures v.result.Ok? ==>
              attempts[v.queries - 1].Rows? && attempts[v.queries - 1].members != []
              && v.result.value == attempts[v.queries - 1].members[0]
    ensures forall a :: attempt <= a < v.queries ==> RetriedAt(attempts, a)
    ensures v.queries < MaxRetries ==> !Retried(attempts[v.queries - 1])
  {
    match attempts[attempt - 1]
    case Rows(ms) =>
      if ms == [] then Verification(Err(NotFoundMessage), attempt) else Verification(Ok(ms[0]), attempt)
    case QueryError(m) =>
      if attempt < MaxRetries then VerifyFrom(attempts, attempt + 1)
      // thrown inside the try on the last attempt, and so caught again
      else Verification(Err(if m == NotFoundMessage then m else NetworkErrorMessage), attempt)
    case Exception(m) =>
      if m == NotFoundMessage then Verification(Err(m), attempt)
      else if attempt < MaxRetries then VerifyFrom(attempts, attempt + 1)
      else Verification(Err(NetworkErrorMessage), attempt)
  }

  /** `verifyMember`: at most three queries; the first row of the first
      non-empty answer, the not-found error at the first empty answer, or
      the network error once three attempts have failed. */
  method VerifyMember(attempts: seq<QueryAttempt>) returns (result: Result<MemberRecord, string>, queries: nat)
    requires MaxRetries <= |attempts|
    ensures Verification(result, queries) == VerifyFrom(attempts, 1)
  {
    var attempt: nat := 1;
    while attempt <= MaxRetries
      invariant 1 <= attempt <= MaxRetries
      invariant VerifyFrom(attempts, attempt) == VerifyFrom(attempts, 1)
      decreases MaxRetries - attempt
    {
      queries := attempt;
      var outcome := attempts[attempt - 1];
      var thrown: string;
      if outcome.QueryError? {
        if attempt == MaxRetries {
          thrown := outcome.message;
        } else {
          attempt := attempt + 1;
          continue;
        }
      } else if outcome.Exception? {
        thrown := outcome.message;
      } else if outcome.members == [] {
        thrown := NotFoundMessage;
      } else {
        result := Ok(outcome.members[0]);
        return;
      }
      // catch (error)
      if thrown == NotFoundMessage {
        result := Err(thrown);
        return;
      }
      if attempt == MaxRetries {
        result := Err(NetworkErrorMessage);
        return;
      }
      attempt := attempt + 1;
    }
    // The last attempt always returns, so the final throw is never reached.
    assert false;
    result, queries := Err(GaveUpMessage), MaxRetries;
  }

  /** An empty answer ends the search at once with the not-found error,
      whatever later attempts would have given. */
  lemma {:induction false} EmptyAnswerStops(attempts: seq<QueryAttempt>, attempt: nat, k: nat)
    requires 1 <= attempt <= k <= MaxRetries <= |attempts|
    requires attempts[k - 1] == Rows([])
    requires forall a :: attempt <= a < k ==> RetriedAt(attempts, a)
    decreases k - attempt
    ensures VerifyFrom(attempts, attempt) == Verification(Err(NotFoundMessage), k)
  {
    if attempt < k {
      assert RetriedAt(attempts, attempt);
      EmptyAnswerStops(attempts, attempt + 1, k);
    }
  }

  /** A non-empty answer after retried attempts is found: the result is its
      first row, after exactly that many queries. */
  lemma {:induction false} NonEmptyAnswerFound(attempts: seq<QueryAttempt>, attempt: nat, k: nat)
    requires 1 <= attempt <= k <= MaxRetries <= |attempts|
    requires attempts[k - 1].Rows? && attempts[k - 1].members != []
    requires forall a :: attempt <= a < k ==> RetriedAt(attempts, a)
    decreases k - attempt
    ensures VerifyFrom(attempts, attempt) == Verification(Ok(attempts[k - 1].members[0]), k)
  {
    if attempt < k {
      assert RetriedAt(attempts, attempt);
      NonEmptyAnswerFound(attempts, attempt + 1, k);
    }
  }

  /** A thrown not-found error after retried attempts is not retried: it
      ends the search at once. */
  lemma {:induction false} NotFoundExceptionStops(attempts: seq<QueryAttempt>, attempt: nat, k: nat)
    requires 1 <= attempt <= k <= MaxRetries <= |attempts|
    requires attempts[k - 1] == Exception(NotFoundMessage)
    requires forall a :: attempt <= a < k ==> RetriedAt(attempts, a)
    decreases k - attempt
    ensures VerifyFrom(attempts, attempt) == Verification(Err(NotFoundMessage), k)
  {
    if attempt < k {
      assert RetriedAt(attempts, attempt);
      NotFoundExceptionStops(attempts, attempt + 1, k);
    }
  }

  /** Three failed attempts end in the network error, never in the raw query
      error and never in the "after multiple attempts" error, unless the last
      query error itself reads as the not-found error. */
  lemma {:induction false} ThreeFailuresGiveNetworkError(attempts: seq<QueryAttempt>, attempt: nat)
    requires 1 <= attempt <= MaxRetries <= |attempts|
    requires forall a :: attempt <= a <= MaxRetries ==> RetriedAt(attempts, a)
    requires !attempts[MaxRetries - 1].Rows? ==> attempts[MaxRetries - 1].message != NotFoundMessage
    decreases MaxRetries - attempt
    ensures VerifyFrom(attempts, attempt) == Verification(Err(NetworkErrorMessage), MaxRetries)
  {
    assert RetriedAt(attempts, attempt);
    if attempt < MaxRetries {
      ThreeFailuresGiveNetworkError(attempts, attempt + 1);
    }
  }

  // ---------------------------------------------------------------------------
  // handleSignInError

  /** `handleSignInError`, as the outcome it leaves: an error mentioning
      "refresh_token_not_found" is recovered from exactly when the one retry
      of the sign-in succeeds, and then fails with that retry's error; any
      other error is rethrown as it came. */
  function SignInRecovery(message: string, retryError: Option<string>): (r: Result<(), string>)
    ensures r.Ok? <==> Contains(message, RefreshTokenNotFound) && retryError.None?
    ensures !Contains(message, RefreshTokenNotFound) ==> r == Err(message)
    ensures Contains(message, RefreshTokenNotFound) && retryError.Some? ==> r == Err(retryError.value)
  {
    if !Contains(message, RefreshTokenNotFound) then Err(message)
    else if retryError.Some? then Err(retryError.value)
    else Ok(())
  }

  /** `handleSignInError` step by step: clear the auth state and sign in
      once more only for the refresh-token error. */
  method HandleSignInError(message: string, retryError: Option<string>)
    returns (result: Result<(), string>, clearedAndRetried: bool)
    ensures clearedAndRetried <==> Contains(message, RefreshTokenNotFound)
    ensures result == SignInRecovery(message, retryError)
  {
    if Contains(message, RefreshTokenNotFound) {
      // clearAuthState(), then one more signInWithPassword
      clearedAndRetried := true;
      if retryError.Some? {
        result := Err(retryError.value);
      } else {
        result := Ok(());
      }
    } else {
      clearedAndRetried := false;
      result := Err(message);
    }
  }
}
