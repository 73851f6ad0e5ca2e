/** The `git-operations` edge function: the GitHub URL parser, the
    get-then-update-or-create reference step, and the request handler that
    pushes the newest commit of a source repository onto the default branch
    of a target repository or refreshes a repository's last commit.

    GitHub (Octokit), the database and the environment are not called: every
    answer they would give is an input (`Services`, `RefApi`). */
module GitOperations {
  import opened Common

  // ---------------------------------------------------------------------------
  // parseGitHubUrl: the regular expression  github\.com\/([^\/]+)\/([^\/\.]+)

  const Host: string := "github.com/"
  const InvalidUrlPrefix: string := "Invalid GitHub URL: "
  const OwnerStops: set<char> := {'/'}
  const RepoStops: set<char> := {'/', '.'}

  datatype RepoCoords = RepoCoords(owner: string, repo: string)

  predicate ValidOwner(o: string) { o != [] && '/' !in o }
  predicate ValidRepo(r: string) { r != [] && '/' !in r && '.' !in r }

  /** End of the longest run of characters outside `stops` that starts at
      `from`: what a greedy character class `[^...]+` consumes. */
  function RunEnd(s: string, from: nat, stops: set<char>): (j: nat)
    requires from <= |s|
    decreases |s| - from
    ensures from <= j <= |s|
    ensures forall m :: from <= m < j ==> s[m] !in stops
    ensures j < |s| ==> s[j] in stops
  {
    if from == |s| || s[from] in stops then from else RunEnd(s, from + 1, stops)
  }

  /** A run is determined by where it starts: any end point with the two
      properties of RunEnd is RunEnd. */
  lemma RunEndUnique(s: string, from: nat, stops: set<char>, j: nat)
    requires from <= j <= |s|
    requires forall m :: from <= m < j ==> s[m] !in stops
    requires j < |s| ==> s[j] in stops
    ensures RunEnd(s, from, stops) == j
  {
  }

  /** The regular expression matched at position `i` of `url`, with group 1
      equal to url[i + |Host|..j] and group 2 equal to url[j + 1..k]. This is
      the plain meaning of the pattern, with no preference among matches. */
  ghost predicate GroupsAt(url: string, i: nat, j: nat, k: nat) {
    && OccursAt(url, Host, i)
    && i + |Host| < j && j + 1 < k <= |url|
    && (forall m :: i + |Host| <= m < j ==> url[m] != '/')
    && url[j] == '/'
    && (forall m :: j < m < k ==> url[m] !in RepoStops)
  }

  /** The match a JavaScript regular expression reports at position `i`, if
      any: group 1 can only end at the first '/', and group 2 is greedy. */
  function MatchAt(url: string, i: nat): (r: Option<(string, string)>)
    ensures r.Some? ==> ValidOwner(r.value.0) && ValidRepo(r.value.1)
  {
    if !OccursAt(url, Host, i) then None
    else
      var ownerEnd := RunEnd(url, i + |Host|, OwnerStops);
      if ownerEnd == i + |Host| || ownerEnd == |url| then None
      else
        var repoEnd := RunEnd(url, ownerEnd + 1, RepoStops);
        if repoEnd == ownerEnd + 1 then None
        else Some((url[i + |Host|..ownerEnd], url[ownerEnd + 1..repoEnd]))
  }

  /** What MatchAt reports is a match of the pattern, and its second group
      cannot be extended. */
  lemma MatchAtSound(url: string, i: nat)
    requires MatchAt(url, i).Some?
    ensures exists j: nat, k: nat ::
              && GroupsAt(url, i, j, k)
              && MatchAt(url, i).value == (url[i + |Host|..j], url[j + 1..k])
              && (k == |url| || url[k] in RepoStops)
  {
    var j := RunEnd(url, i + |Host|, OwnerStops);
    var k := RunEnd(url, j + 1, RepoStops);
    assert GroupsAt(url, i, j, k);
  }

  /** Wherever the pattern matches, MatchAt reports a match there, with the
      same first group and a second group at least as long. */
  lemma MatchAtComplete(url: string, i: nat, j: nat, k: nat)
    requires GroupsAt(url, i, j, k)
    ensures MatchAt(url, i).Some?
    ensures MatchAt(url, i).value.0 == url[i + |Host|..j]
    ensures |MatchAt(url, i).value.1| >= k - (j + 1)
    ensures MatchAt(url, i).value.1[..k - (j + 1)] == url[j + 1..k]
  {
    RunEndUnique(url, i + |Host|, OwnerStops, j);
    var repoEnd := RunEnd(url, j + 1, RepoStops);
    assert repoEnd >= k;
    assert MatchAt(url, i) == Some((url[i + |Host|..j], url[j + 1..repoEnd]));
    assert url[j + 1..repoEnd][..k - (j + 1)] == url[j + 1..k];
  }

  /** The leftmost position at or after `from` where the pattern matches. */
  function FindMatch(url: string, from: nat): (r: Option<(nat, (string, string))>)
    requires from <= |url|
    decreases |url| - from
    ensures r.Some? ==> from <= r.value.0 <= |url| && MatchAt(url, r.value.0) == Some(r.value.1)
    ensures r.Some? ==> forall i :: from <= i < r.value.0 ==> MatchAt(url, i).None?
    ensures r.None? ==> forall i :: from <= i <= |url| ==> MatchAt(url, i).None?
  {
    match MatchAt(url, from)
    case Some(m) => Some((from, m))
    case None => if from == |url| then None else FindMatch(url, from + 1)
  }

  /** Only a '.' can start ".git", so a repository group never holds it. */
  lemma GitSuffixStripIsNoOp(repo: string)
    requires '.' !in repo
    ensures ReplaceFirst(repo, ".git", "") == repo
  {
    NotContainsMissingChar(repo, ".git", 0);
  }

  /** `parseGitHubUrl`: owner and repository of the leftmost match, with the
      first ".git" removed from the repository; an error naming the URL when
      nothing matches. */
  function ParseGitHubUrl(url: string): (r: Result<RepoCoords, string>)
    ensures r.Err? ==> r.error == InvalidUrlPrefix + url
    ensures r.Ok? ==> ValidOwner(r.value.owner) && ValidRepo(r.value.repo)
  {
    match FindMatch(url, 0)
    case None => Err(InvalidUrlPrefix + url)
    case Some((_, m)) =>
      GitSuffixStripIsNoOp(m.1);
      Ok(RepoCoords(m.0, ReplaceFirst(m.1, ".git", "")))
  }

  /** The parser reports the match at the leftmost position where MatchAt
      finds one, and fails iff there is no such position. */
  lemma ParseIsLeftmostMatch(url: string)
    ensures ParseGitHubUrl(url).Err? <==> forall i :: 0 <= i <= |url| ==> MatchAt(url, i).None?
    ensures ParseGitHubUrl(url).Ok? ==> exists i ::
              && 0 <= i <= |url|
              && MatchAt(url, i) == Some((ParseGitHubUrl(url).value.owner, ParseGitHubUrl(url).value.repo))
              && forall i' :: 0 <= i' < i ==> MatchAt(url, i').None?
  {
    var found := FindMatch(url, 0);
    if found.Some? {
      GitSuffixStripIsNoOp(found.value.1.1);
      assert MatchAt(url, found.value.0) == Some((ParseGitHubUrl(url).value.owner, ParseGitHubUrl(url).value.repo));
    }
  }

  /** The parser accepts exactly the URLs in which the pattern occurs. */
  lemma ParseSucceedsIff(url: string)
    ensures ParseGitHubUrl(url).Ok? <==> exists i, j, k :: GroupsAt(url, i, j, k)
  {
    ParseIsLeftmostMatch(url);
    if ParseGitHubUrl(url).Ok? {
      var i :| 0 <= i <= |url| && MatchAt(url, i).Some?;
      MatchAtSound(url, i);
    }
    if exists i, j, k :: GroupsAt(url, i, j, k) {
      var i, j, k :| GroupsAt(url, i, j, k);
      MatchAtComplete(url, i, j, k);
    }
  }

  /** Round trip: a URL built from a prefix without 'g' (such as "https://"),
      the host, an owner, a repository name and a tail that begins with '/'
      or '.' (such as ".git" or "/tree/main") parses back to that owner and
      repository. */
  lemma RoundTrip(prefix: string, owner: string, repo: string, tail: string)
    requires 'g' !in prefix
    requires ValidOwner(owner) && ValidRepo(repo)
    requires tail == [] || tail[0] in RepoStops
    ensures ParseGitHubUrl(prefix + Host + owner + "/" + repo + tail) == Ok(RepoCoords(owner, repo))
  {
    var url := prefix + Host + owner + "/" + repo + tail;
    MatchAtBuiltUrl(prefix, owner, repo, tail);
    NoMatchInPrefix(prefix, Host + owner + "/" + repo + tail);
    assert url == prefix + (Host + owner + "/" + repo + tail);
    var found := FindMatch(url, 0);
    assert found.Some?;
    assert found.value.0 == |prefix|;
    GitSuffixStripIsNoOp(repo);
  }

  lemma MatchAtBuiltUrl(prefix: string, owner: string, repo: string, tail: string)
    requires ValidOwner(owner) && ValidRepo(repo)
    requires tail == [] || tail[0] in RepoStops
    ensures MatchAt(prefix + Host + owner + "/" + repo + tail, |prefix|) == Some((owner, repo))
  {
    var url := prefix + Host + owner + "/" + repo + tail;
    var i := |prefix|;
    var j := i + |Host| + |owner|;
    var k := j + 1 + |repo|;
    assert url[i..i + |Host|] == Host;
    assert url[i + |Host|..j] == owner;
    assert url[j + 1..k] == repo;
    assert url[j] == '/';
    RunEndUnique(url, i + |Host|, OwnerStops, j);
    RunEndUnique(url, j + 1, RepoStops, k);
  }

  /** The pattern starts with 'g', so it cannot start inside a prefix that
      has none. */
  lemma NoMatchInPrefix(prefix: string, rest: string)
    requires 'g' !in prefix
    ensures forall i :: 0 <= i < |prefix| ==> MatchAt(prefix + rest, i).None?
  {
    var url := prefix + rest;
    forall i | 0 <= i < |prefix|
      ensures MatchAt(url, i).None?
    {
      assert url[i] == prefix[i] && url[i] != Host[0];
    }
  }

  // ---------------------------------------------------------------------------
  // Push target

  const HeadsPrefix: string := "refs/heads/"
  const DefaultBranch: string := "main"

  /** `targetRepo.default_branch || 'main'`: an absent or empty branch name
      falls back to "main". */
  function TargetBranch(defaultBranch: Option<string>): (b: string)
    ensures b != []
    ensures defaultBranch.Some? && defaultBranch.value != [] ==> b == defaultBranch.value
    ensures defaultBranch == None || defaultBranch == Some([]) ==> b == DefaultBranch
  {
    if defaultBranch.Some? && defaultBranch.value != [] then defaultBranch.value else DefaultBranch
  }

  function PushTargetRef(defaultBranch: Option<string>): (ref: string)
  {
    HeadsPrefix + TargetBranch(defaultBranch)
  }

  /** The name the reference calls receive (`ref.replace('refs/', '')`): only
      the leading "refs/" goes, even when the branch name itself holds
      "refs/". */
  lemma {:induction false} ShortPushRef(defaultBranch: Option<string>)
    ensures StartsWith(PushTargetRef(defaultBranch), HeadsPrefix)
    ensures ShortRef(PushTargetRef(defaultBranch)) == "heads/" + TargetBranch(defaultBranch)
  {
    var b := TargetBranch(defaultBranch);
    assert HeadsPrefix + b == "refs/" + ("heads/" + b);
    ReplaceFirstAtStart("refs/", "heads/" + b, "");
  }

  function ShortRef(ref: string): string {
    ReplaceFirst(ref, "refs/", "")
  }

  /** "force" and "force-with-lease" both force the update; nothing else does. */
  predicate IsForcePush(pushType: string) {
    pushType == "force" || pushType == "force-with-lease"
  }

  // ---------------------------------------------------------------------------
  // createOrUpdateRef

  datatype ApiError = ApiError(status: int, message: string)
  datatype RefData = RefData(ref: string, sha: string)

  /** What GitHub answers to the three reference calls. */
  datatype RefApi = RefApi(
    getRef: Result<RefData, ApiError>,
    updateRef: Result<RefData, ApiError>,
    createRef: Result<RefData, ApiError>)

  /** A reference call as issued: createRef takes no force flag. */
  datatype GitCall =
    | GetRef(owner: string, repo: string, ref: string)
    | UpdateRef(owner: string, repo: string, ref: string, sha: string, force: bool)
    | CreateRef(owner: string, repo: string, ref: string, sha: string)

  predicate IsNotFound(r: Result<RefData, ApiError>) {
    r.Err? && r.error.status == 404
  }

  /** `createOrUpdateRef`: look the reference up; if it exists update it,
      and if either step answers 404 create it instead. Every other error is
      rethrown as it came. */
  method CreateOrUpdateRef(api: RefApi, owner: string, repo: string, ref: string, sha: string, force: bool)
    returns (r: Result<RefData, ApiError>, calls: seq<GitCall>)
    ensures r.Ok? <==> RefUpdateSucceeded(api)
    ensures r.Err? ==> RefUpdateError(api) == Some(r.error)
    ensures 1 <= |calls| <= 3
    ensures calls[0] == GetRef(owner, repo, ShortRef(ref))
    ensures UpdateRef(owner, repo, ShortRef(ref), sha, force) in calls <==> api.getRef.Ok?
    ensures CreateRef(owner, repo, ref, sha) in calls <==>
      IsNotFound(api.getRef) || (api.getRef.Ok? && IsNotFound(api.updateRef))
    ensures forall c :: c in calls ==>
              c == calls[0] || c == UpdateRef(owner, repo, ShortRef(ref), sha, force) || c == CreateRef(owner, repo, ref, sha)
    ensures calls[|calls| - 1].CreateRef? ==> r == api.createRef
    ensures calls[|calls| - 1].UpdateRef? ==> r == api.updateRef
    ensures |calls| == 1 ==> r == api.getRef && r.Err? && !IsNotFound(r)
    ensures r.Err? && !calls[|calls| - 1].CreateRef? ==> r.error.status != 404
  {
    var short := ShortRef(ref);
    calls := [GetRef(owner, repo, short)];
    var failed: Option<ApiError> := None;
    if api.getRef.Ok? {
      calls := calls + [UpdateRef(owner, repo, short, sha, force)];
      if api.updateRef.Ok? {
        r := api.updateRef;
        return;
      }
      failed := Some(api.updateRef.error);
    } else {
      failed := Some(api.getRef.error);
    }
    if failed.value.status == 404 {
      calls := calls + [CreateRef(owner, repo, ref, sha)];
      r := api.createRef;
    } else {
      r := Err(failed.value);
    }
  }

  // ---------------------------------------------------------------------------
  // The request handler

  datatype LogKind = InfoLog | SuccessLog | ErrorLog

  /** A log entry as the handler returns it; its data and timestamp are not
      modelled. */
  datatype LogEntry = LogEntry(kind: LogKind, message: string)

  datatype Body = Body(operation: string, sourceRepoId: string, targetRepoId: string, pushType: string)

  /** An HTTP request; `body` is Err with the parse error's message when the
      body is not JSON. */
  datatype Request = Request(httpMethod: string, body: Result<Body, string>)

  datatype RepoRow = RepoRow(url: string, defaultBranch: Option<string>)
  datatype Commit = Commit(sha: string, message: string)
  datatype RepoDetails = RepoDetails(defaultBranch: string, lastCommits: seq<Commit>)

  /** Every answer the handler's collaborators give for one request. */
  datatype Services = Services(
    githubToken: Option<string>,
    sourceRow: Result<RepoRow, string>,      // `repositories` row of sourceRepoId, or the query error
    targetRow: Result<RepoRow, string>,      // `repositories` row of targetRepoId, or the query error
    details: Result<RepoDetails, ApiError>,  // repos.get, listBranches, listCommits (5 newest)
    refApi: RefApi,
    updateError: Option<string>)             // error of the row update after getLastCommit

  /** What was thrown: an error with a message, or the `{ error, logs }`
      object that the details fetch throws, which has none. */
  datatype Thrown = Thrown(message: string) | ThrownWithoutMessage

  const UndefinedShaMessage: string := "Cannot read properties of undefined (reading 'sha')"
  const UnknownError: string := "Unknown error occurred"

  /** `error.message || 'Unknown error occurred'`. */
  function ErrorText(e: Thrown): (text: string)
    ensures text != []
    ensures e.Thrown? && e.message != [] ==> text == e.message
  {
    if e.Thrown? && e.message != [] then e.message else UnknownError
  }

  function Info(m: string): LogEntry { LogEntry(InfoLog, m) }
  function Success(m: string): LogEntry { LogEntry(SuccessLog, m) }
  function Error(m: string): LogEntry { LogEntry(ErrorLog, m) }

  /** `getRepoDetails`: parse the URL, then read the repository. Any failure
      is thrown as `{ error, logs }`, so the caller sees no message and none
      of these log entries. */
  method GetRepoDetails(url: string, fetched: Result<RepoDetails, ApiError>)
    returns (r: Result<RepoDetails, Thrown>, logs: seq<LogEntry>)
    ensures r.Ok? <==> ParseGitHubUrl(url).Ok? && fetched.Ok?
    ensures r.Ok? ==> r.value == fetched.value && |logs| == 3 && logs[2].kind == SuccessLog
    ensures r.Err? ==> r.error == ThrownWithoutMessage
  {
    logs := [Info("Starting repository details fetch")];
    var coords := ParseGitHubUrl(url);
    if coords.Err? {
      logs := logs + [Error("Error fetching repository details")];
      r := Err(ThrownWithoutMessage);
      return;
    }
    logs := logs + [Info("Parsed GitHub URL")];
    if fetched.Err? {
      logs := logs + [Error("Error fetching repository details")];
      r := Err(ThrownWithoutMessage);
      return;
    }
    logs := logs + [Success("Repository details fetched successfully")];
    r := Ok(fetched.value);
  }

  /** `if (!githubToken)`: an absent or empty token stops every operation. */
  predicate HasToken(svc: Services) {
    svc.githubToken.Some? && svc.githubToken.value != []
  }

  /** createOrUpdateRef ends without an error: the update went through, or
      a 404 led to a creation that went through. */
  predicate RefUpdateSucceeded(api: RefApi) {
    if api.getRef.Ok? then
      api.updateRef.Ok? || (IsNotFound(api.updateRef) && api.createRef.Ok?)
    else
      IsNotFound(api.getRef) && api.createRef.Ok?
  }

  /** The error createOrUpdateRef ends with, if any: the create's error
      after a 404, otherwise the first failing call's error as it came. */
  function RefUpdateError(api: RefApi): (e: Option<ApiError>)
    ensures e.None? <==> RefUpdateSucceeded(api)
    ensures e.Some? && api.getRef.Err? && !IsNotFound(api.getRef) ==> e.value == api.getRef.error
  {
    var failed := if api.getRef.Ok? then api.updateRef else api.getRef;
    if api.getRef.Ok? && api.updateRef.Ok? then None
    else if failed.error.status == 404 then (if api.createRef.Ok? then None else Some(api.createRef.error))
    else Some(failed.error)
  }

  /** The push branch reached its reference update: every earlier check
      passed. */
  ghost predicate PushReachesRefUpdate(body: Body, svc: Services) {
    && body.operation == "push"
    && HasToken(svc)
    && svc.sourceRow.Ok? && svc.targetRow.Ok?
    && ParseGitHubUrl(svc.sourceRow.value.url).Ok?
    && svc.details.Ok? && |svc.details.value.lastCommits| > 0
    && ParseGitHubUrl(svc.targetRow.value.url).Ok?
  }

  /** What the push branch promises, given the token check passed: a missing
      row, an unreadable source or a source without commits stops it before
      any reference call; otherwise the newest source commit is sent to the
      target's branch reference, forced iff the push type asks for it, and
      the branch succeeds iff the reference step does. */
  ghost predicate PushOutcome(body: Body, svc: Services, thrown: Option<Thrown>, calls: seq<GitCall>) {
    && ((svc.sourceRow.Err? || svc.targetRow.Err?) ==>
          thrown == Some(Thrown("Repository not found")) && calls == [])
    && ((svc.sourceRow.Ok? && svc.targetRow.Ok?
         && (ParseGitHubUrl(svc.sourceRow.value.url).Err? || svc.details.Err?)) ==>
          thrown == Some(ThrownWithoutMessage) && calls == [])
    && ((svc.sourceRow.Ok? && svc.targetRow.Ok? && ParseGitHubUrl(svc.sourceRow.value.url).Ok?
         && svc.details.Ok? && svc.details.value.lastCommits == []) ==>
          thrown == Some(Thrown("No commits found in source repository")) && calls == [])
    && (calls != [] <==> PushReachesRefUpdate(body, svc))
    && (thrown.None? ==> PushReachesRefUpdate(body, svc))
    && (PushReachesRefUpdate(body, svc) ==>
          var coords := ParseGitHubUrl(svc.targetRow.value.url).value;
          var ref := PushTargetRef(svc.targetRow.value.defaultBranch);
          var sha := svc.details.value.lastCommits[0].sha;
          && calls[0] == GetRef(coords.owner, coords.repo, ShortRef(ref))
          && (forall c :: c in calls && c.UpdateRef? ==>
                c == UpdateRef(coords.owner, coords.repo, ShortRef(ref), sha, IsForcePush(body.pushType)))
          && (forall c :: c in calls && c.CreateRef? ==> c == CreateRef(coords.owner, coords.repo, ref, sha))
          && (thrown.None? <==> RefUpdateSucceeded(svc.refApi)))
  }

  /** What the push branch throws, if anything (the token check passed):
      the reference step's error is rethrown with its own message. */
  function PushThrown(body: Body, svc: Services): Option<Thrown> {
    if svc.sourceRow.Err? || svc.targetRow.Err? then Some(Thrown("Repository not found"))
    else if ParseGitHubUrl(svc.sourceRow.value.url).Err? || svc.details.Err? then Some(ThrownWithoutMessage)
    else if svc.details.value.lastCommits == [] then Some(Thrown("No commits found in source repository"))
    else if ParseGitHubUrl(svc.targetRow.value.url).Err? then Some(Thrown(ParseGitHubUrl(svc.targetRow.value.url).error))
    else match RefUpdateError(svc.refApi)
      case None => None
      case Some(e) => Some(Thrown(e.message))
  }

  /** The push branch of the handler (the token has been checked). */
  method OperatePush(body: Body, svc: Services) returns (logs: seq<LogEntry>, thrown: Option<Thrown>, calls: seq<GitCall>)
    requires body.operation == "push" && HasToken(svc)
    ensures PushOutcome(body, svc, thrown, calls)
    ensures thrown == PushThrown(body, svc)
  {
    calls := [];
    thrown := None;
    logs := [Info("Starting Git push operation")];
    if svc.sourceRow.Err? || svc.targetRow.Err? {
      logs := logs + [Error("Repository not found")];
      thrown := Some(Thrown("Repository not found"));
      return;
    }
    var source, target := svc.sourceRow.value, svc.targetRow.value;
    logs := logs + [Info("Repositories found")];

    var details, detailLogs := GetRepoDetails(source.url, svc.details);
    if details.Err? {
      thrown := Some(details.error);
      return;
    }
    logs := logs + detailLogs;

    if details.value.lastCommits == [] {
      logs := logs + [Error("No commits found in source repository")];
      thrown := Some(Thrown("No commits found in source repository"));
      return;
    }
    var commit := details.value.lastCommits[0];
    logs := logs + [Info("Source commit details")];

    var coords := ParseGitHubUrl(target.url);
    if coords.Err? {
      thrown := Some(Thrown(coords.error));
      return;
    }
    var branchRef := PushTargetRef(target.defaultBranch);
    var result;
    result, calls := CreateOrUpdateRef(svc.refApi, coords.value.owner, coords.value.repo,
                                       branchRef, commit.sha, IsForcePush(body.pushType));
    if result.Err? {
      logs := logs + [Error("Push operation failed")];
      thrown := Some(Thrown(result.error.message));
      return;
    }
    // The status update's own error is never inspected.
    logs := logs + [Success("Push operation completed"), Success("Repository status updated in database")];
  }

  /** What the getLastCommit branch promises, given the token check passed:
      it succeeds iff the row and its URL exist, the repository can be read,
      it has a commit and the row update reports no error. */
  ghost predicate LastCommitOutcome(svc: Services, thrown: Option<Thrown>) {
    && (svc.sourceRow.Err? ==> thrown == Some(Thrown(svc.sourceRow.error)))
    && (svc.sourceRow.Ok? && svc.sourceRow.value.url == [] ==> thrown == Some(Thrown("Repository URL not found")))
    && ((svc.sourceRow.Ok? && svc.sourceRow.value.url != []
         && (ParseGitHubUrl(svc.sourceRow.value.url).Err? || svc.details.Err?)) ==>
          thrown == Some(ThrownWithoutMessage))
    && ((svc.sourceRow.Ok? && svc.sourceRow.value.url != [] && ParseGitHubUrl(svc.sourceRow.value.url).Ok?
         && svc.details.Ok? && svc.details.value.lastCommits == []) ==>
          thrown == Some(Thrown(UndefinedShaMessage)))
    && ((svc.sourceRow.Ok? && svc.sourceRow.value.url != [] && ParseGitHubUrl(svc.sourceRow.value.url).Ok?
         && svc.details.Ok? && svc.details.value.lastCommits != [] && svc.updateError.Some?) ==>
          thrown == Some(Thrown(svc.updateError.value)))
    && (thrown.None? <==> LastCommitSucceeds(svc))
  }

  /** Every step of the getLastCommit branch goes through. */
  predicate LastCommitSucceeds(svc: Services) {
    && svc.sourceRow.Ok? && svc.sourceRow.value.url != [] && ParseGitHubUrl(svc.sourceRow.value.url).Ok?
    && svc.details.Ok? && svc.details.value.lastCommits != [] && svc.updateError.None?
  }

  /** What the getLastCommit branch throws, if anything (the token check
      passed). */
  function LastCommitThrown(svc: Services): Option<Thrown> {
    if svc.sourceRow.Err? then Some(Thrown(svc.sourceRow.error))
    else if svc.sourceRow.value.url == [] then Some(Thrown("Repository URL not found"))
    else if ParseGitHubUrl(svc.sourceRow.value.url).Err? || svc.details.Err? then Some(ThrownWithoutMessage)
    else if svc.details.value.lastCommits == [] then Some(Thrown(UndefinedShaMessage))
    else if svc.updateError.Some? then Some(Thrown(svc.updateError.value))
    else None
  }

  /** What the body of the handler's `try` throws, if anything: the token
      check first, then the branch the operation selects; any other
      operation throws nothing. */
  function OperationThrown(body: Body, svc: Services): Option<Thrown> {
    if !HasToken(svc) then Some(Thrown("GitHub token not configured"))
    else if body.operation == "push" then PushThrown(body, svc)
    else if body.operation == "getLastCommit" then LastCommitThrown(svc)
    else None
  }

  /** The getLastCommit branch of the handler (the token has been checked). */
  method OperateLastCommit(svc: Services) returns (logs: seq<LogEntry>, thrown: Option<Thrown>)
    ensures LastCommitOutcome(svc, thrown)
    ensures thrown == LastCommitThrown(svc)
  {
    thrown := None;
    logs := [Info("Getting repository details")];
    if svc.sourceRow.Err? {
      logs := logs + [Error("Error fetching repository")];
      thrown := Some(Thrown(svc.sourceRow.error));
      return;
    }
    if svc.sourceRow.value.url == [] {
      logs := logs + [Error("Repository URL not found")];
      thrown := Some(Thrown("Repository URL not found"));
      return;
    }
    var details, detailLogs := GetRepoDetails(svc.sourceRow.value.url, svc.details);
    if details.Err? {
      thrown := Some(details.error);
      return;
    }
    logs := logs + detailLogs;
    if details.value.lastCommits == [] {
      // `lastCommit.sha` on undefined: the TypeError precedes the update.
      thrown := Some(Thrown(UndefinedShaMessage));
      return;
    }
    if svc.updateError.Some? {
      logs := logs + [Error("Error updating repository")];
      thrown := Some(Thrown(svc.updateError.value));
      return;
    }
    logs := logs + [Success("Repository updated successfully")];
  }

  /** The body of the handler's `try`: the logs it collects, what it throws
      (if anything) and the reference calls it makes. The two operation
      tests are independent `if`s; any other operation does nothing. */
  method Operate(body: Body, svc: Services) returns (logs: seq<LogEntry>, thrown: Option<Thrown>, calls: seq<GitCall>)
    ensures |logs| >= 1 && logs[0] == Info("Received operation request")
    ensures !HasToken(svc) ==> thrown == Some(Thrown("GitHub token not configured")) && calls == []
    ensures (body.operation != "push" && body.operation != "getLastCommit" && HasToken(svc)) ==>
              thrown.None? && logs == [Info("Received operation request")]
    ensures body.operation != "push" ==> calls == []
    ensures (body.operation == "push" && HasToken(svc)) ==> PushOutcome(body, svc, thrown, calls)
    ensures (body.operation == "getLastCommit" && HasToken(svc)) ==> LastCommitOutcome(svc, thrown)
    ensures thrown == OperationThrown(body, svc)
  {
    calls := [];
    thrown := None;
    logs := [Info("Received operation request")];
    if !HasToken(svc) {
      logs := logs + [Error("GitHub token not found")];
      thrown := Some(Thrown("GitHub token not configured"));
      return;
    }
    if body.operation == "push" {
      var more;
      more, thrown, calls := OperatePush(body, svc);
      logs := logs + more;
      if thrown.Some? {
        return;
      }
    }
    if body.operation == "getLastCommit" {
      var more;
      more, thrown := OperateLastCommit(svc);
      logs := logs + more;
    }
  }

  datatype Response =
    | Preflight
    | Reply(status: int, success: bool, error: string, logs: seq<LogEntry>)

  /** The `serve` handler: a CORS preflight for OPTIONS, without reading the
      body; otherwise success with status 200, or failure with status 500,
      the thrown error's message (or "Unknown error occurred") and the logs
      ending in "Operation failed". */
  method Serve(req: Request, svc: Services) returns (resp: Response, calls: seq<GitCall>)
    ensures req.httpMethod == "OPTIONS" <==> resp.Preflight?
    ensures resp.Preflight? ==> calls == []
    ensures resp.Reply? ==> (resp.status == 200 && resp.success) || (resp.status == 500 && !resp.success)
    ensures (resp.Reply? && !resp.success) ==>
              resp.error != [] && |resp.logs| > 0 && resp.logs[|resp.logs| - 1] == Error("Operation failed")
    ensures (resp.Reply? && req.body.Err?) ==>
              !resp.success && resp.error == ErrorText(Thrown(req.body.error)) && calls == []
    ensures (resp.Reply? && req.body.Ok?) ==> (calls != [] <==> PushReachesRefUpdate(req.body.value, svc))
    ensures (resp.Reply? && req.body.Ok? && req.body.value.operation == "push" && HasToken(svc)
             && svc.sourceRow.Ok? && svc.targetRow.Ok? && svc.details.Err?) ==>
              !resp.success && resp.error == UnknownError
    ensures (resp.Reply? && req.body.Ok? && req.body.value.operation == "push" && HasToken(svc)
             && (svc.sourceRow.Err? || svc.targetRow.Err?)) ==>
              !resp.success && resp.error == "Repository not found"
    ensures (resp.Reply? && req.body.Ok? && PushReachesRefUpdate(req.body.value, svc)) ==>
              (resp.success <==> RefUpdateSucceeded(svc.refApi))
    ensures (resp.Reply? && req.body.Ok?) ==>
              (resp.success <==> OperationThrown(req.body.value, svc).None?)
              && (!resp.success ==> resp.error == ErrorText(OperationThrown(req.body.value, svc).value))
    ensures (resp.Reply? && req.body.Ok? && !HasToken(svc)) ==>
              !resp.success && resp.status == 500 && resp.error == "GitHub token not configured"
    ensures (resp.Reply? && req.body.Ok? && HasToken(svc)
             && req.body.value.operation != "push" && req.body.value.operation != "getLastCommit") ==>
              resp.success && resp.status == 200
    ensures (resp.Reply? && req.body.Ok? && HasToken(svc) && req.body.value.operation == "getLastCommit") ==>
              (resp.success <==> LastCommitSucceeds(svc))
  {
    calls := [];
    if req.httpMethod == "OPTIONS" {
      resp := Preflight;
      return;
    }
    var logs: seq<LogEntry> := [];
    var thrown: Option<Thrown>;
    if req.body.Err? {
      thrown := Some(Thrown(req.body.error));
    } else {
      logs, thrown, calls := Operate(req.body.value, svc);
    }
    if thrown.None? {
      resp := Reply(200, true, "", logs);
    } else {
      logs := logs + [Error("Operation failed")];
      resp := Reply(500, false, ErrorText(thrown.value), logs);
    }
  }
}
