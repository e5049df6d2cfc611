/** The conversion from a decoded GraphQL response to the `Data` record
    (backend/src/lib.rs): `run_graphql_private` once the response is in hand,
    and the helpers it is built from. Every function here is total; failures
    are `Err` values carrying the text of the source's error. */
module Conversion {
  import opened Wrappers
  import opened Schema
  import opened ViewModel

  const NoDataMessage := "No data on response"
  const NoTargetMessage := "No target for branch"
  const NotACommitMessage := "ref does not appear to be a commit"

  function NoAuthorMessage(oid: GitObjectId): string
  {
    "No author on commit " + oid
  }

  function NoCommitterMessage(oid: GitObjectId): string
  {
    "No committer on commit " + oid
  }

  /** `get_rate_limit_info`: the six rate-limit fields, copied one to one. */
  function RateLimitInfoOf(rateLimit: RateLimit): (info: RateLimitInfo)
    ensures info.cost == rateLimit.cost && info.limit == rateLimit.limit
    ensures info.nodeCount == rateLimit.nodeCount && info.remaining == rateLimit.remaining
    ensures info.used == rateLimit.used && info.resetAt == rateLimit.resetAt
  {
    RateLimitInfo(
      cost := rateLimit.cost,
      limit := rateLimit.limit,
      nodeCount := rateLimit.nodeCount,
      remaining := rateLimit.remaining,
      used := rateLimit.used,
      resetAt := rateLimit.resetAt)
  }

  /** `get_user_from_owner`: the owner is always shown with its login as
      handle. A user owner always has an email; an organization's may be
      missing. */
  function UserFromOwner(owner: RepositoryOwner): (u: User)
    ensures u.handle == Some(owner.login)
    ensures u.avatarUrl == owner.avatarUrl
    ensures owner.on.UserOwner? ==> u.name == owner.on.user.name && u.email == Some(owner.on.user.email)
    ensures owner.on.OrganizationOwner? ==> u.name == owner.on.orga.name && u.email == owner.on.orga.email
  {
    match owner.on
    case UserOwner(user) =>
      User(avatarUrl := owner.avatarUrl, name := user.name, email := Some(user.email), handle := Some(owner.login))
    case OrganizationOwner(orga) =>
      User(avatarUrl := owner.avatarUrl, name := orga.name, handle := Some(owner.login), email := orga.email)
  }

  /** `get_repo_info`: never fails; the name is copied and the owner converted. */
  function RepoFromRepository(repository: Repository): (r: Result<Repo>)
    ensures r.Ok?
    ensures r.value.nameWithOwner == repository.nameWithOwner
    ensures r.value.owner == UserFromOwner(repository.owner)
  {
    Ok(Repo(nameWithOwner := repository.nameWithOwner, owner := UserFromOwner(repository.owner)))
  }

  /** The author or committer record of a commit as a `User`: the handle is
      the login of the linked GitHub account exactly when there is one. */
  function UserFromActor(actor: GitActor): (u: User)
    ensures u.handle.Some? <==> actor.user.Some?
    ensures actor.user.Some? ==> u.handle.value == actor.user.value.login
    ensures u.avatarUrl == actor.avatarUrl && u.name == actor.name && u.email == actor.email
  {
    User(
      avatarUrl := actor.avatarUrl,
      name := actor.name,
      handle := MapOption(actor.user, (user: ActorUser) => user.login),
      email := actor.email)
  }

  /** `get_commit_info_from_target`: only a commit converts. A missing author
      is reported before a missing committer. */
  function CommitFromTarget(head: Target): (r: Result<Commit>)
    ensures head.on.OtherObject? ==> r == Err(NotACommitMessage)
    ensures head.on.CommitObject? && head.on.author.None? ==> r == Err(NoAuthorMessage(head.on.oid))
    ensures head.on.CommitObject? && head.on.author.Some? && head.on.committer.None? ==>
              r == Err(NoCommitterMessage(head.on.oid))
    ensures r.Ok? <==> head.on.CommitObject? && head.on.author.Some? && head.on.committer.Some?
    ensures r.Ok? ==> r.value.sha == head.on.oid && r.value.message == head.on.message
    ensures r.Ok? ==> r.value.author == UserFromActor(head.on.author.value)
    ensures r.Ok? ==> r.value.committer == UserFromActor(head.on.committer.value)
  {
    match head.on
    case CommitObject(oid, message, author, committer) =>
      var githubAuthor :- author.OkOr(NoAuthorMessage(oid));
      var githubCommitter :- committer.OkOr(NoCommitterMessage(oid));
      Ok(Commit(
        author := UserFromActor(githubAuthor),
        committer := UserFromActor(githubCommitter),
        message := message,
        sha := oid))
    case OtherObject(_) =>
      Err(NotACommitMessage)
  }

  /** `get_branch_info`: a ref without a target fails; otherwise the branch is
      named after the ref and its head is the converted target, whose failure
      is passed through unchanged. */
  function BranchFromRef(branchRef: Ref): (r: Result<Branch>)
    ensures branchRef.target.None? ==> r == Err(NoTargetMessage)
    ensures r.Ok? <==> branchRef.target.Some? && CommitFromTarget(branchRef.target.value).Ok?
    ensures branchRef.target.Some? && CommitFromTarget(branchRef.target.value).Err? ==>
              r == Err(CommitFromTarget(branchRef.target.value).error)
    ensures r.Ok? ==> r.value.name == branchRef.name
    ensures r.Ok? ==> r.value.head == CommitFromTarget(branchRef.target.value).value
  {
    var head :- branchRef.target.OkOr(NoTargetMessage);
    var commit :- CommitFromTarget(head);
    Ok(Branch(name := branchRef.name, head := commit))
  }

  /** The `into_iter().map(..).collect()` over the response's error list:
      same length, same order, each message copied. */
  function ErrorsFrom(errorList: seq<ResponseError>): (r: seq<GraphqlError>)
    ensures |r| == |errorList|
    ensures forall i :: 0 <= i < |errorList| ==> r[i].message == errorList[i].message
  {
    if errorList == [] then []
    else [GraphqlError(message := errorList[0].message)] + ErrorsFrom(errorList[1..])
  }

  /** The ref of the queried branch, when the repository and the ref are both
      present. */
  function BranchRefOf(data: ResponseData): Option<Ref>
  {
    match data.repository
    case None => None
    case Some(repository) => repository.branchRef
  }

  /** The `repo` field: `get_repo_info` on the repository, when there is
      one, with the `Option<Result<..>>` turned inside out. */
  function RepoOf(data: ResponseData): (r: Result<Option<Repo>>)
    ensures r.Ok?
    ensures r.value.Some? <==> data.repository.Some?
    ensures r.value.Some? ==> r.value.value == RepoFromRepository(data.repository.value).value
  {
    Transpose(MapOption(data.repository, RepoFromRepository))
  }

  /** The `branch` field: `get_branch_info` on the ref, when the repository
      and the ref are both present; its failure is the field's failure. */
  function BranchOf(data: ResponseData): (r: Result<Option<Branch>>)
    ensures BranchRefOf(data).None? ==> r == Ok(None)
    ensures BranchRefOf(data).Some? ==> (r.Ok? <==> BranchFromRef(BranchRefOf(data).value).Ok?)
    ensures BranchRefOf(data).Some? && r.Ok? ==> r.value == Some(BranchFromRef(BranchRefOf(data).value).value)
    ensures BranchRefOf(data).Some? && r.Err? ==> r.error == BranchFromRef(BranchRefOf(data).value).error
  {
    Transpose(AndThen(data.repository,
      (repository: Repository) => MapOption(repository.branchRef, BranchFromRef)))
  }

  /** What every converted record satisfies: a branch only comes with its
      repository, and the repository owner always has a handle. */
  predicate WellFormed(d: Data)
  {
    && (d.branch.Some? ==> d.repo.Some?)
    && (d.repo.Some? ==> d.repo.value.owner.handle.Some?)
  }

  /** `run_graphql_private` after the response has arrived. A response without
      `data` fails, whatever its `errors`. A missing repository or ref only
      leaves `branch` out; a present ref whose conversion fails makes the whole
      conversion fail with that ref's error. */
  function DataFromResponse(response: Response): (r: Result<Data>)
    ensures response.data.None? ==> r == Err(NoDataMessage)
    ensures response.data.Some? && BranchRefOf(response.data.value).None? ==> r.Ok? && r.value.branch.None?
    ensures response.data.Some? && BranchRefOf(response.data.value).Some? ==>
              var b := BranchFromRef(BranchRefOf(response.data.value).value);
              && (r.Ok? <==> b.Ok?)
              && (b.Err? ==> r == Err(b.error))
              && (b.Ok? ==> r.value.branch == Some(b.value))
    ensures r.Ok? ==> (r.value.repo.Some? <==> response.data.value.repository.Some?)
    ensures r.Ok? && r.value.repo.Some? ==>
              && r.value.repo.value.nameWithOwner == response.data.value.repository.value.nameWithOwner
              && r.value.repo.value.owner == UserFromOwner(response.data.value.repository.value.owner)
    ensures r.Ok? ==> (r.value.rateLimitInfo.Some? <==> response.data.value.rateLimit.Some?)
    ensures r.Ok? && r.value.rateLimitInfo.Some? ==>
              r.value.rateLimitInfo.value == RateLimitInfoOf(response.data.value.rateLimit.value)
    ensures r.Ok? ==> (r.value.errors.None? <==> response.errors.None?)
    ensures r.Ok? && r.value.errors.Some? ==> r.value.errors.value == ErrorsFrom(response.errors.value)
    ensures r.Ok? ==> WellFormed(r.value)
  {
    var data :- response.data.OkOr(NoDataMessage);
    // `get_repo_info` never fails, so this `?` never returns early.
    match RepoOf(data)
    case Err(e) => Err(e)
    case Ok(repo) =>
      var branch :- BranchOf(data);
      Ok(Data(
        rateLimitInfo := MapOption(data.rateLimit, RateLimitInfoOf),
        repo := repo,
        branch := branch,
        errors := MapOption(response.errors, ErrorsFrom)))
  }
}
