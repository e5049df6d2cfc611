/** The inverse direction of the conversion: a response that converts to a
    given record. These functions are not part of the backend; they are the
    reference against which the conversion is shown to copy every field it
    reads and to drop only the owner's kind. */
module Encoding {
  import opened Wrappers
  import opened Schema
  import opened ViewModel

  function RateLimitOf(info: RateLimitInfo): RateLimit
  {
    RateLimit(info.cost, info.limit, info.nodeCount, info.remaining, info.used, info.resetAt)
  }

  function ActorOf(u: User): GitActor
  {
    GitActor(u.avatarUrl, u.name, u.email, MapOption(u.handle, (login: string) => ActorUser(login)))
  }

  /** An owner that shows as `u`. The converted record does not say whether the
      owner was a user or an organization; the organization kind is chosen
      because its email is optional like the record's. */
  function OwnerOf(u: User): RepositoryOwner
    requires u.handle.Some?
  {
    RepositoryOwner(u.avatarUrl, u.handle.value, OrganizationOwner(OwnerOrganization(u.name, u.email)))
  }

  function TargetOf(c: Commit): Target
  {
    Target(CommitObject(c.sha, c.message, Some(ActorOf(c.author)), Some(ActorOf(c.committer))))
  }

  function RefOf(b: Branch): Ref
  {
    Ref(b.name, Some(TargetOf(b.head)))
  }

  function ResponseErrorsOf(errs: seq<GraphqlError>): seq<ResponseError>
  {
    if errs == [] then [] else [ResponseError(errs[0].message)] + ResponseErrorsOf(errs[1..])
  }

  /** The whole response for a record that satisfies the converted records'
      invariant (a branch only with a repository, an owner with a handle). */
  function ResponseOf(d: Data): Response
    requires d.branch.Some? ==> d.repo.Some?
    requires d.repo.Some? ==> d.repo.value.owner.handle.Some?
  {
    var repository :=
      if d.repo.None? then None
      else Some(Repository(d.repo.value.nameWithOwner, OwnerOf(d.repo.value.owner), MapOption(d.branch, RefOf)));
    Response(
      Some(ResponseData(MapOption(d.rateLimitInfo, RateLimitOf), repository)),
      MapOption(d.errors, ResponseErrorsOf))
  }

  /** The owner with a user's kind replaced by the organization kind that shows
      the same way. */
  function AsOrganization(owner: RepositoryOwner): RepositoryOwner
  {
    match owner.on
    case UserOwner(user) =>
      owner.(on := OrganizationOwner(OwnerOrganization(user.name, Some(user.email))))
    case OrganizationOwner(_) => owner
  }

  /** The response with its repository owner, if any, put in the organization kind. */
  function WithOrganizationOwner(response: Response): Response
  {
    match response.data
    case None => response
    case Some(data) =>
      match data.repository
      case None => response
      case Some(repository) =>
        response.(data := Some(data.(repository := Some(repository.(owner := AsOrganization(repository.owner))))))
  }
}
