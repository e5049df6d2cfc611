/** The decoded GraphQL response of the branch-head query, as the generated
    client types present it to the conversion code. Only the fields that the
    conversion reads are mirrored; every other field of the generated types is
    left out. Scalars `URI`, `DateTime` and `GitObjectID` are strings. */
module Schema {
  import opened Wrappers

  /** GraphQL `Int`, deserialized into a 64-bit signed integer. */
  newtype i64 = x: int | -0x8000_0000_0000_0000 <= x < 0x8000_0000_0000_0000

  type Uri = string
  type DateTime = string
  type GitObjectId = string

  /** The `rateLimit` object of the query. */
  datatype RateLimit = RateLimit(
    cost: i64,
    limit: i64,
    nodeCount: i64,
    remaining: i64,
    used: i64,
    resetAt: DateTime)

  /** The concrete kind of the repository owner: the `... on User` and
      `... on Organization` fragments. A user's email is non-null in the
      schema; an organization's is nullable. */
  datatype OwnerUser = OwnerUser(name: Option<string>, email: string)
  datatype OwnerOrganization = OwnerOrganization(name: Option<string>, email: Option<string>)
  datatype OwnerOn = UserOwner(user: OwnerUser) | OrganizationOwner(orga: OwnerOrganization)

  datatype RepositoryOwner = RepositoryOwner(avatarUrl: Uri, login: string, on: OwnerOn)

  /** The GitHub account linked to a commit author or committer. */
  datatype ActorUser = ActorUser(login: string)

  /** A commit author or committer (a `GitActor`). */
  datatype GitActor = GitActor(
    avatarUrl: Uri,
    name: Option<string>,
    email: Option<string>,
    user: Option<ActorUser>)

  /** The concrete kind of the object a ref points at. Only the `... on Commit`
      fragment carries fields; every other kind is one variant holding its
      type name. */
  datatype TargetOn =
    | CommitObject(oid: GitObjectId, message: string, author: Option<GitActor>, committer: Option<GitActor>)
    | OtherObject(typename: string)

  datatype Target = Target(on: TargetOn)

  /** The branch ref (`ref_` in the generated types). */
  datatype Ref = Ref(name: string, target: Option<Target>)

  datatype Repository = Repository(nameWithOwner: string, owner: RepositoryOwner, branchRef: Option<Ref>)

  datatype ResponseData = ResponseData(rateLimit: Option<RateLimit>, repository: Option<Repository>)

  /** One entry of the response's top-level `errors` list. */
  datatype ResponseError = ResponseError(message: string)

  /** The whole GraphQL response body: `data` and `errors` are both optional. */
  datatype Response = Response(data: Option<ResponseData>, errors: Option<seq<ResponseError>>)
}
