/** The flat records the backend hands to the browser (the `Data` record and
    the records it is built from). */
module ViewModel {
  import opened Wrappers
  import opened Schema

  /** A person as shown in the cards: repository owner, commit author or
      committer. `handle` is a GitHub login, when one is known. */
  datatype User = User(avatarUrl: Uri, handle: Option<string>, name: Option<string>, email: Option<string>)

  datatype Repo = Repo(nameWithOwner: string, owner: User)

  datatype Commit = Commit(author: User, committer: User, sha: string, message: string)

  datatype Branch = Branch(name: string, head: Commit)

  datatype GraphqlError = GraphqlError(message: string)

  datatype RateLimitInfo = RateLimitInfo(
    cost: i64,
    limit: i64,
    nodeCount: i64,
    remaining: i64,
    used: i64,
    resetAt: string)

  datatype Data = Data(
    errors: Option<seq<GraphqlError>>,
    rateLimitInfo: Option<RateLimitInfo>,
    branch: Option<Branch>,
    repo: Option<Repo>)
}
