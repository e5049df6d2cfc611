/** Properties of the conversion that relate several calls, or relate it to
    its inverse in module Encoding. */
module ConversionProperties {
  import opened Wrappers
  import opened Schema
  import opened ViewModel
  import opened Conversion
  import opened Encoding

  /** A ref whose conversion fails: no target, a target that is not a commit,
      or a commit without an author or without a committer. */
  predicate BrokenRef(branchRef: Ref)
  {
    || branchRef.target.None?
    || branchRef.target.value.on.OtherObject?
    || branchRef.target.value.on.author.None?
    || branchRef.target.value.on.committer.None?
  }

  /** The responses the conversion rejects, stated on the response alone. */
  predicate Rejected(response: Response)
  {
    || response.data.None?
    || (BranchRefOf(response.data.value).Some? && BrokenRef(BranchRefOf(response.data.value).value))
  }

  lemma ConversionFailsIff(response: Response)
    ensures DataFromResponse(response).Err? <==> Rejected(response)
  {
  }

  /** The rate-limit copy loses nothing, in either direction. */
  lemma RateLimitRoundTrip(rateLimit: RateLimit, info: RateLimitInfo)
    ensures RateLimitOf(RateLimitInfoOf(rateLimit)) == rateLimit
    ensures RateLimitInfoOf(RateLimitOf(info)) == info
  {
  }

  /** An author or committer converts without loss, in either direction. */
  lemma ActorRoundTrip(actor: GitActor, u: User)
    ensures ActorOf(UserFromActor(actor)) == actor
    ensures UserFromActor(ActorOf(u)) == u
  {
  }

  /** Every user with a handle is the conversion of some owner ... */
  lemma OwnerRoundTrip(u: User)
    requires u.handle.Some?
    ensures UserFromOwner(OwnerOf(u)) == u
  {
  }

  /** ... but the owner's kind is not recoverable: a user owner and an
      organization owner with the same fields convert to the same record. */
  lemma OwnerKindIndistinguishable(owner: RepositoryOwner)
    ensures UserFromOwner(AsOrganization(owner)) == UserFromOwner(owner)
  {
  }

  /** A commit record comes from exactly one target. */
  lemma CommitRoundTrip(head: Target, c: Commit)
    ensures CommitFromTarget(TargetOf(c)) == Ok(c)
    ensures CommitFromTarget(head).Ok? ==> TargetOf(CommitFromTarget(head).value) == head
  {
  }

  lemma BranchRoundTrip(branchRef: Ref, b: Branch)
    ensures BranchFromRef(RefOf(b)) == Ok(b)
    ensures BranchFromRef(branchRef).Ok? ==> RefOf(BranchFromRef(branchRef).value) == branchRef
  {
  }

  lemma {:induction false} ErrorsFromThenBack(errorList: seq<ResponseError>)
    ensures ResponseErrorsOf(ErrorsFrom(errorList)) == errorList
    decreases |errorList|
  {
    if errorList != [] {
      ErrorsFromThenBack(errorList[1..]);
      assert ErrorsFrom(errorList)[1..] == ErrorsFrom(errorList[1..]);
    }
  }

  lemma {:induction false} ErrorsBackThenFrom(errs: seq<GraphqlError>)
    ensures ErrorsFrom(ResponseErrorsOf(errs)) == errs
    decreases |errs|
  {
    if errs != [] {
      ErrorsBackThenFrom(errs[1..]);
      assert ResponseErrorsOf(errs)[1..] == ResponseErrorsOf(errs[1..]);
    }
  }

  /** Every well-formed record is what some response converts to: together
      with the `WellFormed` postcondition of `DataFromResponse`, the records
      the conversion can produce are exactly the well-formed ones. */
  lemma DataRoundTrip(d: Data)
    requires WellFormed(d)
    ensures DataFromResponse(ResponseOf(d)) == Ok(d)
  {
    var response := ResponseOf(d);
    var data := response.data.value;
    assert RepoOf(data) == Ok(d.repo) by {
      if d.repo.Some? {
        OwnerRoundTrip(d.repo.value.owner);
      }
    }
    assert BranchOf(data) == Ok(d.branch) by {
      if d.branch.Some? {
        BranchRoundTrip(RefOf(d.branch.value), d.branch.value);
      }
    }
    assert MapOption(data.rateLimit, RateLimitInfoOf) == d.rateLimitInfo by {
      if d.rateLimitInfo.Some? {
        RateLimitRoundTrip(RateLimitOf(d.rateLimitInfo.value), d.rateLimitInfo.value);
      }
    }
    assert MapOption(response.errors, ErrorsFrom) == d.errors by {
      if d.errors.Some? {
        ErrorsBackThenFrom(d.errors.value);
      }
    }
  }

  /** Re-encoding a converted owner gives the owner in the organization kind. */
  lemma OwnerBackToOrganization(owner: RepositoryOwner)
    ensures OwnerOf(UserFromOwner(owner)) == AsOrganization(owner)
  {
  }

  /** From an accepted response, the conversion drops nothing but the owner's
      kind: re-encoding the record gives the response back with its owner in
      the organization kind. */
  lemma ConversionForgetsOnlyOwnerKind(response: Response)
    requires DataFromResponse(response).Ok?
    ensures ResponseOf(DataFromResponse(response).value) == WithOrganizationOwner(response)
  {
    var d := DataFromResponse(response).value;
    var data := response.data.value;
    assert ResponseOf(d).errors == response.errors by {
      if response.errors.Some? {
        ErrorsFromThenBack(response.errors.value);
      }
    }
    match data.repository
    case None =>
    case Some(repository) =>
      OwnerBackToOrganization(repository.owner);
      if repository.branchRef.Some? {
        BranchRoundTrip(repository.branchRef.value, d.branch.value);
      }
  }
}
