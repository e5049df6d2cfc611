# Branch-head query: response to view-model conversion

The backend of this GitHub demo (a Rust crate compiled to WebAssembly) sends
one GraphQL query for a repository, one of its branches and the API rate
limit, and turns the decoded response into a flat `Data` record for the
browser: the GraphQL `errors`, the `rate_limit_info`, the `repo` (name and
owner) and the `branch` (name and head commit with its author and
committer). This project models that conversion, `run_graphql_private` from
the point where the response has arrived plus its helpers in
`backend/src/lib.rs`, and proves what it does: which responses are
rejected and with which message, in which order the checks run, which output
fields are present, and that every field it reads is copied unchanged.

Files and modules:

- `wrappers.dfy`, module `Wrappers`: `Option` (with `ok_or`), a `Result` whose
  error is the text of the `anyhow` error, and the `map` / `and_then` /
  `transpose` combinators the source chains.
- `schema.dfy`, module `Schema`: the decoded response, mirroring only the
  fields the conversion reads. The owner kind (`User` or `Organization`) and
  the target kind (`Commit` or any other git object) are variants. GraphQL
  `Int` is a 64-bit signed `i64` newtype.
- `viewmodel.dfy`, module `ViewModel`: the `User`, `Repo`, `Branch`,
  `Commit`, `GraphqlError`, `RateLimitInfo` and `Data` records
  (backend/src/lib.rs lines 30-79).
- `conversion.dfy`, module `Conversion`: the conversion functions, each with
  a contract, and `WellFormed`, the invariant of every record the conversion
  produces.
- `encoding.dfy`, module `Encoding`: the inverse direction, a response that
  converts to a given record. It is not part of the backend. It is the
  reference for the round-trip lemmas.
- `properties.dfy`, module `ConversionProperties`: lemmas relating the
  conversion to `Encoding` and to a declarative description of the rejected
  responses.

What the proofs establish, in short:

- A response without `data` fails with "No data on response", whatever its
  `errors` list holds.
- A missing repository or ref only leaves `branch` absent. A present ref
  whose target is missing, not a commit, or a commit without an author or a
  committer fails the whole conversion with that ref's message. The author
  is checked before the committer.
- The records the conversion can produce are exactly the well-formed ones.
  A branch only comes with its repository, and the owner always has a
  handle. This is shown by the `WellFormed` postcondition of
  `DataFromResponse` and by `DataRoundTrip`.
- On an accepted response the conversion drops exactly one thing: whether
  the repository owner is a user or an organization
  (`ConversionForgetsOnlyOwnerKind`).

Telling an error payload from a data payload (`"Error" in props`) happens
in the browser code, src/App.tsx, which is not part of this model. The
backend conversion modelled here either fails with one error text or returns
`Data` with the response's GraphQL `errors` list copied into it.

## Model

| member | source | states |
|---|---|---|
| `Conversion.RateLimitInfoOf` | backend/src/lib.rs:115-124 | each of the six rate-limit fields (cost, limit, node count, remaining, used, reset time) is the same-named field of the response's rate limit |
| `Conversion.UserFromOwner` | backend/src/lib.rs:228-243 | the owner's handle is always `Some(login)` and its avatar is the owner's; a user owner always gets `Some(email)` and its name, an organization owner keeps its optional email and name |
| `Conversion.RepoFromRepository` | backend/src/lib.rs:176-181 | never fails; the name with owner is copied and the owner is the converted owner |
| `Conversion.UserFromActor` | backend/src/lib.rs:197-215 | the handle is present exactly when a linked GitHub user exists, and is then that user's login; avatar, name and email are copied from the same author or committer record |
| `Conversion.CommitFromTarget` | backend/src/lib.rs:183-226 | a non-commit target fails with "ref does not appear to be a commit"; a commit without author fails with "No author on commit " + oid whatever its committer; then a missing committer fails with "No committer on commit " + oid; it succeeds exactly when both are present, with sha = oid, the message copied and both people converted |
| `Conversion.BranchFromRef` | backend/src/lib.rs:164-174 | a ref without target fails with "No target for branch"; otherwise it succeeds exactly when the target converts, any target failure is passed through unchanged, and the branch name is the ref name and its head the converted commit |
| `Conversion.ErrorsFrom` | backend/src/lib.rs:153-160 | the converted error list has the same length as the response's, and its i-th message is the i-th response error's message |
| `Conversion.RepoOf` | backend/src/lib.rs:147 | the `repo` field never fails and is present exactly when the response has a repository, holding that repository's conversion |
| `Conversion.BranchOf` | backend/src/lib.rs:148-152 | the `branch` field is an absent success when the repository or its ref is missing; otherwise it succeeds exactly when the ref converts, holding that branch, or fails with the ref's error |
| `Conversion.DataFromResponse` | backend/src/lib.rs:144-161 | no `data` fails with "No data on response" whatever `errors` holds; a missing repository or ref gives success without branch; with a ref, success exactly when the ref converts and its error otherwise; `repo` present exactly when the repository is, with name and owner converted; rate-limit info and errors present exactly when in the response and converted field by field; every result is well-formed |
| `ConversionProperties.ConversionFailsIff` | backend/src/lib.rs:144-226 | the conversion fails exactly when `data` is missing, or a repository with a ref is present whose target is missing, not a commit, or a commit lacking an author or a committer |
| `ConversionProperties.RateLimitRoundTrip` | backend/src/lib.rs:115-124 | the rate-limit copy is lossless in both directions |
| `ConversionProperties.ActorRoundTrip` | backend/src/lib.rs:197-215 | converting an author or committer is lossless, and every user record is the conversion of some author record |
| `ConversionProperties.OwnerRoundTrip` | backend/src/lib.rs:228-243 | every user record that has a handle is the conversion of some owner |
| `ConversionProperties.OwnerKindIndistinguishable` | backend/src/lib.rs:228-243 | a user owner converts to the same record as an organization owner with the same avatar, login, name and email |
| `ConversionProperties.OwnerBackToOrganization` | backend/src/lib.rs:228-243 | re-encoding a converted owner gives back the owner, with a user owner turned into the organization kind |
| `ConversionProperties.CommitRoundTrip` | backend/src/lib.rs:183-226 | every commit record is the conversion of some target, and a target that converts is determined by its conversion |
| `ConversionProperties.BranchRoundTrip` | backend/src/lib.rs:164-174 | every branch record is the conversion of some ref, and a ref that converts is determined by its conversion |
| `ConversionProperties.ErrorsFromThenBack` | backend/src/lib.rs:153-160 | the error-list conversion is lossless: encoding its result gives back the response's list |
| `ConversionProperties.ErrorsBackThenFrom` | backend/src/lib.rs:153-160 | every list of error records is the conversion of some response error list |
| `ConversionProperties.DataRoundTrip` | backend/src/lib.rs:144-161 | every well-formed record is what some response converts to, so the conversion's possible results are exactly the well-formed records |
| `ConversionProperties.ConversionForgetsOnlyOwnerKind` | backend/src/lib.rs:144-161 | re-encoding the record of an accepted response gives back that response with the owner put in the organization kind: nothing else is dropped |

## Left out

- The network part of `run_graphql_private` (backend/src/lib.rs:132-142): building the client, sending the query and decoding JSON. The model starts from an already-decoded response. A transport or decoding failure is an error raised before the modelled code runs.
- `run_graphql` (backend/src/lib.rs:103-113): it only maps the error text into a JavaScript `Error`, which is the `Err` string here.
- `init`, `init_log`, the panic hook, the `wee_alloc` allocator and the `Into<JsValue>` serde conversion (backend/src/lib.rs:14-18, 81-101): runtime and FFI glue with no logic.
- backend/src/web.rs and backend/src/github.rs: browser `fetch` I/O, fixed endpoint and headers, and JSON parsing by a library that is not part of this model.
- src/App.tsx, src/index.tsx and craco.config.js: React UI state, `localStorage`, a wall-clock and floating-point minute difference for the rate-limit card, and build configuration.
- Fields of the generated query types that the conversion does not read (the GraphQL error's locations, path and extensions, among others) are not mirrored. The round-trip lemmas are stated over the mirrored fields only.
- The schema and the query file that generate the input types are not part of this model. The target kinds other than `Commit` are one variant carrying a type name, because the conversion treats them all alike.
