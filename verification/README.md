# docz-api: a Dafny model

This project models the parts of docz-api whose correctness is not visible in
any one function: the OAuth authorization server that several replicas run over
one cache and two tables, the pipeline from a GitHub push to the search index,
and the smaller state machines of the Confluence export, the JWKS cache and the
authorizer. `dafny verify dfyconfig.toml` checks all of it.

## How it is built

**The authorization server** (`OAuth*.dfy`, `Scopes.dfy`) is a step machine. A
step is one cache operation or one SQL statement of one request handler;
handlers keep what they have read in their own program counter, and any number
of them interleave with clock ticks and changes of the grantable scopes. `Do`
is total, so a run is any list of actions. A history records who decided, which
code started which family, and what was signed; no step reads it.
`OAuthInvariant` proves what every step keeps and `OAuthTheorems` the safety of
every run. `OAuthAnswers` says which credential an answer is for. `OAuthPending`
and `OAuthLateWrite` treat pending requests. `OAuthServer` gives the cache, the
store and the handlers as classes and proves that each handler, run alone, is a
run of the machine. `OAuthService` says when each is answered, with what, and what
it leaves, and that a flow in which everybody is in time ends with exactly the
scopes asked for and held.

Secrets are numbers drawn at most once, `hashToken` is a free constructor,
S256 is an uninterpreted function, the clock never goes back, and store and
cache calls succeed. A cache entry with a positive ttl is gone after its
deadline and one set with none stays, as both cache implementations have it.

`getAuthorization` reads the request and then writes it back bound to the
session. The machine keeps the two operations apart. With nothing between them
a request is decided at most once, by the session that first read it, before
its first deadline (`RequestsDecideOnce`). With another handler between them
that can fail: `LateWriteDecidesTwice` is a run in which two sessions decide one
request. `LateWriteIsHarmlessIff` says exactly which writes do harm. Before the
request's deadline a write is harmless if and only if the request is still cached
and not bound to another session. After it, a write puts back what nobody can
read, and is harmless if and only if no handler that has already read the
request is about to take it.

**The ingest pipeline** is `IngestQueue` (the conflict protocol of job ids),
`Repo`, `Fetch`, `Pages`, `Ingest` (from a git tree to what is reconciled),
`PushFilter` and `FilterExact` (when a push that is turned away needs no ingest),
`Reconcile` (the hash-gated table), `SearchIndex` (the index as a mirror of the
tables) and `Pipeline`, which joins them: over any sequence of ingests the index
holds what the last tree of each repository has. `TreePages` tells from the tree
alone what that is, and `IndexRecords` what each record says of it. Paths are
lists of segments; `Paths` proves that comparing them agrees with comparing the
joined strings.

Seven findings about the code are stated as theorems.

- The late write above (`LateWriteIsHarmlessIff`).
- A trigger that finds its job active, or gone before it can inspect it, may be
  left uncovered at that moment: `InspectionLosesExactly` says exactly when, and
  no other trigger is (`NoLostTrigger`). It stays so until the active job is
  retried or another trigger comes (`LostUntilRevived`).
- The push filter compares paths with `docs_dir` as written, while an ingest
  reads the directories that it and the types resolve to. Over all pushes and
  trees it is sound if and only if the string `docs_dir` plus a slash starts
  every enabled type's directory, and that of the pages, or of the index when
  there are none (`SoundIffWatched`). With `docs/`, with `./docs` and with a type
  directory outside `docs_dir` it is not (`ExamplesAreUnsound`).
- Two documents with one id and different contents are rewritten by every
  ingest, and only then does the reconcile not settle (`SettlesIffOneHashPerKey`).
- Only then, too, is the index without some document of the last tree
  (`IndexHoldsTrees`).
- A document that moves with its content unchanged is not written again, so the
  index goes on giving its old path and type (`RecordFollowsContent`).
- A refresh that names no scope signs public:read for a grant without it exactly
  when nothing granted is grantable any more (`RefreshWidensIff`). A grant is
  empty, and so widened, when the approver holds none of the scopes asked for.

**The rest**: `SearchFilter` (values quoted into the search expression come back
as they were), `ExportRun` and `ConfluencePages` (the rerun loop and the sticky
page ids), `Jwks` (the bound on refreshes) and `ScopeAuthorizer` (its cache
answers as the query did).

Where the program changes an object step by step the model has a class or a
loop, proved against a function of the old state; the theorems are about that
function.

## Model

| member | source | states |
|---|---|---|
| OAuthTheorems.Correspondence | internal/oauth/token.go:85-246 | in every reachable state, each access token ever signed, at redemption or after any rotations, comes from one allowed decision on one stored request: its client, its person, at redemption exactly the scopes that person granted and after a rotation some of them or public:read, and the redeemer's verifier hashed to the request's challenge |
| OAuthTheorems.OneToOne | internal/oauth/token.go:157-176 | different families come from different codes, different codes from different decisions, different user ids from different people |
| OAuthTheorems.HistoryIsKept | internal/oauth/consent.go:75-145 | no later step of any run rewrites a request, a decision, a code's or a family's origin, or a signed token |
| OAuthTheorems.OneLivePerFamily | internal/store/oauth.sql.go:135-156 | a family has at most one token that is neither used nor revoked |
| OAuthTheorems.RevokedForGood | internal/store/oauth.sql.go:121-125 | once every token of a family is revoked, no run makes a live one in it |
| OAuthTheorems.EndedIsRevoked | internal/oauth/token.go:341-345 | an answer that says a family ended is given only when every row of it is revoked |
| OAuthAnswers.OneAnswerPerCredential | internal/oauth/token.go:216-231 | of two requests that present one refresh token, or one code, however they overlap, at most one is answered with tokens |
| OAuthAnswers.AnswersWhatWasPresented | internal/oauth/token.go:85-246 | an answer with tokens is for the code or refresh token that its request presented |
| OAuthTheorems.OneWinner | internal/oauth/token.go:216-231 | in every reachable state no two handlers are answered with tokens for one refresh token or one code |
| OAuthTheorems.LoserRevokes | internal/oauth/token.go:223-228 | a handler that loses the rotation is on its way to an error and, when it answers, the token's whole family is revoked, the winner's successor included |
| OAuthTheorems.ReuseRevokes | internal/oauth/token.go:251-258 | so is one that read the token already used |
| OAuthTheorems.ReplayRevokes | internal/oauth/token.go:92-98 | a code presented while its redeemed marker is cached ends the family it started |
| OAuthTheorems.ReplayIsSeen | internal/oauth/token.go:171-173 | within redeemedTTL of a redemption the marker is still there to take, or the replay that took it has revoked the family or is about to |
| OAuthTheorems.ReplayWithinTTL | internal/oauth/server.go:28-36 | presenting a code again within redeemedTTL of its redemption signs nothing in any continuation, and its family is revoked by that handler or by the replay before it |
| OAuthTheorems.SecondPresentationMintsNothing | internal/oauth/token.go:100-103 | a code already taken, whose marker is gone, is never exchanged again |
| OAuthTheorems.FailedRedemptionSpends | internal/oauth/token.go:100-114 | a redemption that fails its checks takes the code out of the cache for good: no run starts a family from it |
| OAuthTheorems.WithdrawnScopeIsNotRefreshed | internal/oauth/token.go:302-315 | after a scope leaves the grantable set and the rotations in flight are through, no refresh signs it until it is grantable again |
| OAuthTheorems.RunKeeps | internal/oauth/token.go:85-379 | every interleaving keeps the invariant and only adds to the history |
| OAuthTheorems.DoKeeps | internal/oauth/consent.go:39-145 | every single step does |
| OAuthInvariant.UpsertKeeps | internal/store/users.sql.go:34-41 | the upsert keeps ids and (provider, subject) pairs in one-to-one correspondence, and no row changes its person |
| OAuthInvariant.RotateGrowsTokens | internal/store/oauth.sql.go:135-145 | rotating a live token keeps one live token per family, every row's line, and dead families dead |
| OAuthInvariant.RevokeGrows | internal/store/oauth.sql.go:121-125 | revoking a family leaves none of its rows live and touches no other row's line |
| OAuthInvariant.InsertGrows | internal/store/oauth.sql.go:56-60 | inserting into a family with no live token keeps one live token per family |
| OAuthInvariant.StartFamilyKeeps | internal/oauth/token.go:157-170 | starting a family keeps the invariant |
| OAuthInvariant.MarkRedeemedKeeps | internal/oauth/token.go:171-175 | so does remembering the redemption and signing |
| OAuthInvariant.RotateKeeps | internal/oauth/token.go:216-243 | so does rotating a live token and signing |
| OAuthInvariant.FinishRevokingKeeps | internal/oauth/token.go:341-345 | so does revoking a family and answering |
| OAuthInvariant.TakeCodeKeeps | internal/oauth/token.go:100-118 | so does taking a code, whether or not the request then passes |
| OAuthInvariant.ConsumeKeeps | internal/oauth/consent.go:98-103 | so does taking a pending request |
| OAuthInvariant.RecordKeeps | internal/oauth/consent.go:113-122 | so does recording the person |
| OAuthInvariant.IssueCodeKeeps | internal/oauth/consent.go:124-136 | so does storing a code |
| OAuthInvariant.BindKeeps | internal/oauth/consent.go:56-63 | so does binding a pending request |
| OAuthPending.RequestsDecideOnce | internal/oauth/consent.go:39-145 | with getAuthorization as one step: a request is decided at most once, by the session that first read it and by its first deadline; until then it is cached, bound to that session with that deadline; the binding never changes |
| OAuthPending.TimelyRunsDecideOnce | internal/oauth/consent.go:55-103 | with its two operations apart, the same of every run whose writes fit |
| OAuthLateWrite.LateWriteIsHarmlessIff | internal/oauth/consent.go:48-63 | a write leads to no wrong decision, over all continuations whose own reads are written at once, if and only if: before the deadline, the request is still cached and not bound to another session; after it, no handler is about to take the request |
| OAuthLateWrite.FittingWriteIsHarmless | internal/oauth/consent.go:56-63 | a write that finds the request cached, not bound to another session and in time leads to none |
| OAuthLateWrite.ExpiredWriteIsHarmless | internal/oauth/consent.go:148-167 | nor does one after the deadline with nobody about to take the request: what it puts back is never decided |
| OAuthLateWrite.RestoredIsHarmful | internal/oauth/consent.go:75-103 | a request put back in time leads to a second decision, or to one by another session than its first |
| OAuthLateWrite.OverdueIsHarmful | internal/oauth/consent.go:98-103 | a write after the deadline under a handler about to take the request leads to a decision after the deadline |
| OAuthPending.BindFitsIffOnce | internal/oauth/consent.go:56-63 | the write keeps the inductive invariant behind these exactly when it fits |
| OAuthPending.LateWriteDecidesTwice | internal/oauth/consent.go:49-63 | a run of the whole protocol from its start with a late write in which two sessions decide one request |
| OAuthPending.DoOnce | internal/oauth/consent.go:75-167 | every step with no late write keeps requests decided once |
| OAuthPending.BindingGrows | internal/oauth/consent.go:56-57 | no step replaces a request's first session |
| OAuthPending.ViewFits | internal/oauth/consent.go:48-63 | a read followed at once by its write always fits |
| OAuthServer.Cache.Take | internal/oauth/cache.go:64-71 | returns an unexpired value and removes its key in one step, nothing else |
| OAuthServer.Cache.Get | internal/oauth/cache.go:49-56 | returns the value unless it is absent or expired |
| OAuthServer.Cache.Set | internal/oauth/cache.go:59-61 | stores the value until now + ttl, for good when the ttl is not positive |
| OAuthServer.MemoryCache.Get | internal/oauth/cache.go:104-116 | answers as the shared cache, although it deletes an expired entry: no later call can tell |
| OAuthServer.MemoryCache.Take | internal/oauth/cache.go:133-144 | the same of Take, and the key is gone from every later answer |
| OAuthServer.MemoryCache.Set | internal/oauth/cache.go:119-130 | the new state, with no deadline for a ttl that is not positive |
| OAuthServer.MemoryCache.Delete | internal/oauth/cache.go:147-153 | removes the key and nothing else |
| OAuthServer.Store.UpsertUser | internal/store/users.sql.go:34-41 | the existing id with email and login refreshed, or the next id |
| OAuthServer.Store.InsertRefreshToken | internal/store/oauth.sql.go:56-60 | one new unused row |
| OAuthServer.Store.RotateRefreshToken | internal/store/oauth.go:65-74 | rotated exactly when the token is live; then it is used and its successor inserted, otherwise nothing changes |
| OAuthServer.Store.RevokeRefreshFamily | internal/store/oauth.sql.go:121-133 | revokes the family's unrevoked rows and counts them |
| OAuthServer.AloneHasItsEffect | internal/oauth/token.go:85-246 | a handler with nothing beside it answers and writes as its effect says, in the machine's own steps |
| OAuthServer.AloneIsARun | internal/oauth/server.go:193-200 | and that is a run of the machine, for secrets not drawn before |
| OAuthServer.Server.Authorize | internal/oauth/authorize.go:81-123 | stores a pending request exactly when every check passes, as the machine's step does |
| OAuthServer.Server.LoadPending | internal/oauth/consent.go:148-167 | the cached request unless its own deadline has passed |
| OAuthServer.Server.GetAuthorization | internal/oauth/consent.go:39-70 | the handler's effect |
| OAuthServer.Server.DecideAuthorization | internal/oauth/consent.go:75-145 | the handler's effect |
| OAuthServer.Server.RedeemCode | internal/oauth/token.go:85-132 | the handler's effect |
| OAuthServer.Server.NewFamily | internal/oauth/token.go:157-176 | one row of the new family and the redeemed marker |
| OAuthServer.Server.Refresh | internal/oauth/token.go:181-246 | the handler's effect |
| OAuthServer.Server.Rotate | internal/oauth/token.go:216-243 | from a row that may be out of date: a token still live is rotated and answered for, any other has its family revoked |
| OAuthServer.Server.Refreshable | internal/oauth/token.go:251-268 | the first check that fails, with the family revoked for reuse and disuse only |
| OAuthServer.Server.RevokeFamily | internal/oauth/token.go:341-345 | revokes the family's rows |
| OAuthServer.Server.Revoke | internal/oauth/token.go:350-379 | the handler's effect |
| OAuthState.CheckCode | internal/oauth/token.go:136-152 | passes exactly when the verifier, client, redirect_uri and resource are those of the request, and names the first that is not |
| OAuthService.ApprovedFlowIsServed | internal/oauth/server.go:193-200 | authorize, view, approve, redeem, refresh, each in time and with the right values: both token answers are for the approver and the client, with those requested scopes that the approver holds (public:read at the refresh when there are none) |
| OAuthService.AuthorizeStoresWhatWasAsked | internal/oauth/authorize.go:81-146 | a request that passes every check is stored for ten minutes with its client, redirect_uri and challenge and each scope it names once, in its order; any other changes nothing |
| OAuthService.ViewBindsTheFirstSession | internal/oauth/consent.go:39-70 | the first session to view an open request is bound to it with its deadline as it was, sees it again, and no other does |
| OAuthService.ApprovalIssuesCode | internal/oauth/consent.go:75-145 | exactly the bound session decides; an approval gives a code for a minute with the request, the person's up-to-date row and the requested scopes held, in order |
| OAuthService.RedemptionIsServed | internal/oauth/token.go:85-176 | a redemption is answered with tokens exactly when the code is there, not lately redeemed, and the form is its own; then with the code's client, person and scopes, in a new family, and the code is remembered for ten minutes |
| OAuthService.RefusedRedemptionChanges | internal/oauth/token.go:92-118 | a refused one ends the family of a replayed code, costs a code whose form is wrong (with the error of the first wrong value), and changes nothing else |
| OAuthService.RefreshIsServed | internal/oauth/token.go:181-246 | a refresh is answered with tokens exactly when the token is live, in date, its client's, and each scope named is left of the grant; then with those scopes, or with all that is left, in order, which the successor stores from that moment on |
| OAuthService.RefusedRefreshChanges | internal/oauth/token.go:251-285 | a refused one ends the family for reuse and disuse, and otherwise changes nothing |
| OAuthService.RefreshWidensIff | internal/oauth/token.go:302-315 | a refresh that names no scope has one that was not granted exactly when nothing granted is grantable |
| OAuthService.RevocationEndsTheFamily | internal/oauth/token.go:350-379 | any token of a family, a used one too, ends it and no other; an unknown one changes nothing |
| OAuthState.LoadPending | internal/oauth/consent.go:148-167 | what is returned is the cached request, before its deadline |
| Scopes.JoinRoundTrip | internal/oauth/verify.go:410-411 | splitting the stored scope string gives back the list that was joined |
| Scopes.RequestedScopes | internal/oauth/authorize.go:128-146 | the requested scopes, each once, at its first place, or the first one that cannot be granted |
| Scopes.RequestedIs | internal/oauth/authorize.go:128-146 | naming no scope is asking for public:read; scopes that are all grantable are the result, each once at its first place; otherwise the first that is not is refused |
| Scopes.Intersect | internal/oauth/server.go:180-189 | the requested scopes the person holds, and public:read, in order |
| Scopes.Granted | internal/oauth/server.go:180-189 | exactly the requested scopes that are held or public:read |
| Scopes.GrantedIs | internal/oauth/server.go:180-189 | as often and in the order in which they were requested |
| Scopes.CurrentScopes | internal/oauth/token.go:302-315 | the granted scopes still grantable, in order, public:read when none is |
| Scopes.CurrentIs | internal/oauth/token.go:302-315 | the granted scopes still grantable, all of them in order, or public:read alone when there are none |
| Scopes.RefreshScopes | internal/oauth/token.go:272-285 | the scopes of a rotation |
| Scopes.RefreshedIs | internal/oauth/token.go:272-285 | naming no scope continues with all that is left of the grant; scopes that are all left are the result; otherwise it is refused |
| Scopes.FieldsSplit | internal/oauth/authorize.go:129 | a space ends a scope: the scopes of two texts with a space between are those of the one and then of the other |
| Scopes.FieldsOfWord | internal/oauth/authorize.go:129 | a text without spaces is one scope, an empty one none |
| IngestQueue.NoLostTrigger | internal/queue/client.go:124-146 | in any interleaving of callers and worker, once all have returned, every call that returned nil without seeing an active task or failing to inspect it is covered: a run started since it began, or one is still to start |
| IngestQueue.CoveredOrReplaced | internal/queue/client.go:171-218 | before that, its task is there, has run, or is about to be put back by the caller that deleted it |
| IngestQueue.InspectionLosesExactly | internal/queue/client.go:171-194 | a call that the inspection ends is not covered at that moment exactly when no run has started since it began and the job is active, or gone with nobody replacing it |
| IngestQueue.LostUntilRevived | internal/queue/client.go:120-123 | once all calls have returned, one that is not covered stays so over any run without a retry or another trigger |
| IngestQueue.LossesHappen | internal/queue/client.go:120-123 | both losses occur in runs that end with all calls returned |
| IngestQueue.RunKeeps | internal/queue/client.go:171-218 | the invariant behind these, over every run |
| IngestQueue.ClearingFailsIffActive | internal/queue/client.go:200-213 | a caller that clears an id fails exactly when a run is active by then; otherwise its own task takes the id, or it coalesces onto one that came first |
| IngestQueue.AloneCovers | internal/queue/client.go:124-146 | a lone trigger leaves a task that will run, unless one is active |
| IngestQueue.TaskIDsDistinct | internal/queue/client.go:107-109 | one task id is one repository's task of one kind |
| IngestQueue.ClassifyConflict | internal/queue/client.go:237-255 | an id is cleared exactly when its task was read and has ended for good |
| IngestQueue.Client.Enqueue | internal/queue/client.go:150-160 | conflicts exactly when the id is taken, in any state |
| IngestQueue.Client.ResolveTaskIDConflict | internal/queue/client.go:171-218 | ends as the protocol's caller does from its inspection, and touches no other id |
| IngestQueue.Client.ClearAndReenqueue | internal/queue/client.go:200-213 | ends as the caller does from its deletion, whatever the id's state is by then |
| IngestQueue.Client.EnqueueIngest | internal/queue/client.go:124-146 | does what a lone caller of the protocol does, delayed by the debounce |
| IngestQueue.Client.EnqueueExport | internal/queue/export.go:72-91 | the same, at once |
| Paths.UnderIsPrefix | internal/ingest/pages.go:234-236 | comparing strings with a slash appended is comparing directories |
| Paths.RawPrefixIff | internal/webhook/events.go:222 | the prefix as written selects the files of a directory exactly when it is the directory's normal form |
| Paths.TextInjective | internal/ingest/pages.go:38-43 | different paths have different strings |
| Fetch.FindBlobSHA | internal/githubapp/client.go:296-303 | the first blob at exactly the path |
| Fetch.ClassifyTree | internal/githubapp/client.go:312-326 | the entries wanted, in tree order |
| Fetch.FetchAdditionalDocs | internal/githubapp/client.go:174-193 | one blob for each present markdown entry, in the config's order |
| Fetch.FetchDocBlobs | internal/githubapp/client.go:329-345 | one blob for each entry |
| Fetch.FetchRepo | internal/githubapp/client.go:71-124 | the snapshot, or nothing without a .docz.yaml |
| Pages.PublishedPathsAreFunctional | internal/ingest/pages.go:28-84 | no two page rows share a published path, across README, index, file and additional_docs pages |
| Pages.PublishedIsInjective | internal/ingest/pages.go:140-205 | two files of docs_dir published at one path are one file |
| TreePages.TreePagesAreIngested | internal/ingest/pages.go:28-205 | the pages ingested of a tree are exactly these, each with its own file's content and title: of the files in docs_dir that are markdown, not the landing page, not hidden by templates/ or api.exclude and not in a type's directory, a directory's README.md at the directory, its index.md there for want of one, any other at its own place; and the additional documents whose places are free |
| TreePages.TreeDocumentsAreIngested | internal/ingest/service.go:337-373 | the documents ingested are exactly the files fetched that are directly in a type's directory and have frontmatter, under the last type of that directory |
| TreePages.IngestFailsIff | internal/ingest/service.go:337-373 | a tree with a config is ingested unless such a file has frontmatter that cannot be read |
| TreePages.FetchTakesExactly | internal/githubapp/client.go:296-345 | exactly the docz documents, and with an api block the markdown of docs_dir and the additional documents, are fetched, each with its content |
| TreePages.TreeFilesAreIngested | internal/githubapp/client.go:71-124 | so are the changelog when it is asked for and the home, where they are |
| Pages.ClaimReadmeDirs | internal/ingest/pages.go:140-151 | the directories that own a published README.md |
| Pages.ClassifyDocsDir | internal/ingest/pages.go:156-205 | the published path of a file, if it has one |
| Pages.IsExcluded | internal/ingest/pages.go:209-216 | whether an excluded prefix is the path or above it |
| Pages.TypeDirOf | internal/ingest/pages.go:220-227 | the first type directory above the path, if there is one |
| Pages.BuildPages | internal/ingest/pages.go:28-84 | the docs_dir pages in order, then the additional_docs whose paths are free |
| Ingest.BuildDocuments | internal/ingest/service.go:337-373 | one document for each parsed blob in a type directory, or an error |
| Ingest.BuildInput | internal/ingest/service.go:86-144 | what is reconciled for a tree |
| Ingest.BlobsAreFiles | internal/githubapp/client.go:71-124 | every blob fetched is the file at its path in the tree |
| Ingest.IngestedPagesAreFunctional | internal/ingest/pages.go:28-84 | the pages ingested from a well-formed tree have distinct published paths |
| Pipeline.IndexHoldsTrees | internal/ingest/service.go:86-170 | from an empty site, after any sequence of ingests of any repositories, failed ones included, the index holds of each exactly the documents and pages of the tree last ingested, if and only if no two of those documents share an id and differ; in any case nothing else |
| IndexRecords.RecordFollowsContent | internal/store/reconcile.go:132-155 | after an ingest the record of a document is the one before if that has its content, and otherwise has the document's type, title, status, author, date, path, content and time; so its path and type are the tree's exactly when the content changed or they already were |
| IndexRecords.PageRecordFollowsContent | internal/store/reconcile.go:196-215 | the same of a page's record |
| IndexRecords.RecordsDescribeTheirBody | internal/ingest/indexmap.go:43-90 | after any sequence of ingests every record's id, title, status, author and date are those its own body gives, under its repository's label |
| IndexRecords.InTreeIsTheTree | internal/ingest/service.go:86-144 | the documents and pages the index holds, told from the tree |
| Pipeline.StepsKeep | internal/ingest/service.go:86-170 | the invariant behind it: the tables represent the last tree, and the index mirrors the tables |
| Pipeline.IngestedPagesAreOnePerKey | internal/store/reconcile.go:175-221 | the page rows given to the reconcile name each key once |
| FilterExact.SoundIffWatched | internal/webhook/events.go:218-235 | over all pushes and trees, a push to the default branch that the filter turns away leaves what is ingested as it was, head sha aside, if and only if docs_dir as written covers every enabled type's directory, and that of the pages unless it is the root or excluded, or that of the index unless it is watched as the changelog |
| FilterExact.ExamplesAreUnsound | internal/ingest/pages.go:118 | so not for docs_dir "./docs" or "docs/", nor for a type directory "../x" of "docs" |
| FilterExact.NormalFormIsWatched | internal/ingest/service.go:125-139 | but for any docs_dir in normal form with the type directories in it |
| FilterExact.UncoveredTypeIsUnsound | internal/ingest/service.go:337-373 | with a type directory not covered there is a push that adds a document and is turned away |
| FilterExact.UncoveredDocsDirIsUnsound | internal/ingest/pages.go:156-205 | with the pages' directory not covered there is one that adds a page |
| FilterExact.UncoveredIndexIsUnsound | internal/webhook/events.go:242-250 | with neither covered nor watched there is one that adds the repository's index |
| PushFilter.FilteredPushChangesNothing | internal/webhook/events.go:218-235 | when the config is watched, a push that is turned away leads to a tree that ingests as the one before, whatever files it changed |
| PushFilter.OtherPushesAreTurnedAway | internal/webhook/events.go:218-235 | a push to another branch does not trigger, nor one that touches no watched file |
| PushFilter.CoveredFiles | internal/webhook/events.go:222 | the prefix as written selects every file of a directory if it covers the directory, and otherwise none |
| PushFilter.DocumentOutsideDocsDirIsMissed | internal/webhook/events.go:218-235 | a document added in a type directory that is not covered, under a name that is not watched, does not trigger although it adds a row |
| PushFilter.IngestLeavesRow | internal/ingest/service.go:125-139 | the row an ingest leaves is the one the filter should read |
| PushFilter.ShouldIngestPush | internal/webhook/events.go:218-235 | true exactly when the branch matches and some changed path of some commit triggers |
| PushFilter.Matches | internal/webhook/events.go:224-231 | whether one list of a commit holds a path that triggers |
| PushFilter.WatchedFiles | internal/webhook/events.go:242-250 | the changelog, the landing page and the additional docs that are set |
| PushFilter.UntouchedFilesAgree | internal/webhook/events.go:218-235 | a push turned away changed no file an ingest reads |
| Reconcile.Table.Reconcile | internal/store/reconcile.go:118-168 | the whole new table, the reports, and upserted + unchanged = desired |
| Reconcile.Table.Upsert | internal/store/reconcile.go:129-156 | the first loop |
| Reconcile.Table.DeleteAbsent | internal/store/reconcile.go:158-167 | the second loop: the rows not desired are deleted, each reported once |
| Reconcile.ReconciledKeys | internal/store/reconcile.go:175-221 | afterwards the keys are exactly the desired ones |
| Reconcile.ReconciledRepresents | internal/store/reconcile.go:118-168 | and every row has the hash and content of an item of its key, whatever is desired |
| Reconcile.ContentsAreDesired | internal/store/reconcile.go:118-168 | of every item of its key, when a key is desired with one hash |
| Reconcile.ReportsWhatChanged | internal/store/reconcile.go:132-155 | a key is reported exactly when its row is new or has another hash, and every other row is the one there was, even with keys desired twice |
| Reconcile.ChangedKeysDistinct | internal/store/reconcile.go:118-155 | with distinct keys none is reported twice |
| Reconcile.SecondRunChangesNothing | internal/store/reconcile.go:118-168 | the same desired state again writes and deletes nothing |
| Reconcile.SettlesIffOneHashPerKey | internal/store/reconcile.go:129-156 | a second run finds nothing to write exactly when no key is desired with two different hashes |
| SearchIndex.IndexMirrorsTables | internal/ingest/service.go:235-299 | over any sequence of ingests of any repositories, the index holds of each exactly the images of its rows |
| SearchIndex.SyncMirrors | internal/ingest/service.go:235-270 | one sync restores the mirror, although unchanged rows are not sent |
| SearchIndex.OthersUntouched | internal/ingest/service.go:235-270 | no record of another repository is added, removed or rewritten |
| SearchIndex.KeySplits | internal/ingest/indexmap.go:19-21 | the first underscore splits a key: equal keys have equal repositories and ids |
| SearchIndex.ImagesByID | internal/ingest/indexmap.go:33-36 | a document's and a page's record never share an id, nor do two rows' |
| SearchIndex.Indexer.SyncIndex | internal/ingest/service.go:235-270 | the index after the deletions and the writes |
| SearchIndex.Indexer.UpsertedIndexRecords | internal/ingest/service.go:276-299 | one record for each reported row that is still there |
| SearchIndex.Indexer.DeleteDocuments | internal/ingest/service.go:253-257 | removes the ids and nothing else |
| SearchIndex.Indexer.IndexDocuments | internal/ingest/service.go:266-268 | each record replaces the one under its id |
| Numbers.ValueOfDecimal | internal/ingest/indexmap.go:20 | a printed number reads back |
| SearchFilter.FilterRoundTrip | internal/search/search.go:206-228 | the expression, parsed, holds exactly the clauses and values put in, whatever characters they have |
| SearchFilter.FilterAdmitsOnlyAllowed | internal/search/search.go:202-228 | it admits a record exactly when its repository is allowed (all without a scope, none for an empty one) and it has every requested value |
| SearchFilter.TwoReplacementsEscape | internal/search/search.go:241-245 | the two replacements in turn escape each character once |
| SearchFilter.QuotedRoundTrip | internal/search/search.go:232-245 | a quoted value reads back, and reading stops at its closing quote |
| SearchFilter.BuildFilter | internal/search/search.go:206-228 | prints the clauses the parameters ask for |
| SearchFilter.AppendEq | internal/search/search.go:232-237 | adds a clause for a value that is not empty |
| ExportRun.RunsAreBounded | internal/export/service.go:121-149 | at most maxRuns exports, each of another head than the one before |
| ExportRun.SuccessExportsLastLoad | internal/export/service.go:121-149 | a success in fewer exports has loaded once more after the last and found the head just exported, so no commit that was there by then is missed |
| ExportRun.MovingHeadIsExportedThrice | internal/export/service.go:121-149 | a head that moves during every export is exported three times |
| ExportRun.JobEndsAsItsLastExport | internal/export/service.go:121-149 | a job goes on only from a success and ends as its last export did |
| ExportRun.OnceEnds | internal/export/service.go:180-255 | each way an export ends: unreadable, disabled, refused for layout, space or scopes, failed in writing, failed in recording, succeeded |
| ExportRun.SuccessOnlyWritesWhatIsAllowed | internal/export/service.go:190-216 | every head a successful run exported was loaded, enabled, allowed and publishable |
| ExportRun.Run | internal/export/service.go:121-149 | does what the recursive account of a run says |
| ExportRun.RunOnce | internal/export/service.go:190-255 | the outcome of one export |
| ConfluencePages.PageIDsAreSticky | internal/store/confluence.sql.go:214-235 | over any mix of loads and records every row has a page id, no key disappears, and an id gives way only to another |
| ConfluencePages.PageIDComesFromReport | internal/store/confluence.sql.go:220-222 | a page id that changed is one a run reported for that key |
| ConfluencePages.ReportedPageIsRecorded | internal/export/service.go:391-416 | a page that a run reports last for its key, with an id or with a row that has one, is recorded with what the run reported |
| ConfluencePages.LastReportedWins | internal/store/confluence.sql.go:214-235 | the id and the link reported last for a key replace the recorded ones |
| ConfluencePages.UnreportedStays | internal/store/confluence.sql.go:220-225 | those not reported stay |
| ConfluencePages.FailedPageKeepsItsLink | internal/store/confluence.sql.go:222-225 | a page reported without id and link keeps both |
| ConfluencePages.Pages.UpsertConfluencePage | internal/store/confluence.sql.go:214-235 | the row after the statement |
| ConfluencePages.Pages.RecordConfluenceExport | internal/store/confluence.go:118-149 | the rows after all of a run's pages |
| ConfluencePages.Pages.Record | internal/export/service.go:360-416 | the rows after the pages worth recording |
| ConfluencePages.Pages.ListConfluencePageIDs | internal/store/confluence.sql.go:70-72 | the page ids that are not empty, by key |
| Jwks.RefreshesAreBounded | internal/oauth/verify.go:267-292 | in any window of w seconds at most w / 60 + 1 refreshes for an unknown kid, failed ones included |
| Jwks.AnswerIsTheKeyOfTheSet | internal/oauth/verify.go:267-311 | a call is answered with a key exactly when it is the first of the kid named, or the only one when none is, in the set the call leaves |
| Jwks.SetIsOwnCachedOrSent | internal/oauth/verify.go:315-352 | that set is the replica's own, the cached one when it has none, or one the issuer sent |
| Jwks.KnownKidAsksNobody | internal/oauth/verify.go:277-279 | a known kid is answered with nobody asked and nothing changed |
| Jwks.PublishedKidIsFound | internal/oauth/verify.go:267-292 | a key the issuer publishes for an unknown kid answers the first call 60 seconds after the last attempt, and its set is cached for an hour |
| Jwks.UnknownKidWithinInterval | internal/oauth/verify.go:281-291 | an unknown kid makes the issuer be asked exactly when 60 seconds have passed, and before that changes nothing |
| Jwks.AttemptsSpaced | internal/oauth/verify.go:281-282 | two attempts are at least an interval apart |
| Jwks.FindIffKeyFor | internal/oauth/verify.go:295-311 | what is found is the first key of the kid named, or the only key when none is |
| Jwks.TrustedIssuer.Key | internal/oauth/verify.go:267-292 | the answer of a lookup and the new state of the replica and of the cache |
| Jwks.TrustedIssuer.FindKey | internal/oauth/verify.go:295-311 | the first key of that kid, or the only key when none is named |
| Jwks.TrustedIssuer.Load | internal/oauth/verify.go:315-326 | the cached set, else the issuer's, which is then cached |
| Jwks.TrustedIssuer.Refresh | internal/oauth/verify.go:331-352 | a set with keys replaces the replica's and is cached for an hour; one that cannot be had leaves both |
| ScopeAuthorizer.AnswersAreRecentQueries | internal/authorize/scopes.go:84-106 | every answer is the store's, of this request or of one with equal scopes less than ttl ago |
| ScopeAuthorizer.AnswerIsReused | internal/authorize/scopes.go:112-143 | within ttl the same principal with the same scopes is answered alike without the store, whatever others ask meanwhile |
| ScopeAuthorizer.NoScopesSeeNothing | internal/authorize/scopes.go:86-89 | no session, or one without scopes, sees nothing whatever is cached |
| ScopeAuthorizer.NoTTLNoCache | internal/authorize/scopes.go:112-115 | without a ttl every answer is the store's own |
| ScopeAuthorizer.Authorizer.Allowed | internal/authorize/scopes.go:84-106 | the answer and the new cache |
| ScopeAuthorizer.Authorizer.Lookup | internal/authorize/scopes.go:112-128 | hits exactly on a fresh entry for equal scopes, and drops any other |
| ScopeAuthorizer.Authorizer.Remember | internal/authorize/scopes.go:130-143 | the new cache |
| ScopeAuthorizer.Authorizer.ForgetKey | internal/authorize/scopes.go:146-150 | the cache without the key |

## Left out

- Transport and storage errors of HTTP, Redis, Postgres, GitHub, Meilisearch,
  Confluence and asynq, but for the ones named above; in particular the index is
  not said to recover after a failed sync.
- Cryptography and encodings: SHA-256, signatures, base64, JSON, YAML, PEM and
  JWT parsing. Cache values are values, so undecodable ones do not occur; a
  SHA-256 content hash and the 16-digit path hash are assumed free of collisions
  among the contents a reconcile compares and the paths of one repository.
- OAuthServer.Server.Authorize: starts after the client metadata and the
  redirect_uri are resolved, which need the network.
- OAuthServer.Server.DecideAuthorization: does not record the consent row
  (`UpsertConsent`), which nothing here reads, nor the audit lines.
- OAuthTheorems.WithdrawnScopeIsNotRefreshed: assumes one set of grantable
  scopes for all replicas; the program has one in each process, so the guarantee
  holds from when the last replica has the new set.
- OAuthServer.MemoryCache.Take: its two critical sections are one step here, as
  the interface documents Take.
- The client's name and URI and the `state` value of a pending request, which
  are carried through unread.
- Access tokens already signed when a family is revoked: they are stateless and
  stay valid until they expire.
- Postgres below statement level: isolation, the transaction around a reconcile
  and around a recorded export.
- FilterExact.SoundIffWatched: assumes that both trees list their
  files in one order of their paths, that the fetch's hints agree with the
  parsed config, and that the row is what the last ingest left.
- Pages.ClassifyDocsDir: paths have no empty, "." or ".." segments, so of
  validPublishedPath only the character checks remain.
- Ingest.BuildDocuments: the frontmatter reader and the created date are one
  uninterpreted function that yields a document, nothing, or an error.
- Reconcile.Table.Reconcile: git sha and repository path of a row whose content
  is unchanged stay as they were, as its path and type do; of those two columns
  nothing is claimed. `reconcileDocTypes`, which has no gate, is left out as the
  easier half.
- ConfluencePages.Pages.RecordConfluenceExport: without the repository's sync row,
  which is overwritten by each run.
- ConfluencePages.Pages.Record: without the sync row and the run's status,
  folder and counts in it.
- SearchIndex.IndexMirrorsTables: assumes that each index call succeeds, that
  the rows are read back before the next ingest, and that doc ids do not start
  with "p_". The purge of a removed repository is left out.
- Pipeline.IndexHoldsTrees: assumes the same, and speaks of keys and contents; the
  other fields are those of IndexRecords.
- TreePages.TreePagesAreIngested: assumes that the fetch's hints agree with the
  parsed config, and does not speak of the order of the rows.
- OAuthService.ApprovedFlowIsServed: nothing runs between the five calls but the
  clock.
- ScopeAuthorizer.Authorizer.Allowed: one clock reading stands for the lookup,
  the query and the remembering. `ScopesFor` is left out.
- `handlePush`: the lookup of the repository row; a push for an unknown one is
  skipped. The readers of the fetch's hints are one uninterpreted function.
- ExportRun.Run: what an export writes to Confluence is not modelled, only its
  outcome. Metrics, logging and trace context are left out throughout.
- `cmd/`, `ui/`, the MCP tools, login, DTO mapping and `pkg/`, except the
  constants and file-name pattern cited above.
