# odysee-api: a verified model of its protocols

This project models the parts of odysee-api, the backend of odysee.com, whose correctness is about
whole runs or all inputs, and proves what they are there for.

* **Asynquery.** A publish may be parked as a draft and committed later, while forklift announces
  that the uploaded file is processed. The two events meet on one row of `asynqueries`; whichever
  comes second starts the SDK call. `Asynquery` is the step system (transactions, user and row locks,
  tasks, redeliveries, an unlocked whole-row write), `AsynquerySafety` its inductive invariant,
  `AsynqueryTheorems` what follows for every run, `AsynqueryManager` the handlers over the table they
  update. `Tasks` holds the metadata encoding and the request that is sent.
* **First login.** `FirstLogin`: racing transactions that insert a user, claim an SDK server with a
  conditional update and create a wallet there, under a wrapper that retries once.
* **Queries.** `QueryRequest` (allow lists, the forced wallet id, cache key texts over the JSON text
  of `Json`), `ClaimSearch` (the rewriting of searches), `QueryCache` (lookups, one call per key,
  storing), `CacheInvalidation` (what dropping the searches on a new block achieves),
  `CacheRetrieval` (the cache's operations over the state they change), `Retries` (wallet reloads, the
  getter, endpoint switching), `StreamAccess` (who may watch, and when a stream is bought), `Pipeline`
  (the hooks in their order).
* **Smaller protocols.** `LockRegistry` (release callbacks beside a distributed mutex),
  `WalletTracker` (touch against unload), `ReplicatedCache` (reads from lagging replicas),
  `AssetUrls` (grouped URL substitution).

Five of these (asynquery, first login, query cache, locks, wallet tracker) are step systems: a `State`,
the `Step`s any number of participants may take in any order, `Enabled` and `Do`. `StepSystems` defines
their runs: `Runs` is a finite sequence of steps, `Leads` that there is one. An invariant is proved of
every step (`StepKeeps`) and of every run (`RunKeeps`); the theorems are read off it. Their classes hold
the same operations in imperative form, over the state they change: each operation states the state it
leaves and that running it alone is one run of the step system, so the theorems apply to any sequence of
operations.

The results that may surprise a reader:

* The unlocked whole-row write that finalises a row is harmless only because of a global invariant:
  no row is finalised before it is committed, and a committed row changes in nothing but its status
  (`ReadyRowsStay`).
* Several promises do not hold as one would first put them. Each has a run or an input on which it fails
  and the exact condition under which it holds:
  * A committed row with its file stored has had its task sent, unless the sending failed
    (`QueuedUnlessLost`, `EnqueueCanBeLost`). No run makes up for that; only another announcement of the
    file can still start the SDK call (`LostTaskStays`, `LostRowCanFire`).
  * A commit is started by the announcement of its file exactly if the announcement finds its row
    (`UploadRendezvous`); a commit after a failure can be left waiting (`RetryLeftWaiting`).
  * A client owns its mutex, and is the right one to ask for it, exactly until it expires in use
    (`OwnershipLapses`, `ExpiryMisdirects`).
  * A request returns its user without a server exactly if it was offered one without an id
    (`UnservedExactly`, `ConfiguredServerUnassigned`).
  * A touch can be lost only if one stamped with the value a pass reads is unwritten at that moment
    (`NoTouchLost`, `ExposedTouchCanBeLost`, `TouchCanBeLost`), which cannot happen if touches are
    written faster than the passes look back (`PromptTouchesKept`).
  * A search asked for before a block can come back to the master's cache exactly if it was under way,
    or waiting to be stored, when the cached ones were dropped (`InvalidationHolds`,
    `OldSearchReturns`); a lagging replica can serve a dropped one as long as it has not expired
    (`DroppedEntryServed`, `EveryAnswer`).
  * Reads agree with the master under every lag exactly for keys whose live writes do
    (`CurrentIffAgree`, `DeletedCanReturn`).
  * A scheduled stream is held back exactly if its scheduling tag comes before the others that restrict
    it (`ScheduledHeldBack`, `OrderMatters`).
  * Users never share a cache key with each other; an anonymous request shares a user's exactly if it
    sends that user's wallet id (`UsersNeverShareKeys`, `AnonymousSharesKey`, `AnonymousResolveShares`).
  * A paid URL lacks a reference exactly if its receipt has an empty transaction id (`EmptyReference`,
    `EmptyReferenceServed`), and rounding up oversteps exactly below zero (`RoundUpLeast`,
    `RoundUpOvershoots`).
* The constant `releaseTimeRoundDownSec` is named for rounding down; the code rounds up, and so does
  the model.

## Model

| member | source | states |
|---|---|---|
| `Tasks.MetaRoundTrip` | internal/tasks/tasks.go:48-58 | Upload metadata written to the row and read back is the same, although zero durations and dimensions are left out of the text. |
| `Tasks.StoredFields` | internal/tasks/tasks.go:48-58 | The stored text under the names of the Go fields and tags, the three optional ones exactly when not zero. |
| `Tasks.Outgoing` | app/asynquery/asynquery.go:458-467 | Every parameter of the request that is handed on for the SDK, key by key: the file path never, the patch over the stored request, and for stream updates no name but `replace`. |
| `Tasks.OutgoingUnique` | app/asynquery/asynquery.go:458-467 | The key-by-key description leaves exactly one request. |
| `Tasks.PrepareRequest` | app/asynquery/asynquery.go:445-467 | The in-place editing of the parameters, in whatever order the patch is copied, ends in that request. |
| `Tasks.DispatchOf` | app/asynquery/asynquery.go:445-542 | What the SDK gets for a stored request and its file, key by key: size, name and both hashes of the metadata, dimensions if both are positive, duration if positive; no path; for stream updates no name but `replace`; everything else as stored. |
| `Tasks.DispatchExample` | app/asynquery/asynquery.go:527-542 | The parameters of one stream update, written out. |
| `Asynquery.Newest` | app/asynquery/asynquery.go:177-182 | The row a call or delivery works on is the user's newest row for the upload; none only if there is none. |
| `AsynquerySafety.CommitCallStep` | app/asynquery/asynquery.go:188-285 | The end of a call's transaction, in all its branches, keeps the invariant whatever others hold or are about to write. |
| `AsynquerySafety.CommitMergeStep` | app/asynquery/asynquery.go:317-377 | So does the end of a delivery's transaction. |
| `AsynquerySafety.ReadQueryStep` | app/asynquery/asynquery.go:379-412 | So does a worker that reads a row without checking whether it is committed. |
| `AsynquerySafety.WriteFinalStep` | app/asynquery/asynquery.go:567-600 | So does the unlocked write of a whole row read earlier. |
| `AsynquerySafety.StepKeeps` | app/asynquery/asynquery.go:100-600 | Every step of every participant keeps the invariant, and only lets histories grow. |
| `AsynquerySafety.RunKeeps` | app/asynquery/asynquery.go:100-600 | So does every run. |
| `AsynqueryTheorems.TriggerLaw` | app/asynquery/asynquery.go:143-156 | In every reachable state: no trigger of the SDK call before the commit; after it one for all files stored before it and one per later delivery until success; a delivery is dropped only after another was kept. |
| `AsynqueryTheorems.Rendezvous` | app/asynquery/asynquery.go:212-259 | With one delivery a committed row has exactly one trigger, whichever came first; without one, none. |
| `AsynqueryTheorems.UploadRendezvous` | app/asynquery/asynquery.go:158-377 | With one delivery for an upload whose newest row is committed there is exactly one trigger, on the row the delivery found; the newest commit is started exactly if that is its row, and otherwise the found row has failed. |
| `AsynqueryTheorems.RetryLeftWaiting` | app/asynquery/asynquery.go:261-277 | A run in which the delivery fires on a row that fails, and the row of the next commit is left without a trigger. |
| `AsynqueryTheorems.UnfailedUpload` | app/asynquery/asynquery.go:188-210 | While none of its rows has failed, an upload has one row. |
| `AsynqueryTheorems.CommitEnqueuesIffStored` | app/asynquery/asynquery.go:232-259 | A commit has a task to send exactly when a file was stored before. |
| `AsynqueryTheorems.MergeFiresIffCommitted` | app/asynquery/asynquery.go:335-376 | A delivery calls the SDK exactly when a non-deferred call came before and the row has not succeeded; it is stored exactly when none came. |
| `AsynqueryTheorems.QueuedUnlessLost` | app/asynquery/asynquery.go:143-154 | A committed row with its file stored has had its task sent, except exactly while it is owed or after it was lost. |
| `AsynqueryTheorems.EnqueueCanBeLost` | app/asynquery/asynquery.go:143-152 | A run that ends with a committed row, its file stored, nobody under way and no task. |
| `AsynqueryTheorems.LostTaskStays` | app/asynquery/asynquery.go:143-152 | Along every run a task that could not be sent is not sent later, and whatever the SDK receives for the row was started by a delivery that fired. |
| `AsynqueryTheorems.LostRowCanFire` | app/asynquery/asynquery.go:292-315 | A run in which the file is announced again and the SDK receives the request although the task was lost. |
| `AsynqueryTheorems.ReadyRowsStay` | app/asynquery/asynquery.go:567-600 | Along every run a committed row keeps owner, body, flags and metadata; a row past `received` is committed. |
| `AsynqueryTheorems.RowsBounded` | app/asynquery/asynquery.go:163-277 | Whatever number of calls race, an upload has at most one row more than it has rows that ever failed. |
| `AsynqueryTheorems.DispatchesCommitted` | app/asynquery/asynquery.go:292-315 | Whatever the SDK ever receives for a row is, key by key, the first non-deferred call on it with delivered metadata, never a draft. |
| `AsynqueryTheorems.OrderConfluence` | app/asynquery/asynquery.go:398-412 | Two runs with equal commit and metadata send the same request, whatever the order of draft, file and commit was. |
| `AsynqueryManager.CallManager.CallUploadTx` | app/asynquery/asynquery.go:158-286 | For each state of the newest row whether a row is added, committed or left, with all its fields, which one is answered for, and when a task is to be sent. |
| `AsynqueryManager.CallManager.Call` | app/asynquery/asynquery.go:100-156 | Table, queue and result for every request, path, newest row and outcome of sending: `_defer: true` parks an upload's call, makes no row ready and queues nothing; it is never stored, and every other parameter is the client's. |
| `AsynqueryManager.CallManager.CallWithoutFile` | app/asynquery/asynquery.go:112-128 | A call for no upload adds a ready row and one task, or reports that the queue refused it. |
| `AsynqueryManager.CallManager.HandleMerge` | app/asynquery/asynquery.go:292-377 | No row: retried. Not committed: stored. Succeeded: ignored. Else the SDK is sent the stored body with this file's parameters, the row gets its status, and the task is retried exactly after a transport error. |
| `AsynqueryManager.CallManager.HandleQuery` | app/asynquery/asynquery.go:379-419 | Any task of the queue, delivered any number of times: the SDK is sent the stored body with the parameters of the file last stored, which rows with an upload always have. |
| `AsynqueryManager.CallManager.RobustCall` | app/asynquery/asynquery.go:429-507 | One request is sent, with the file's parameters key by key; the row succeeds exactly with a result, and the queue is told to retry exactly after a transport error. |
| `AsynqueryManager.QueuedRow` | app/asynquery/asynquery.go:398-412 | A row whose task was sent has metadata that decodes to what was last stored, unless it is for no upload. |
| `FirstLogin.StepKeeps` | app/wallet/wallet.go:54-287 | Every statement of every transaction keeps the invariant; rows, assignments and wallets stay. |
| `FirstLogin.RunKeeps` | app/wallet/wallet.go:54-287 | So does every run. |
| `FirstLogin.Agreement` | app/wallet/wallet.go:220-287 | All requests of a user that return a server return the one committed for the user. |
| `FirstLogin.AssignmentStays` | app/wallet/wallet.go:220-287 | A committed assignment never changes. |
| `FirstLogin.AssignmentHasWallet` | app/wallet/wallet.go:240-324 | Every assignment made has a wallet on that same server, made by the very transaction that won the conditional update. |
| `FirstLogin.LoserRetries` | app/wallet/wallet.go:139-185 | Whoever loses the insert race finds the winner's row at the second attempt; nobody ends with the aborted-transaction error. |
| `FirstLogin.UnservedExactly` | app/wallet/wallet.go:220-287 | In every run a request that returns its user returns no server exactly if it found the row without one and was offered a server without an id. |
| `FirstLogin.EveryoneServed` | app/wallet/wallet.go:220-287 | So if all servers on offer have an id, whoever returns a user returns a server. |
| `FirstLogin.ConfiguredServerUnassigned` | app/wallet/wallet.go:220-287 | A server without id ends in a committed user with a wallet and no server. |
| `FirstLogin.InTx` | app/wallet/wallet.go:101-137 | At most two transactions, each ended once, at most the last committed; exactly which attempts lead to which outcome, failed begins and commits included. |
| `FirstLogin.UserTable.GetUserWithSDKServer` | app/wallet/wallet.go:54-94 | A request alone: an assigned user is returned unchanged, another one is assigned and given a wallet, or nothing changes; other users never change. |
| `LockRegistry.StepKeeps` | pkg/redislocker/redislocker.go:55-89 | Every step, expiry included, keeps: who uses a mutex owns it exactly while it has not lapsed. |
| `LockRegistry.RunKeeps` | pkg/redislocker/redislocker.go:55-89 | So does every run. |
| `LockRegistry.OnlyHoldersAreAsked` | pkg/redislocker/redislocker.go:55-89 | While nobody has lapsed a callback is registered exactly between `Lock` and `Unlock`, and whoever was asked to let go held the mutex when asked. |
| `LockRegistry.MutualExclusion` | pkg/redislocker/redislocker.go:55-89 | Of all clients, in any processes, that use one name at most one has not lapsed. |
| `LockRegistry.OwnershipLapses` | pkg/redislocker/redislocker.go:55-89 | In every run with expiry: a client that got a mutex owns it exactly if it has not expired in use, an asked client held it exactly if it had not by then, and a registered one has not called `Unlock`. |
| `LockRegistry.NothingLapses` | pkg/redislocker/redislocker.go:15-17 | Without expiry nobody lapses. |
| `LockRegistry.ExpiryMisdirects` | pkg/redislocker/redislocker.go:15-17 | A run with expiry in which the wrong client is asked. |
| `LockRegistry.Locker.Lock` | pkg/redislocker/redislocker.go:55-76 | Whom it asks, when it succeeds, and what it registers and takes. |
| `LockRegistry.Locker.Unlock` | pkg/redislocker/redislocker.go:78-89 | The callback goes always, the mutex exactly if it is still this client's and redis answers. |
| `WalletTracker.StepKeeps` | app/wallet/tracker/tracker.go:33-94 | Every step keeps: what an unexposed pass has read is never written again. |
| `WalletTracker.RunKeeps` | app/wallet/tracker/tracker.go:33-94 | So does every run. |
| `WalletTracker.NoTouchLost` | app/wallet/tracker/tracker.go:48-94 | The conditional update clears no row touched since the pass read it, unless a touch stamped with the value read was pending then. |
| `WalletTracker.AtomicTouchesExposeNothing` | app/wallet/tracker/tracker.go:33-45 | If touches are written at the instant they are stamped, that never happens. |
| `WalletTracker.ExposedTouchCanBeLost` | app/wallet/tracker/tracker.go:33-94 | Whenever it does happen, some continuation loses the touch. |
| `WalletTracker.TouchCanBeLost` | app/wallet/tracker/tracker.go:33-94 | A run from the start in which a touch is lost. |
| `WalletTracker.PromptTouchesKept` | app/wallet/tracker/tracker.go:33-94 | If no touch stays unwritten for longer than the passes look back, no touch is ever lost. |
| `WalletTracker.Tracker.Touch` | app/wallet/tracker/tracker.go:33-45 | A touch is a run of the step system that stamps and writes one existing user's row and nothing else. |
| `WalletTracker.Tracker.SelectUsers` | app/wallet/tracker/tracker.go:48-59 | A pass begins with exactly the users not seen since the cutoff, and the times they were seen. |
| `WalletTracker.Tracker.UnloadUser` | app/wallet/tracker/tracker.go:61-90 | Whatever came in between, one turn clears the row only if it still is what the pass read, and touches no other. |
| `WalletTracker.Tracker.Unload` | app/wallet/tracker/tracker.go:48-94 | A whole pass alone clears exactly the users not seen since the cutoff whose wallet is unloaded, and counts those selected. |
| `QueryRequest.WalletForced` | app/query/query.go:25-58 | Whatever the client sent, an authenticated wallet method carries the caller's wallet id and otherwise what was sent. |
| `QueryRequest.QueryOutcomes` | app/query/query.go:25-58 | Blank and unlisted methods and the two forbidden parameters are refused, and wallet methods without a wallet; what an anonymous caller sends goes on unchanged. |
| `QueryRequest.BlankForms` | app/query/query.go:25-29 | Which method names count as blank. |
| `QueryRequest.WalletRequired` | app/query/const.go:89-166 | Every method that takes a wallet but four is refused to anonymous callers, whatever they send. |
| `QueryRequest.OptionalWallet` | app/query/const.go:89-166 | The four that take a wallet and do without one. |
| `QueryRequest.WalletIDText` | app/sdkrouter/sdkrouter.go:172-180 | The text of a wallet id; none for ids that are not positive. |
| `QueryRequest.WalletIDInjective` | app/sdkrouter/sdkrouter.go:172-180 | Different users have different wallet ids. |
| `Json.MarshalInjective` | app/query/cache.go:204-220 | Different JSON values have different texts: nothing that enters the key text is lost in it. |
| `QueryRequest.KeyTextInjective` | app/query/cache.go:204-220 | Different methods or parameters have different key texts. |
| `QueryRequest.KeyTextForm` | app/query/cache.go:204-220 | The key text written out, with absent and with null parameters. |
| `QueryRequest.AllowedMethod` | app/query/const.go:89-166 | No allowed method has the separator in it, for each method of the lists. |
| `QueryRequest.UsersNeverShareKeys` | app/query/query.go:25-58 | Requests of users that share a cache key are one user's, whatever parameters they sent. |
| `QueryRequest.AnonymousSharesKey` | app/query/query.go:44-55 | An anonymous request shares a user's key exactly if it sent that user's wallet id and otherwise the same method and parameters. |
| `QueryRequest.AnonymousResolveShares` | app/query/query.go:44-55 | A request for which it does. |
| `ClaimSearch.RoundUpLeast` | app/query/processors.go:605-611 | The result is the least multiple not below the input exactly if the input is not negative or is a multiple; otherwise one step too far. |
| `ClaimSearch.RoundUpOvershoots` | app/query/processors.go:605-611 | An input on which it is. |
| `ClaimSearch.SliceContains` | app/query/processors.go:594-603 | True exactly if an element of the list is among the items. |
| `ClaimSearch.PreflightClaimSearch` | app/query/processors.go:517-556 | The in-place editing of the parameters is the rewriting the lemmas below are about, absent parameters and decoding errors included. |
| `ClaimSearch.OnlyThreeKeys` | app/query/processors.go:525-554 | Only `not_tags`, `release_time` and `order_by` can change, and what each becomes. |
| `ClaimSearch.RewriteRules` | app/query/processors.go:525-554 | By the request's own flag, tags, order and text, what `not_tags`, `release_time` and `order_by` become and when they stay; all else stays. |
| `ClaimSearch.DecodeRules` | app/query/processors.go:613-632 | The requests the hook accepts: a readable flag and lists without nesting. |
| `ClaimSearch.ListForms` | app/query/processors.go:613-632 | How a parameter reads as a list, for every kind of value. |
| `ClaimSearch.StringsAt` | app/query/processors.go:613-632 | How each element of an array reads as text. |
| `ClaimSearch.ScheduledSearch` | app/query/processors.go:535-543 | A search that asks for scheduled claims is not bounded. |
| `ClaimSearch.PlayableSearch` | app/query/processors.go:535-543 | One at instant 1000 that does not is bounded by 1200. |
| `ClaimSearch.RewriteMeaning` | app/query/processors.go:525-544 | A rewritten search selects exactly the original's claims; if it asks for playable ones, minus private and unlisted ones unless it names either tag, and minus those released at or past the bound unless it names a scheduled tag. |
| `ClaimSearch.ReleasedStay` | app/query/processors.go:535-542 | The bound cuts off no released claim and lets nothing through that is released a whole window from now. |
| `ClaimSearch.WindowSharesKey` | app/query/processors.go:535-542 | Equal searches at any two instants of one 300-second window are rewritten equally and share a key. |
| `ClaimSearch.SameRewritten` | app/query/cache.go:204-220 | Rewritten searches that share a key agree in all the parameters the hook leaves alone. |
| `ClaimSearch.HookedUsersApart` | app/query/processors.go:517-556 | Searches that share a key after the rewriting are one user's, whatever parameters and instants they came with. |
| `QueryCache.StepKeeps` | app/query/cache.go:87-187 | Every step of every request, call, eviction and invalidation keeps the invariant, and finished calls stay as they are. |
| `QueryCache.RunKeeps` | app/query/cache.go:87-187 | So does every run. |
| `QueryCache.EveryAnswer` | app/query/cache.go:87-158 | In every run of any processes, with lookups that may find any unexpired entry ever stored: every answer carries the asker's id, whoever's call brought it, and was brought by a call for that same method and parameters, which either finished while the request waited or, without error, less than the expiration plus five seconds ago. |
| `CacheRetrieval.OneCallTwoIds` | app/query/cache.go:222-229 | A run in which two requests share a call made under one id and answered under another, and each is answered under its own. |
| `QueryCache.CacheHoldsAnswers` | app/query/cache.go:126-143 | No error is ever stored, and whatever was ever stored under a request's key is an answer to that request with that method's expiration. |
| `QueryCache.ExpirationTimes` | app/query/cache.go:189-198 | Ten minutes for `resolve`, 160 seconds for `claim_search`, one minute for all others. |
| `QueryCache.OneCallAtATime` | app/query/cache.go:111-118 | Of two calls one process's cache makes for one request, the first has finished before the second starts. |
| `CacheInvalidation.InvalidationHolds` | app/query/cache.go:160-187 | A search whose call began before a block was handled can come back into the master's cache if and only if it was under way at that moment, or some request had its answer and time to store it. |
| `CacheInvalidation.OldSearchReturns` | app/query/cache.go:160-187 | A run in which one does. |
| `CacheRetrieval.DroppedEntryServed` | pkg/sturdycache/sturdycache.go:67-94 | A run in which an entry dropped for a block answers a request afterwards, from a replica. |
| `CacheInvalidation.FailedInvalidationStays` | app/query/cache.go:167-184 | When invalidating fails, every cached search stays, along every run until a higher block, unless it is evicted or replaced by a newer answer. |
| `CacheRetrieval.Cache.Retrieve` | app/query/cache.go:87-158 | One retrieval, for whatever the backend may say to the lookup, with own or joined call: the answer under the asker's id, and exactly when and with which lifetime it is stored. |
| `CacheRetrieval.Cache.RunInvalidator` | app/query/cache.go:160-187 | The height moves to a higher one even if invalidating fails; an entry goes exactly if it is a search's and invalidating works; every other stays as it is. |
| `CacheRetrieval.OthersSurvive` | app/query/cache.go:177-179 | A request of another method finds after an invalidation what it found before, a search nothing. |
| `Retries.Caller.SendQuery` | app/query/caller.go:204-260 | At most three requests, repeated exactly over wallet errors, the last reply returned; one wallet load per missing wallet; the user deleted only after a third failed load. |
| `Retries.Caller.RandomizeEndpoint` | app/query/caller.go:118-131 | Users stay; anonymous callers move to a backup other than the current endpoint, and panic exactly if there is none. |
| `Retries.Caller.Getter` | app/query/processors.go:730-773 | Gives the SDK's last reply as it came and stops at the first success or input error; every attempt's requests, the wallet loads and the deletions follow from the replies; users never leave their endpoint, anonymous attempts never go to the same one twice in a row; some replies make it panic exactly if all backups are one endpoint and there are more attempts than moves. |
| `StreamAccess.ScanTags` | app/query/processors.go:369-388 | The first tag that restricts decides; none does exactly if the stream is free. |
| `StreamAccess.TagKinds` | app/query/processors.go:371-387 | Which tags restrict in which way, both directions. |
| `StreamAccess.AccessRules` | app/query/processors.go:409-474 | What each way asks of the session, field by field. |
| `StreamAccess.CheckStreamAccess` | app/query/processors.go:356-478 | Access is given exactly to anybody for a free stream, and as a signed URL of the kind asked for to owner, moderator and entitled. |
| `StreamAccess.CheckEntitled` | app/query/processors.go:409-477 | Signed exactly for the entitled: valid signature, purchase, unexpired rental, membership; never for scheduled streams. |
| `StreamAccess.ScheduledHeldBack` | app/query/processors.go:369-428 | A stream scheduled for later is closed to all but owner and moderators if and only if its scheduling tag is the first that restricts. |
| `StreamAccess.OrderMatters` | app/query/processors.go:369-388 | Two tags in two orders, with different outcomes. |
| `StreamAccess.PreflightGet` | app/query/processors.go:146-312 | A URL is served only to those who may watch; exactly when, for restricted and for open streams; of which kind and with which reference. The SDK is asked to buy at most once, exactly for an open stream with a price, not owned, without receipt or purchase, by a caller with a wallet, and for that wallet. |
| `StreamAccess.PurchaseNeedsWallet` | app/query/processors.go:218-227 | A purchase without a wallet is refused before anything is sent; with one it is for that wallet. |
| `StreamAccess.ServedUrl` | app/query/processors.go:146-308 | Exactly when a signed, Arfleet, paid or plain URL is served; a plain one only if nothing restricts the stream and it has no price or the SDK says so. |
| `StreamAccess.MembersOnlyRefused` | app/query/processors.go:146-148 | A stream for members is refused to somebody without a user. |
| `StreamAccess.AnonymousCannotBuy` | app/query/processors.go:215-227 | An anonymous caller who would have to buy gets nothing and buys nothing. |
| `StreamAccess.EmptyReference` | app/query/processors.go:193-297 | A paid URL lacks a reference exactly if the receipt it is made from has an empty transaction id. |
| `StreamAccess.EmptyReferenceServed` | app/query/processors.go:193-197 | A claim for which it does. |
| `Pipeline.HooksAreExact` | app/query/caller.go:341-343 | For every allowed method the prefix test on hooks is equality. |
| `Pipeline.Call` | app/query/caller.go:169-201 | For every method what answers it; searches reach cache and SDK in rewritten form only; built-in and cached answers carry the request's own id, and another id only comes from the SDK itself. |
| `Pipeline.UserCarriesWallet` | app/query/caller.go:174-182 | What a user's wallet request asks the cache and the SDK for is for that user's wallet, after rewriting too. |
| `ReplicatedCache.Cache.Write` | pkg/sturdycache/sturdycache.go:62-104 | What a set, delete, invalidation by tags or clear leaves in the master; replicas stay. |
| `ReplicatedCache.Cache.GetWithTTL` | pkg/sturdycache/sturdycache.go:79-89 | The value and remaining time of the first answering replica that has the key, else of the master, else its miss or fault. |
| `ReplicatedCache.ReadsAreHistoric` | pkg/sturdycache/sturdycache.go:67-77 | A value read is a lookup in some beginning of the master's history; a miss is the master's miss. |
| `ReplicatedCache.CurrentIffAgree` | pkg/sturdycache/sturdycache.go:67-89 | Reads give the master's answer under every lag and failure if and only if every write to the key that would still be live is the master's current value and lifetime. |
| `ReplicatedCache.FirstWriteVisible` | pkg/sturdycache/sturdycache.go:62-77 | So a key written once is read back at once, from any replicas. |
| `ReplicatedCache.DeletedCanReturn` | pkg/sturdycache/sturdycache.go:96-99 | A deleted key can be read again. |
| `AssetUrls.Group` | app/arweave/arweave.go:20-31 | Every item is listed under its URL and under no other. |
| `AssetUrls.ReplaceAssetUrls` | app/arweave/arweave.go:11-47 | Each item gets the substitute of its first URL, once, in whatever order substitutes come; all else stays. |

## Left out

- What an asynquery dispatches is the request handed to the caller; the wallet id the caller then forces, its refusals and its repeated sending are in `QueryRequest` and `Retries` and are not repeated there. Likewise a purchase is one query, which `Retries` may send up to three times.
- Postgres, redis, asynq, redsync and the SDK are steps with the guarantees named in the modules: row locks, aborted transactions, redelivered tasks, a mutex, replies.
- A commit that fails is a rollback; a commit whose acknowledgement is lost is not modelled.
- Rows are ordered by creation; equal `created_at` values are not modelled.
- The regular expression that finds the upload id in a file path is a parameter, assumed never to find an empty id.
- The `response`, `error` and time columns of `asynqueries`; SDK calls given up because the user or the body cannot be read, and a finalising write that the database refuses.
- MD5: two different key texts are taken to have different digests.
- JSON numbers are their literals; floating point reformatting is not modelled. The Latin-1 part of Unicode white space is what `TrimSpace` knows here.
- The fields of a search that the hook does not use are one flag, whether they decode; case-insensitive matching of parameter names is not modelled.
- Cache operations take no time of their own and fail once the five seconds for them are over; compression and encoding of cached values are not modelled.
- Streams are taken to have a stream value; parameters of another type than the code asserts, and digests shorter than six digits, are not modelled.
- StreamAccess.PreflightGet: begins with the claim as resolved, so a missing or unresolved `uri` is not modelled; takes URL signing, token making and the second resolve as given results; their text and cryptography are not modelled.
- Hooks added by other packages, postflight hooks other than URL substitution, logging, metrics and waiting times between attempts.
- AssetUrls.ReplaceAssetUrls: works on the list of URLs at the given path; paths into JSON text and the resolver's HTTP calls are not modelled.
- FirstLogin.UserTable.GetUserWithSDKServer: begins where the user is known; the lookup of the remote user by token and its cache are not modelled.
- The server list and load watching of the SDK router, `ReplaceAssetUrl`, and the administrator's reassignment, deletion and id back-fill of users, which break the assignment by design.
- HTTP handlers, uploads and geopublish status columns, watchman, keybox, generated code: no invariant beyond single statements.
