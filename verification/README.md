# Kryptic Kubernetes operator: a verified model

The operator keeps Kubernetes Secrets in step with Kryptic projects. This project models its two
intricate cores and proves what they are meant to guarantee.

**The template engine.** Usernames, URLs and SQL statements are made from templates by passes that
find an opener, cut to the next closer, splice a value in and start over from the front. `Text`
holds the string operations, `Entropy` the rejection sampler, `Passes` and `RandomCalls` the
rewriting loops, `Segments` the theory of segmented templates (brace-free literals and `{{body}}`
holes with brace-free bodies), `Nesting` what nested openers do to the random pass, `Statements` the substitution in map order, `Username` the whole
pipeline, `Meanings` what each placeholder renders to.

**The lease and reconcile protocol.** `Platform` and `Wire` are the conversation with the platform,
whose every reply is arbitrary; a ghost trace records it, with the provider calls and with what the
libraries for keys and sealing answered. Every result, error or not, is explained by what was said. `Apply`, `Leases` and `Sync` mint, reuse
and revoke leases. `Secrets` and `Resources` are the Kubernetes API server, on which users act
between any two requests. `Reconcile` and `Manager` are the controller's passes and its worker loop; `Expected` says of the
values themselves what Secrets, outcomes, reports and URLs come to;
`Status` is what they read and write of a resource; `Echo` is the state machine of worker and watch;
`Runs` says what a turn of the worker is and what follows for every run of turns; `Manager.Manager.Run`
is such a run; `UnwrapCache`
is the key cache under interleaved calls.

Code that changes things step by step is a method with the loops and fields of the source; each is
proved against a specification function or predicate, and the promises are lemmas about that.
Nondeterminism is havoc: map iteration order, replies of the network and of providers, clocks, lost
answers, actions of users.

What the proofs take for granted, beyond the code itself:

- Encryption is ideal (`Open` undoes `Sealed` for the same key and context), and the JSON of minted
  credentials and of the lease map decodes to what was encoded.
- Nobody but the operator takes its finalizer off or writes the status of a resource (`Resources.Rely`).
  This is what keeps an object in existence while a pass is at work on it, also across the retry
  after a conflict.
- Statements about recorded lease ids say themselves when they need it: the annotation was readable,
  nobody else changed the ids recorded under the target's name meanwhile, the target name is fixed, the
  platform never reissues an id. Other writes to Secrets, to the target too, are unrestricted.
- The entropy of the operating system does not fail: that is a panic, which ends the program.

## Model

| member | source | states |
|---|---|---|
| Text.IndexIsFirst | internal/dynsecret/username.go:51-58 | the searches of the engine find the least occurrence |
| Text.IntTextRoundTrip | internal/dynsecret/username.go:20-20 | printing a 64-bit number and parsing it with the sign, digit and range rules of the `N` argument is lossless |
| Text.AtoiExactly | internal/dynsecret/username.go:66-73 | a text is a number exactly when it is an optional sign and decimal digits within 64 bits, and then which |
| Text.DigitsOf | internal/dynsecret/username.go:66-73 | the value of decimal digits |
| Text.TrimSpaceIs | internal/krypticapi/leases.go:99-101 | trimming takes off the outer runs of white space and nothing else |
| Text.TrimSpaceSplits | internal/krypticapi/leases.go:99-101 | every text is what trimming leaves between two runs of white space, so the previous row covers all |
| Text.BlankExactly | internal/krypticapi/leases.go:99-101 | trimming leaves nothing exactly of a text of nothing but white space |
| Text.SpaceChars | internal/krypticapi/leases.go:99-101 | white space is six characters and no others |
| Text.FieldsAre | internal/dynsecret/username.go:64-65 | the first field is the first word, the others those of the rest |
| Text.ReplaceAllFirst | internal/dynsecret/username.go:44-47 | the first occurrence is replaced, what stands before it stays, and the rest likewise |
| Text.InterleaveMore | internal/dynsecret/username.go:172-172 | replacing the empty text puts the new one around every character |
| Entropy.Source.RandomString | internal/dynsecret/username.go:220-243 | the buffered double loop yields what `Draw` yields and consumes the same blocks; it fails exactly when the source runs dry first |
| Entropy.DrawIgnoresBuffering | internal/dynsecret/username.go:220-243 | on any byte stream the result is the first max(1, n) accepted bytes mapped to the alphabet, whatever the 64-byte blocks, and exists exactly when there are that many |
| Entropy.PreimagesExact | internal/dynsecret/username.go:216-243 | the accepted byte sequences that yield a string are exactly those counted below |
| Entropy.Uniform | internal/dynsecret/username.go:216-219 | every character string of length m has exactly 4^m accepted byte sequences |
| Entropy.AcceptedMember | internal/dynsecret/username.go:216-243 | the sequences counted in the next row are exactly the accepted ones of length m |
| Entropy.AcceptedCount | internal/dynsecret/username.go:216-222 | there are 248^m accepted sequences of length m, so all strings are equally likely |
| Passes.Sanitize | internal/dynsecret/username.go:200-214 | the loop keeps the word characters, or falls back on `kryptic` |
| Passes.SanitizedIsPlain | internal/dynsecret/username.go:200-214 | a sanitized name is non-empty, holds word characters only, and sanitizing again changes nothing |
| Passes.SplitQuoted | internal/dynsecret/username.go:176-198 | the loop with its `quoted` flag computes `SplitFrom` |
| Passes.SplitUndoesQuoting | internal/dynsecret/username.go:176-198 | any non-empty quote-free words, each wrapped in a quote character of its own and joined by spaces, split back into the same list |
| Passes.SplitIsFields | internal/dynsecret/username.go:176-198 | without quotes, splitting is splitting at whitespace |
| Passes.CallInBounds | internal/dynsecret/username.go:105-111 | the cut never reaches into the opener, so every slice of the passes is in bounds |
| Passes.FindCallExact | internal/dynsecret/username.go:100-108 | the loop stops exactly when no opener has a later closer |
| Passes.StepShrinks | internal/dynsecret/username.go:98-174 | every splice, on any text, removes spaces, or for `replace` quotes first and spaces when there are no quotes: all the loops terminate |
| Passes.ApplyUnary | internal/dynsecret/username.go:98-113 | the loop computes the pass, for any name and casing |
| Passes.ApplyTruncate | internal/dynsecret/username.go:115-147 | the loop computes the pass, with its clamping of the length |
| Passes.ApplyReplace | internal/dynsecret/username.go:149-174 | the loop computes the pass, with its defaults for missing arguments |
| Passes.PassNormalForm | internal/dynsecret/username.go:98-174 | on any text, a pass leaves no opener of its own with a later closer |
| Passes.PassIdempotent | internal/dynsecret/username.go:98-174 | each of the function passes is idempotent |
| RandomCalls.ReplaceRandomN | internal/dynsecret/username.go:49-79 | the loop computes the pass and draws exactly what it consumes |
| RandomCalls.RandomNormalForm | internal/dynsecret/username.go:49-79 | on any text, no closable tight call is left, and a closable spaced one only behind an unclosed tight opener |
| Nesting.RandomLeavesExactly | internal/dynsecret/username.go:49-79 | when the text has a `}}` between any two `{{`, a closable call is left, whatever is drawn, exactly if the text has a closed spaced call and a tight opener that is never closed |
| Nesting.SegmentedNormalForm | internal/dynsecret/username.go:49-79 | so on a segmented text no closable call of either form is left |
| Nesting.DrawsDecide | internal/dynsecret/username.go:51-77 | on nested texts no condition on the text will do: on a concrete one some draws leave a closable call and others leave none |
| RandomCalls.UnclosedBlocksSpaced | internal/dynsecret/username.go:51-61 | such a blocked spaced call exists: the pass leaves a concrete text as it is |
| RandomCalls.RandomIdempotent | internal/dynsecret/username.go:49-79 | the pass is idempotent, with whatever entropy |
| RandomCalls.EnoughEntropy | internal/dynsecret/username.go:49-79 | one draw in reserve for every space of the text is enough for the pass |
| Segments.ReplaceFills | internal/dynsecret/username.go:44-47 | on a segmented text, replacing a placeholder fills exactly the holes with that body |
| Segments.PassIsSegmentwise | internal/dynsecret/username.go:98-174 | on a segmented text, a function pass is the pass on each hole by itself |
| Segments.RandomIsSegmentwise | internal/dynsecret/username.go:49-79 | on a segmented text, the random pass draws once per hole, tight ones first |
| Segments.DrawAllFacts | internal/dynsecret/username.go:63-77 | each random hole becomes a literal of exactly the clamped length, every other segment stays |
| Statements.RenderStatements | internal/dynsecret/provider.go:102-109 | the loop over the map is a fold over some order of its keys |
| Statements.OrderInvisible | internal/dynsecret/provider.go:102-109 | on segmented templates every iteration order gives the same text: all variables substituted at once, in both spellings |
| Statements.OrderShowsExactly | internal/dynsecret/provider.go:102-109 | for brace-free names and values some segmented template shows the order if and only if a name is the spaced spelling of another with a different value |
| Statements.ClashShowsOrder | internal/dynsecret/provider.go:102-109 | two such names, among whatever others, make the order visible on a concrete template |
| Statements.NestedShowsOrder | internal/dynsecret/username.go:32-35 | segmentation is needed: on nested placeholders the order decides whether the inner value is expanded again |
| Username.RenderUsername | internal/dynsecret/username.go:14-42 | for every template the result is the pipeline for some order of the tokens, and is never empty |
| Username.ApplyFunctions | internal/dynsecret/username.go:81-87 | upper case, lower case, truncate, replace, in this order |
| Username.RenderingLasts | internal/dynsecret/username.go:14-42 | with a draw in reserve for every space of the template and one more, no rendering runs dry |
| Username.PipelineIsOneShot | internal/dynsecret/username.go:14-174 | on every segmented template the pipeline is one-shot evaluation: tokens filled at once, one draw per random hole, each other hole evaluated once, unknown ones verbatim; empty becomes the random username |
| Username.SourceIsSegmented | internal/dynsecret/username.go:15-18 | trimming keeps a template segmented, so the previous row covers every segmented template |
| Meanings.UpperIs | internal/dynsecret/username.go:98-113 | `{{uppercase w}}` is the value or token with each lower-case letter as its upper-case one, all else as it is |
| Meanings.LowerIs | internal/dynsecret/username.go:98-113 | `{{lowercase w}}` the other way round |
| Meanings.TruncateIs | internal/dynsecret/username.go:115-147 | `{{truncate w n}}` is the first n characters of the value or token, all of it if it is no longer, none for a negative n |
| Meanings.TruncateAll | internal/dynsecret/username.go:125-137 | without a number it is all of it |
| Meanings.ReplaceIs | internal/dynsecret/username.go:149-174 | `{{replace "w" "from" "to"}}` replaces `from` by `to` in the value or token, with the defaults for missing words |
| Meanings.ReplaceOnce | internal/dynsecret/username.go:149-174 | one occurrence: what stands before and after it stays |
| Meanings.RandomCountIs | internal/dynsecret/username.go:63-76 | how many characters a random call asks for: n between 1 and 64, else 8 |
| Meanings.TokenIs | internal/dynsecret/username.go:14-35 | a template that is one placeholder, in either spelling, renders to the value of its token |
| Meanings.FiveTokens | internal/dynsecret/username.go:19-31 | the five tokens and which value each has |
| Meanings.NamesKeep | internal/dynsecret/username.go:200-214 | a name keeps its word characters in order and loses all others, and falls back on `kryptic` |
| Meanings.WordChars | internal/dynsecret/username.go:206-206 | a word character is a letter or digit of the alphabet, or the underscore |
| Meanings.OthersStay | internal/dynsecret/username.go:81-87 | holes of no known kind and text outside of holes stay verbatim |
| Apply.RenderUrl | internal/dynsecret/provider.go:121-135 | a blank template gives no URL, any other is rendered from the minted credentials and the config |
| Expected.UrlIs | internal/dynsecret/provider.go:121-135 | on segmented templates each of the eight names, in either spelling, becomes the field of the credentials or of the config it names, whatever the order, and everything else stays |
| Expected.HostIs | internal/dynsecret/provider.go:121-135 | the host is the configured one unless blank, then the first of the hosts, trimmed |
| Expected.DatabaseIs | internal/dynsecret/provider.go:121-135 | the database is the configured one unless blank, then the keyspace unless blank |
| Apply.NewUsername | internal/dynsecret/apply.go:74-77 | the username is a rendering of the template of the item |
| Apply.NewPassword | internal/dynsecret/apply.go:78-78 | the password is 32 characters of the alphabet |
| Apply.Apply | internal/dynsecret/apply.go:51-57 | every run is one of the shapes of `Applied`: what was reported is what the provider did, sealed for the item |
| Apply.ApplyInner | internal/dynsecret/apply.go:59-139 | a run without error ends in an accepted success report with the exact body; one with an error broke off where `Broke` says |
| Apply.CompletionDiscipline | internal/dynsecret/apply.go:51-139 | nil exactly when a success report was accepted; at most one is sent, only after the provider call went through; otherwise a failure report is the last word |
| Apply.ProviderCalledOnce | internal/dynsecret/apply.go:59-139 | the provider is called at most once, and exactly for an item that decrypts and names a known provider and action |
| Apply.ApplyCause | internal/dynsecret/apply.go:51-139 | an HTTP status at the root of the error is that of the refusal, of the sealing or of the reply to the report |
| Expected.CallTells | internal/dynsecret/apply.go:59-93 | the provider gets the config sealed for the item, and statements, template, user and expiry of the item |
| Expected.RunnableExactly | internal/dynsecret/apply.go:59-72 | an item gets to its provider exactly with a config sealed for its own definition and environment, and a known provider and action |
| Expected.SuccessTells | internal/dynsecret/apply.go:96-139 | the report names the lease, the user the provider named or the one asked for, and seals what was minted |
| Expected.FailureTells | internal/dynsecret/apply.go:51-57 | the failure report names the lease and the error |
| Leases.ReadMinted | internal/krypticapi/leases.go:188-207 | every failure on the way reads as missing, else the pairs of the opened envelope |
| Leases.EnsureLease | internal/krypticapi/leases.go:109-129 | success means the existing lease was read back and nothing else was asked, or a new one was requested, worked and read back; an error is that of the request, of the work, or that the envelope is missing; no revocation is sent |
| Leases.ProvidedOneWay | internal/krypticapi/leases.go:109-129 | a conversation that explains an error explains no success |
| Leases.UnprovidedCause | internal/krypticapi/leases.go:109-129 | a status at the root of the error is that of something that went wrong while the hint was provided for |
| Leases.ApplyOwnWork | internal/krypticapi/leases.go:131-157 | a missing route is no work, other errors are errors, else the items are applied in order up to the first failure |
| Leases.WorkInOrder | internal/krypticapi/leases.go:131-163 | each item up to and including the first failure gets a report for its own lease as its last word, none after it |
| Leases.RevokeOne | internal/krypticapi/leases.go:165-186 | success exactly when the platform took the revocation and has no work left for the lease, or was told that the work is done; else the error of what was refused |
| Leases.RevokeLeases | internal/krypticapi/leases.go:86-107 | success means every id that is not blank was revoked; an error is that of the token, the keys or the first revocation to fail, all before it being done; only given ids are ever revoked |
| Leases.BlankIds | internal/krypticapi/leases.go:99-101 | exactly the ids of nothing but the six white-space characters are skipped |
| Expected.Revocations | internal/krypticapi/leases.go:165-186 | which conversations are revocations |
| Sync.SyncDynamic | internal/krypticapi/leases.go:37-84 | every synchronisation is safe in the sense of `SyncSafe`; every successful one is `Synced`: own work first, then every hint of the served bundle provided for, then what is stale revoked; every failed one is `SyncBroke`: with the error of the step it stopped at |
| Sync.SyncCause | internal/krypticapi/leases.go:37-84 | an HTTP status at the root of the error is that of something that went wrong in this synchronisation |
| Sync.RequestsBeforeRevokes | internal/krypticapi/leases.go:58-82 | every lease request precedes every revocation, and if a hint cannot be provided for no revocation is sent |
| Sync.LeasesAreHints | internal/krypticapi/leases.go:58-72 | the returned keys are the hint keys, provided every issued lease has an id |
| Sync.KeptOrRevoked | internal/krypticapi/leases.go:58-83 | a success partitions the existing ids that are not blank: kept under their key and read back, or revoked |
| Sync.NeverRevokesKept | internal/krypticapi/leases.go:74-82 | no id that is kept is revoked, if ids are never reissued |
| Sync.LeasesInjective | internal/krypticapi/leases.go:58-72 | the lease map stays injective, if ids are never reissued |
| Sync.MintRoundTrip | internal/dynsecret/apply.go:96-116 | what is read back is the expansion of what the provider minted, through JSON, sealing, report, fetch and opening |
| Sync.MintingGivesMinted | internal/krypticapi/leases.go:116-128 | so the minting path returns what was minted for the item it was handed |
| Sync.ExpansionHas | internal/krypticapi/leases.go:211-226 | which keys the pairs have, and with what values |
| Expected.MergedPairs | internal/krypticapi/leases.go:64-68 | of the pairs of several leases the last under a key counts |
| Wire.Client.Token | internal/krypticapi/client.go:266-319 | a cached token is used exactly while more than a minute is left, else one is exchanged and stored; an error exactly when deriving the secret, the exchange or its reply failed, and it is that error |
| Wire.Client.Do | internal/krypticapi/leases.go:269-310 | a 401 drops the cached token of this client and of no other |
| Wire.Client.DeriveUnwrapKey | internal/krypticapi/client.go:206-233 | the answer and the new cache are `Cached` and `Remember` |
| Expected.DerivedKey | internal/krypticapi/client.go:220-228 | a key is derived exactly for a known version and a salt of base64url characters, from version, secret and salt |
| Wire.Decrypt | internal/krypticapi/client.go:162-180 | all or nothing: every envelope opens or there is no bundle |
| Wire.PairsAreLast | internal/krypticapi/client.go:170-178 | a key of the bundle has the value of its last entry |
| Wire.PairsKeys | internal/krypticapi/client.go:170-178 | the keys of the bundle are exactly those of its entries |
| Expected.EntryOpens | internal/krypticapi/client.go:171-177 | an entry opens to what was sealed under the key for its own definition and environment, and to nothing otherwise |
| Wire.Fetch | internal/krypticapi/client.go:141-160 | fetched pairs are those of a served bundle, opened in full with the key unsealed for it; an error is that of the last thing asked for, or of the first entry that does not open |
| Wire.FetchEndsOneWay | internal/krypticapi/client.go:141-180 | what explains a fetched bundle explains no error |
| Wire.FetchCause | internal/krypticapi/client.go:141-180 | the HTTP status at the root of the error is that of the last thing asked for |
| UnwrapCache.CacheTransparent | internal/krypticapi/client.go:206-233 | over every interleaving of calls the cache is invisible, for colon-free salts and one KDF version per secret and salt |
| UnwrapCache.SharingExact | internal/krypticapi/client.go:206-218 | two calls may share an entry exactly when the second's salt has no colon and the versions agree |
| UnwrapCache.VersionIsIgnored | internal/krypticapi/client.go:210-218 | otherwise there is a run in which the second call gets the first one's key |
| UnwrapCache.SequentialCall | internal/krypticapi/client.go:209-233 | a call of the client is a hit, or a miss and its store |
| Reconcile.SelectKeys | internal/controller/reconcile.go:198-215 | all keys, or the listed ones that exist |
| Expected.SelectedData | internal/controller/reconcile.go:198-215 | a key is selected exactly when it exists and is listed, or nothing is listed |
| Expected.WrittenSecret | internal/controller/reconcile.go:150-196 | name, data, type and owner of whatever is written, and that it was ours before |
| Expected.WrittenLabels | internal/controller/reconcile.go:226-242 | the labels of the template win over the mark of the operator, and both over those there before, which stay otherwise |
| Expected.WrittenAnnotations | internal/controller/reconcile.go:234-242 | the same for annotations, where only the lease ids are the operator's own |
| Reconcile.ApplySecret | internal/controller/reconcile.go:148-196 | at most one write: the target is created, or an owned one updated over the version that was read; no error exactly if a write was acknowledged, and an error only if a request failed or the target is not owned |
| Reconcile.ReadLeaseIds | internal/controller/reconcile.go:266-280 | the recorded ids, and none on any error |
| Expected.RecordedUnder | internal/controller/reconcile.go:271-279 | what is recorded is what stands under the annotation for lease ids |
| Reconcile.ReadsBackExact | internal/controller/reconcile.go:234-242 | the annotation reads back as it was meant exactly when the map is not empty or there was nothing to clear |
| Reconcile.Reconciler.Gather | internal/controller/reconcile.go:58-82 | a pass goes on only with a bundle fetched and opened in full and every hint provided for; else it stops with the error that the conversation explains |
| Reconcile.Reconciler.Reconcile | internal/controller/reconcile.go:50-100 | nothing is written unless everything was fetched, opened and provided for; Ready exactly when a write was acknowledged, with its key count; every failure has the reason, the retry and the stored key count of the stage it broke off at, and the error that stage left behind |
| Reconcile.ConfigurationExactly | internal/controller/reconcile.go:58-78 | a configuration error with the long backoff is reported exactly when what the platform answered ended the pass with status 401, 403 or 404, and that is the status of something that went wrong in the pass; for a fetch, of the last thing asked for |
| Reconcile.FetchRefused | internal/controller/reconcile.go:58-66 | a fetch that ended with a refused request, wrapped or not, is a configuration error exactly for 401, 403 and 404, else a failed fetch |
| Reconcile.SyncRefused | internal/controller/reconcile.go:69-78 | the same for a synchronisation that ended with a refused lease request or revocation, or with lease work refused |
| Platform.RootIs | internal/controller/reconcile.go:60-61 | however often it is wrapped, an API error keeps its status, and nothing else has one |
| Platform.MessageIs | internal/krypticapi/leases.go:119-126 | the text of an error is that of its root behind the notes of its wrappings |
| Platform.ApiMessages | internal/krypticapi/client.go:126-131 | the texts of the API errors 401, 403 and 404 |
| Expected.Outcomes | internal/controller/reconcile.go:50-100 | reason, message and next pass of every stage a pass can end at |
| Expected.ConfigurationMessage | internal/controller/reconcile.go:60-75 | the message of a configuration error: of the API error alone when fetching, with its wrappings when synchronising |
| Expected.RefreshInterval | internal/controller/reconcile.go:51-51 | the refresh interval and its default |
| Reconcile.Reconciler.RevokeCrLeases | internal/controller/reconcile.go:244-264 | the target is read once; success means that every id that was read was revoked; an error has its reason; what could not be read leaves nothing to do, so an unreadable Secret lets the finalizer off with nothing revoked |
| Reconcile.WriteIsAccounted | internal/controller/reconcile.go:68-88 | a write of a pass that read the annotation loses no id: each is still recorded or was revoked |
| Expected.AccountedMeans | internal/controller/reconcile.go:68-88 | what the accounts say of every id with a character that is no white space |
| Reconcile.WriteKeepsInjective | internal/controller/reconcile.go:68-88 | and keeps the annotation injective, if ids are never reissued |
| Reconcile.UnreadIsLost | internal/controller/reconcile.go:266-280 | a pass that could not read the annotation loses every recorded id it does not record again, without revoking it |
| Resources.Api.UpdateStatus | internal/controller/manager.go:219-236 | optimistic concurrency on the status, with answers that may get lost; the stored status stays the outcome of a pass over the spec of the generation it reports |
| Resources.Api.Update | internal/controller/manager.go:357-359 | the same for finalizers; the last one takes a deleted object with it |
| Status.ForeignKept | internal/controller/manager.go:342-360 | putting the finalizer on and off keeps those of others and their order |
| Status.ForeignIs | internal/controller/manager.go:342-356 | all other finalizers stay, in their order |
| Status.StatusForSays | internal/controller/manager.go:175-205 | the status written says the outcome for the generation that was reconciled, and leaves nothing to write for an equal outcome; the transition time moves only if Ready flips or was not there, the last synchronisation only if it is ready |
| Status.UnchangedExactly | internal/controller/manager.go:258-272 | nothing is left to write exactly if generation, key count, state, reason and message are reported |
| Status.UnreadyIsChanged | internal/controller/manager.go:265-268 | without a Ready condition there is always something to write |
| Status.ReadyIs | internal/controller/manager.go:246-253 | the first condition of the kind Ready counts |
| Status.SkipIsHonest | internal/controller/manager.go:258-272 | whenever the write is skipped, the stored status is the outcome that a pass over the very spec that was read came to; if an edit raced the pass, the generation it reports is older than the stored one |
| Manager.Manager.SetFinalizer | internal/controller/manager.go:342-360 | writes only when something changes, over the version that was read |
| Manager.Manager.WriteOrRetry | internal/controller/manager.go:219-236 | one retry on the latest object after a conflict; at most one of the writes takes effect |
| Manager.Manager.UpdateStatus | internal/controller/manager.go:175-243 | mark, write, at most one retry, remember exactly an acknowledged write, clear: a path of the machine in `Echo`, with the item out of flight on every exit; what is written has its times moved as they should |
| Manager.Manager.IsOwnStatusWrite | internal/controller/manager.go:283-290 | own means in flight, or the remembered version |
| Manager.Manager.ForgetStatusWrite | internal/controller/manager.go:292-297 | clears both memories of the item |
| Manager.Manager.Watch | internal/controller/manager.go:90-113 | what the watch loop does with a stretch of events are delivery steps of the machine in `Echo` |
| Manager.Manager.HandleDeletion | internal/controller/manager.go:138-148 | whoever else is at work, the finalizer comes off only in a pass in which every id that was read was revoked; the item is retried until it is off, and it comes off unless something stands in the way |
| Manager.Manager.Report | internal/controller/manager.go:157-166 | the status is written unless only its times would change, and says the outcome of the pass it is handed, for the generation that was read |
| Manager.Manager.RunPass | internal/controller/manager.go:157-157 | one pass over the object as read is put on record, with what it said; no id that it could read is lost |
| Manager.Manager.Attend | internal/controller/manager.go:157-173 | a pass is run, put on record and reported unless only times would change or a write fails |
| Manager.Manager.HandleLive | internal/controller/manager.go:150-173 | with the finalizer on there is a pass, without it nothing was done that needs it; a status written is what that pass came to; its outcome decides the requeue; left alone, the pass is quiet |
| Manager.Manager.ReconcileOne | internal/controller/manager.go:118-173 | a turn in the sense of `Runs.TurnStep`, whatever users and the platform do: the object is asked for and what was read is seen to, leases are requested only in a pass on record that began with the finalizer on, a status written is what that pass came to, Secrets are written only by it, recorded ids are accounted for, and the finalizer comes off only once what was read is revoked |
| Manager.Manager.Run | internal/controller/manager.go:57-73 | the worker loop takes a turn for every item, so that every result below on runs of turns holds of it; and worker and watch make a run of `Echo` |
| Echo.EchoNeverEnqueued | internal/controller/manager.go:90-113 | under every interleaving of worker and watch, the event of an item's latest accepted status write is never enqueued, unless a DELETED event came since the write began |
| Echo.DeletedLetsEchoThrough | internal/controller/manager.go:98-101 | that exception is real: a run in which the echo is enqueued |
| Echo.OthersEnqueued | internal/controller/manager.go:102-112 | with no write of the item in progress, every event in scope that is not the echo of an own write is enqueued |
| Echo.OutsideDropped | internal/controller/manager.go:98-104 | what is deleted or outside the scope is never enqueued |
| Echo.EditDroppedInFlight | internal/controller/manager.go:283-290 | while a write is in flight, a user's edit is dropped too |
| Echo.WatchedIsDelivered | internal/controller/manager.go:90-113 | the watch loop is a stretch of delivery steps of the state machine |
| Echo.NotedIsRun | internal/controller/manager.go:274-312 | a run continued by an enabled step is a run: what the log of the manager is made of |
| Runs.RunRecords | internal/controller/manager.go:118-173 | over every run, each lease request is sent in a pass on record that began with the finalizer on, verdicts are those of such passes, and each write of a Secret is one of theirs |
| Runs.RunTells | internal/controller/manager.go:175-205 | over every run, the generation that the status reports only grows |
| Runs.TransitionStays | internal/controller/manager.go:182-186 | the transition time moves only in a turn that flips Ready or finds no such condition |
| Runs.RunTransition | internal/controller/manager.go:182-186 | over every run it stays as long as Ready does not flip |
| Runs.RunKeeps | internal/controller/reconcile.go:68-88 | over every run in which the annotation is read and left alone, no recorded id is lost, and nothing is left to revoke whenever the finalizer is off |
| Runs.RunQuiets | internal/controller/manager.go:118-173 | over every run on a live object left alone, with the same answer of the platform at most one finalizer write and one status write take effect |
| Runs.NoIdIsLost | internal/controller/reconcile.go:68-88 | over any account of lease ids an id leaves the annotation only once it was revoked |
| Runs.StaysInjective | internal/controller/reconcile.go:68-88 | over whole runs the annotation stays injective and no pass revokes an id it keeps, on a platform that never reissues an id |
| Runs.Quiescent | internal/controller/manager.go:118-173 | any number of quiet passes with a fixed answer makes at most one finalizer write and one status write, and leaves nothing to write |
| Runs.OutcomeHasAnswer | internal/controller/reconcile.go:306-317 | every outcome of a pass is the outcome for some answer |
| Runs.UnownedUntouched | internal/controller/reconcile.go:180-184 | over runs of any number of resources and any actions of others, a Secret without an owner reference to a resource is not written until others delete it or change its owners |
| Runs.OneOwner | internal/controller/reconcile.go:182-186 | what one resource wrote is from then on written by it only, until others delete it or change its owners; each write replaces the data by the selected keys of a bundle opened in full |

## Left out

- Text: strings are ASCII text, one character per byte; white space and letter case beyond ASCII, and Go's repair of invalid UTF-8, are not modelled.
- Wire.Client.OpenOrgKey: the sealed-box and AES-GCM chain from unwrap key to org key is any key or a failure.
- RandomCalls.RandomNormalForm: on texts with nested openers the exception is stated on the result, because the characters drawn decide (Nesting.DrawsDecide).
- Leases minted in a pass that fails later are not recorded by the code; the statements are about recorded ids only.
- Manager.Manager.Watch: re-establishing a dropped watch and events that are no resources are not modelled; in `Echo` any event may be delivered at any time, late, repeatedly or never.
- Manager.Manager.Run: one resource, and the queue is the sequence of items it hands out; rate limiting, shutdown and requeue timing are not modelled.
- Resources.Api.Update: the labels, annotations and other metadata of a resource are not modelled.
- Credentials (`credentials`, `credentialsFromSecret`), the API URL policy and cluster credentials are any credentials or a failure.
- The provider drivers, DSN builders and cryptography are oracles.
- Durations are seconds and already parsed; times are their RFC 3339 text where they are only passed on.
