# Verification of cache-redirect and the runner watchdog

`cache-redirect` is a pull-through cache: requests for Nix, Go, Maven, Gradle and npm
artifacts are answered from memory or from one object store, and by one shared upstream
fetch when neither has the object. `runner-watchdog` copies a runner's output, cuts it
into lines and decides whether the runner is stuck. This project models both in Dafny
and proves what they promise. `dafny verify dfyconfig.toml` checks all of it.

## How the model is laid out

**The pull-through protocol** is in three layers that are composed.

- `FetchReader.dfy` is the reader between an upstream body and everything that consumes
  it. A body comes with everything that will ever happen to it (how the network cuts it
  up, whether the end is reported with the last bytes, how the connection ends), so the
  theorems are about every response. The class has the source's fields; the functions
  beside it say what a read does.
- `Upload.dfy` is one `Put` on S3 as a state machine. The label is what happens next: a
  part answered, a buffer returned, a slot freed, in any order, with any S3 failure,
  including a failed call that S3 carried out all the same. `UploadOutcome.dfy` tells the
  outcome of a Put from the reader it is given.
- `PullThrough.dfy` is the service: any number of requests in any number of replicas,
  their flights, the fetch slots, the memory and the one store. A leader of a large
  object holds an `Upload` state, so the machines run interleaved.
  `PullThroughSafety.dfy` has the invariant and the safety theorems,
  `PullThroughEnds.dfy` the measure that every step lowers and the absence of deadlock,
  `PullThroughClients.dfy` what a leader's client can and cannot influence,
  `PullThroughStories.dfy` what decides a leader's answer and its followers',
  `PullThroughAnswers.dfy` what a hit, a HEAD and a woken follower are answered, and
  `PullThroughRaces.dfy` when a key that is stored is fetched all the same.

**State that must agree with something simpler**: the LRU cache (`Lru.dfy`; `LruHits.dfy`
has exactly when it hits); the index that ties a NAR to its narinfo (`NarIndex.dfy`;
`NarinfoText.dfy` has what a narinfo's text says, `NarSettled.dfy` when the replicas
agree, and `Nars.dfy` composes it with the pull-through and with the printing of hashes);
packuments and their stored form (`Packuments.dfy`, `PackumentFrame.dfy`;
`PackumentAnswers.dfy` has what a refresh answers and leaves behind,
`PackumentWindow.dfy` the moments after a failed refresh, `PackumentRecency.dfy` which
document stays, `PackumentEnds.dfy` that refreshes end, and `SharedSlots.dfy` the fetch
slots that they share with the pull-through); the Gradle cache's PUT, each with an upload
of its own (`GradleCache.dfy`); and the store keys of all front-ends with the check of
the prefixes (`StoreKeys.dfy`; `StoreRoutes.dfy` has which paths are kept objects).

**Byte-level algorithms**: Nix base 32 (`Nix32.dfy`), the rewriting of tarball URLs in
raw JSON (`Rewrite.dfy` on tokens, `RewriteJson.dfy` on JSON values, `TarballMembers.dfy`
for which members change), the line feed (`LineFeed.dfy`), the watchdog's verdict
(`Matcher.dfy`), host routing (`Hosts.dfy`, and `HostRoutes.dfy` for what a header and a
flag entry are read as) and the round trip of a tarball's address (`TarballAddress.dfy`,
`NpmNames.dfy`). `Common.dfy` and `Text.dfy` hold what several of these use.

Objects whose methods change their fields are classes (`FetchReader`, `Cache`, `Index`,
`Feed`, `Sink`, `Matcher`, `HostMap`); their methods are proved against functions of the
old state, and the theorems are about those functions. What happens concurrently is a
machine over labels, and a theorem about `Runs` holds for every interleaving.

## Where the code keeps less than it says

Each of these is a lemma: a run or an input that shows it happen, and the exact condition.

- A tarball's address need not survive the rewriting. A registry's https address is
  replaced first and its http form second, and the second pass can strike what the first
  has written: for registry `https://H` and a client that calls itself `H` on http, every
  address becomes `http://H/npm/npm/..` (`TarballAddress.NamesakeIsStruck`), and it can
  be one package alone (`TarballAddress.ContinuationIsStruck`). An address comes back if
  and only if that does not happen (`TarballAddress.TarballsComeBack`).
- A tarball key is not only `tarball`: a key whose name ends in a quote and that word is
  rewritten too (`TarballMembers.LookalikeKeyIsRewritten`), and only the members named
  `tarball` are if and only if no such member holds a registry's address, one that is
  the base address itself not counted (`TarballMembers.OnlyTarballsChangeIff`). A comment at
  image/cache-redirect/npm.go:351-355 says that only the real key matches.
- A whole body of exactly 10000 full parts is refused when its end arrives in a later
  read (`UploadOutcome.LateEndIsRefused`): a Put stores if and only if filling 10000
  buffers ends in EOF (`UploadOutcome.PutDecides`).
- After a failed refresh a packument is not always left alone for 15 seconds: a request
  that had looked at the old copy before asks upstream at once
  (`PackumentWindow.AskedAgainAtOnce`). It is left alone if and only if there is no such
  request when the failed flight is taken off the list
  (`PackumentWindow.FailureWindowIsExact`).
- Single flight means one leader at a time, not one fetch ever: a request that looked
  before a key was committed, and takes the lock after the leader is done, fetches it
  again (`PullThroughRaces.CommittedKeyIsFetchedAgain`; exactly when is
  `PullThroughRaces.LeadsForCommittedIff`, and `PullThroughRaces.LockComesFrom` says
  that there is no other way). What bounds the fetches is that a request leads at most
  once (`PullThroughSafety.FetchesAreBounded`).
- A leader that goes away while it waits for a slot leaves its followers with a 502
  (`PullThroughRaces.LeavingFailsFollower`); what else does is
  `PullThroughStories.FollowersFailIff`. Independence from the client begins at the
  upstream's 200 (`PullThroughClients.ClientsAreHarmless`).
- What one replica has recorded of a NAR is not always what another finds: with two
  narinfos that announce two records of one URL, a replica that has recorded one of them
  goes on finding it after the other was recorded (`NarIndex.OldCopyIsFound`). While no
  other is announced any more, a record is what every lookup finds if and only if the
  store has it and neither a memory nor a call under way has another
  (`NarSettled.FoundIffSettled`).
- The document that upstream gave last is not always the one that is served: a request
  that had looked at an older copy refreshes later, upstream fails, and the older copy is
  in memory again (`PackumentRecency.OlderComesBack`). The newest stays if and only if,
  when its flight is taken off the list, no such request has another copy, and none that
  had no copy can still find another document in the store or get one there from a save
  under way (`PackumentRecency.NewestStaysIff`).
- A Put that is over can leave an upload open at S3: one that S3 created and answered
  with an error, which it is never asked to abort (`UploadOutcome.CreateLeavesOpen`), or
  one that S3 was asked to abort and did not, whose answer nobody reads
  (`UploadOutcome.AbortLeavesOpen`). It does if and only if one of these happens, the
  second without the upload having been completed before (`UploadOutcome.LeftOpenIff`).
- The first PUT of a Gradle entry can be replaced (`GradleCache.LastWriteWins`): it wins
  exactly when no other PUT, of other bytes that are whole and can be stored, was past
  its check by then with nothing gone wrong (`GradleCache.FirstWriteWinsIff`).
- An LRU hit is the last *admitted* Put: an oversized Put leaves the older value in place
  (`Lru.OversizedPutKeepsTheOld`; exactly when a Put is read back is `Lru.PutThenGet`).
- A signature seen at the zero time is forgotten; the verdict is the documented one at
  every moment exactly when that is not the first idle signature
  (`Matcher.ZeroTimeIsMissed`, `Matcher.VerdictIsStuck`).
- A document does not survive `save` and `load` if its ETag or its media type holds a
  separator, or if it or its frame is larger than `load` reads
  (`PackumentFrame.RoundTrip`, if and only if).
- A host given to `-hosts` with two trailing dots is taken over with one. Of the Hosts
  whose name is not in brackets only those with both dots reach it; the name with one dot
  in brackets does (`Hosts.TwoDotsAreOneTooMany`; which Hosts reach which host is
  `Hosts.HostsAreFound`).

## Model

| member | source | states |
|---|---|---|
| `Reading.FetchReader.Read` | image/cache-redirect/cache.go:675-699 | a read changes the reader's count, hash, client and sticky error, and the caller's buffer, exactly as the reference read does |
| `Reading.FetchReader.Finished` | image/cache-redirect/cache.go:701-714 | truncated if and only if the announced length has not come, otherwise a mismatch only of what was expected; once a whole body is in, EOF if and only if the response is whole and expected |
| `Reading.ReadKeeps` | image/cache-redirect/cache.go:675-714 | every read hands out the next bytes of the body, keeps hash and client in step with them, makes progress, and ends with a verdict that depends on the response alone, not on how it was read |
| `Reading.EndMeans` | image/cache-redirect/cache.go:649-655 | EOF if and only if the body is whole and expected; a mismatch if and only if it is whole and not expected |
| `Reading.ReadIgnoresClient` | image/cache-redirect/cache.go:685-687 | a client that fails changes nothing that the reader returns or becomes |
| `Reading.ReadFull` | image/cache-redirect/s3store.go:266-276 | filling a buffer in place equals the reference fill; bytes behind the filled part are untouched |
| `Reading.FillKeeps` | image/cache-redirect/s3store.go:262-276 | a filled buffer holds the next bytes of the body, full unless the reader ended |
| `Reading.FillMeans` | image/cache-redirect/s3store.go:262-276 | a short buffer means the reader's own error; EOF means that all read so far is the whole body |
| `Reading.FillIgnoresClient` | image/cache-redirect/s3store.go:266-276 | the bytes and the error of a filled buffer are the same for every client |
| `Upload.StepKeeps` | image/cache-redirect/s3store.go:138-252 | the upload's invariant (bytes read, bytes sent, buffers, slots, parts, calls to S3) survives every event in any order |
| `Upload.AllParts` | image/cache-redirect/s3store.go:242 | when all parts are answered without error, sorting their numbers gives 1..k with no gap, and S3 assembles from them every byte sent in order |
| `Upload.PutCommitsWholeOnly` | image/cache-redirect/store.go:24-29 | in every run, what becomes visible is the whole body of a reader that ended in EOF; Complete is called at most once and with every part; a success has the body's length and leaves no upload open; of a failed upload S3 is asked to abort it exactly once if it said that it created it, and never otherwise |
| `Upload.BuffersAreLinear` | image/cache-redirect/s3store.go:160-203 | at most concurrency + 1 buffers are out at any moment, every one taken is returned once, none while a part still reads it, and none is out at the end |
| `Upload.FirstDecides` | image/cache-redirect/s3store.go:138-158 | one call for a body that ends before the first buffer is full, an upload in parts if it fills it, and nothing sent if the reader fails before |
| `UploadOutcome.PutDecides` | image/cache-redirect/s3store.go:138-252 | when S3 does what it is asked, Put stores if and only if filling the allowed number of buffers from its reader ends in EOF, and is refused as too long if and only if that brings no end; so below the limit the response alone decides, above it nothing is stored, and at it the end must come with the last bytes |
| `UploadOutcome.LateEndIsRefused` | image/cache-redirect/s3store.go:224-227 | a run from the start of Put, S3 doing all it is asked, in which a whole body of exactly the limit is refused because its end comes in a read of its own |
| `UploadOutcome.LeftOpenIff` | image/cache-redirect/s3store.go:163-258 | over every run, S3 still holds an upload when Put is over if and only if it created it and answered with an error, or did not carry out the abort of one that it had not completed |
| `UploadOutcome.AgreedLeavesNone` | image/cache-redirect/s3store.go:138-258 | if S3 does what it is asked, Put leaves no upload open, whether it succeeds or not |
| `UploadOutcome.CreateLeavesOpen` | image/cache-redirect/s3store.go:163-168 | a run of any body that fills a buffer in which the first happens |
| `UploadOutcome.AbortLeavesOpen` | image/cache-redirect/s3store.go:238-259 | a run of any such body in which a part fails, the abort is not carried out, and the acknowledged upload stays open |
| `Upload.NeverStuck` | image/cache-redirect/s3store.go:138-252 | an upload that is not done can always go on |
| `Upload.RunsAreBounded` | image/cache-redirect/s3store.go:138-252 | every upload ends: a run is no longer than a measure of its first state |
| `Upload.RunIgnoresClient` | image/cache-redirect/cache.go:345-346 | with any other client the same run of the upload is possible and ends in the same state |
| `PullThroughSafety.StepKeeps` | image/cache-redirect/cache.go:239-424 | the service's invariant survives every step of every request, with any upstream, store and client behaviour |
| `PullThroughSafety.OnlyWholeBodiesAreStored` | image/cache-redirect/cache.go:309-424 | in every run, whatever is visible at a key is one upstream body that ended whole; for a NAR, of the size and the hash announced for it, so that a NAR with no record is never stored |
| `PullThroughSafety.AnswersAreTransparent` | image/cache-redirect/cache.go:136-207 | if upstream has one body for a key, every clean 200 for it (memory, store, leader, follower, passed through) is that body, and a redirect leads to it |
| `PullThroughSafety.OneLeaderAtATime` | image/cache-redirect/cache.go:239-280 | per key at most one leader runs, a flight is listed exactly while its leader runs, no more than MaxFetches hold a slot, and each flight is closed once, when its leader is done, on every path |
| `PullThroughSafety.FetchesAreBounded` | image/cache-redirect/cache.go:283-305 | no request leads twice, so n requests cost at most n fetches even when no copy is ever stored |
| `PullThroughEnds.StepCloser` | image/cache-redirect/cache.go:239-424 | every step lowers a measure of the whole service, re-entering followers included |
| `PullThroughEnds.EveryRunEnds` | image/cache-redirect/cache.go:283-305 | no infinite run exists: every fixed set of requests comes to rest |
| `PullThroughEnds.NeverStuck` | image/cache-redirect/cache.go:239-280 | while a request is unanswered something can happen that is not a client going away |
| `PullThroughStories.IncompleteBodiesBreakTheResponse` | image/cache-redirect/cache.go:309-424 | in every run, the response that upstream begins decides what its request is finally answered: a large one, passed through or stored, is aborted if and only if the body was not whole, and otherwise its client has all of it or has refused a write; a small one is a 502 if and only if it was not whole or too large, and otherwise a GET has the body and a HEAD the bare headers |
| `PullThroughStories.FollowersFailIff` | image/cache-redirect/cache.go:283-305 | in every run, a woken follower gets a 502 if and only if its leader left while queued, its look at the index or its request to upstream failed, or what upstream sent it was not whole or too large |
| `PullThroughAnswers.HeadsGetNoBody` | image/cache-redirect/cache.go:717-729 | in every run, only a GET is answered with a body and only a HEAD with bare headers |
| `PullThroughAnswers.ProbedIs` | image/cache-redirect/cache.go:136-207 | the answer of a look at the store, by what is there, its size, HEAD or GET, and whether the look failed; and what memory keeps of it |
| `PullThroughAnswers.MemoryIs` | image/cache-redirect/cache.go:136-152 | a hit in memory is those bytes for a GET and bare headers for a HEAD; a remembered 404 is a 404 |
| `PullThroughAnswers.WokenIs` | image/cache-redirect/cache.go:283-305 | a follower has the small body, a redirect if the large one was stored, the 404, another turn if it was whole and not stored, and a 502 otherwise |
| `PullThroughRaces.LeadsForCommittedIff` | image/cache-redirect/cache.go:154-280 | after its look a request leads for a committed key if and only if the look missed it, the commit lies between the look and the lock, and no flight is listed at the lock; after being woken, if and only if its flight stored nothing as far as it knew, the commit lies before the lock, and no flight is listed |
| `PullThroughRaces.LockComesFrom` | image/cache-redirect/cache.go:154-305 | there is no way to the lock but a look at the store or a flight that was waited for |
| `PullThroughRaces.CommittedKeyIsFetchedAgain` | image/cache-redirect/cache.go:154-280 | a run of two requests in which nothing fails and upstream is asked again for an object that is in the store |
| `PullThroughRaces.LeavingFailsFollower` | image/cache-redirect/cache.go:253-268 | a run of two requests in which the leader leaves while queued and the follower gets a 502 |
| `PullThroughClients.ClientsAreHarmless` | image/cache-redirect/cache.go:343-346 | change which writes one leader's client takes, anywhere in a run: the same run is possible, and the two differ in nothing but what that client got |
| `PullThroughClients.OnlyTheClientNotices` | image/cache-redirect/cache.go:373-424 | store, flights and their outcomes, memory, slots and every other request's answer are the same for every behaviour of a leader's client |
| `Lru.Cache.Get` | image/cache-redirect/lru.go:46-61 | a hit returns the value and moves it to the front, an expired entry is removed and missed; list, map and byte count agree |
| `Lru.Cache.Put` | image/cache-redirect/lru.go:65-88 | an admitted value goes to the front and the list is cut to its longest prefix that fits; otherwise nothing changes; the count is the sum and at most the maximum, and the eviction loop never meets an empty list |
| `Lru.Cache.Remove` | image/cache-redirect/lru.go:90-95 | list, map and byte count lose the entry and nothing else |
| `Lru.CacheIsRecentPart` | image/cache-redirect/lru.go:22-23 | after any run the contents are the most recently used part, without a gap, of what a map without bound would hold |
| `Lru.HitIsLastAdmittedPut` | image/cache-redirect/lru.go:46-88 | a hit is the value of the last admitted Put of its key, and that has not expired |
| `Lru.EvictsExactly` | image/cache-redirect/lru.go:85-87 | an entry survives an admitted Put if and only if it and all more recent ones fit |
| `Lru.PutThenGet` | image/cache-redirect/lru.go:62-88 | at every later moment a value just put is read back until its ttl is over, or for ever without one, if it was admitted and fits by itself; one that is not admitted changes nothing, and one that does not fit leaves nothing |
| `Lru.OversizedPutKeepsTheOld` | image/cache-redirect/lru.go:71-73 | a refused Put leaves the older value to be hit |
| `LruHits.HitIff` | image/cache-redirect/lru.go:46-88 | over every run, a Get hits with the last admitted Put of its key if and only if that has no ttl or neither this Get nor one before it came when the ttl was over, and at every admitted Put since, the key and all that was used since then fitted the bound together |
| `LruHits.MissWithoutPut` | image/cache-redirect/lru.go:46-61 | a key of which no Put was admitted is never hit |
| `NarIndex.ParseNarinfo` | image/cache-redirect/nix.go:69-98 | finds a record if and only if it is the one that the narinfo announces: the last URL, FileHash and FileSize lines, all well formed |
| `NarinfoText.AnnouncesWhatIsNamed` | image/cache-redirect/nix.go:69-98 | for every text, line by line: it announces a record if and only if the last lines that start with `URL:`, `FileHash:` and `FileSize:` hold, between any spaces, the path, `sha256:` and the hash, and the size in decimal |
| `NarinfoText.RecordComesBack` | image/cache-redirect/nix.go:69-98 | a narinfo that writes a path, a hash and a size below 2^63, whatever its other lines, is parsed as exactly these |
| `NarinfoText.NumbersAreRead` | image/cache-redirect/nix.go:88 | a text is read as a number if and only if it is that number in decimal, with a sign or none and any leading zeros, and within 64 bits |
| `NarinfoText.LastLineGives` | image/cache-redirect/nix.go:72-87 | the value of a key is that of the last line that starts with the key and a colon, without the spaces around it |
| `NarIndex.IsNarFile` | image/cache-redirect/nix.go:201-211 | accepts exactly the plain file names |
| `NarIndex.OnlyAnnouncedIsFound` | image/cache-redirect/nix.go:100-135 | across replicas, interleavings, forgetting memories and failing writes, every copy, every stored record and every answer at a URL is what some served narinfo announced of that URL |
| `NarIndex.Index.Record` | image/cache-redirect/nix.go:102-112 | memory and store after a record is kept, whether the store took it or not |
| `NarIndex.Index.Find` | image/cache-redirect/nix.go:116-135 | a good copy in memory, then the store; an unreadable or foreign record is as good as none; the store's copy is remembered if and only if it was needed and good, and no other copy changes |
| `NarIndex.FindIsARun` | image/cache-redirect/nix.go:116-135 | Find does what its labels do one after the other, so what holds in every run of the replicas holds of it |
| `NarIndex.RecordIsARun` | image/cache-redirect/nix.go:102-112 | the same for Record |
| `NarIndex.RecordThenLookup` | image/cache-redirect/nix.go:41-49 | in every run, once one replica's record is written no replica misses that URL again: a lookup answered later finds what some served narinfo announces of it, and exactly that record if they announce no other |
| `NarIndex.OldCopyIsFound` | image/cache-redirect/nix.go:102-122 | a run in which two records of one URL are announced and a replica finds the one it remembers, not the one written last |
| `NarSettled.FoundIffSettled` | image/cache-redirect/nix.go:100-135 | in every reachable state, an announced record is what every lookup of its URL answered later finds, over all runs that announce no other, if and only if the store has it and no memory and no call under way has another |
| `NarIndex.KeyInjective` | image/cache-redirect/nix.go:65 | records of different NARs have different keys |
| `Nars.HandedWhole` | image/cache-redirect/cache.go:143-188 | in every run, what onBody is given for a key, from memory, the store or a leader's read, is a body that upstream sent whole for it |
| `Nars.StoredNarsAreAnnounced` | image/cache-redirect/nix.go:26-30 | every NAR in the store is a whole upstream body, and a narinfo, itself a whole upstream body for a narinfo's key, named its file with its size and its SHA-256, which no body with another digest shares |
| `PackumentFrame.RoundTrip` | image/cache-redirect/npm.go:497-541 | the stored form reads back as the same document, ETag and media type if and only if these hold no separator and neither the document nor its frame is larger than load reads |
| `PackumentFrame.ReadBackOf` | image/cache-redirect/npm.go:497-541 | a document reads back as itself if and only if its ETag holds no tab; otherwise the ETag is cut there, and the document is the same |
| `Packuments.PairsStayTogether` | image/cache-redirect/npm.go:371-466 | every packument served, remembered or readable in the store has the ETag, media type (JSON if it had none) and document of one upstream 200 for its key, across shared refreshes, 304s, failures, replicas and racing saves, or is what the stored form makes of one whose ETag holds a tab; what is stored can be read if and only if its frame is within the limit |
| `Packuments.OneRefreshAtATime` | image/cache-redirect/npm.go:374-395 | at most one refresh of a packument runs in a replica |
| `PackumentAnswers.WaitersAreAnswered` | image/cache-redirect/npm.go:425-466 | over every run, whoever waits for a refresh is answered by what upstream said: its document with its own media type, the copy at hand after a 304, a failure or too much, 502 only if there was no copy, 404 only if upstream said so |
| `PackumentAnswers.HeardIs` | image/cache-redirect/npm.go:425-466 | what an answer of upstream does to the flight, the memory, the remembered 404 and the saves: a document is saved if and only if there was none or its ETag, or without one its text, is another |
| `PackumentAnswers.ArrivedIs` | image/cache-redirect/npm.go:284-290 | a packument is served from memory at once if and only if the copy is not stale; otherwise the request refreshes with the copy it has |
| `PackumentAnswers.LoadedIs` | image/cache-redirect/npm.go:412-417 | a refresh has the copy of its first request or else what the store's frame reads back as |
| `PackumentWindow.FailureWindowIsExact` | image/cache-redirect/npm.go:460-465 | after a failed refresh whose copy stays in memory, over every run: no flight for the packument starts for 15 seconds if and only if no request is between its look and its refresh when the failed flight is unlisted; and a look from then on refreshes if and only if the 15 seconds are over |
| `PackumentWindow.AskedAgainAtOnce` | image/cache-redirect/npm.go:284-285 | a run in which upstream is asked again at the moment of the failure |
| `PackumentRecency.NewestStaysIff` | image/cache-redirect/npm.go:374-466 | over all runs without a further 200 and in which the copy is not forgotten, the document of a 200 stays in memory if and only if, when its flight is unlisted, every request past its look would fall back to it: the copy it found, or whatever the store and the saves under way can give one that found none |
| `PackumentRecency.OlderComesBack` | image/cache-redirect/npm.go:459-465 | a run from the start in which upstream gives one document, then another, then fails, and the first is in memory |
| `PackumentEnds.RunsAreBounded` | image/cache-redirect/npm.go:374-466 | every refresh and every request for a packument comes to an end: a run is no longer than a measure of its first state |
| `PackumentEnds.EndedIsAnswered` | image/cache-redirect/npm.go:374-395 | every run is bounded, and where nothing more can happen but clients going away and copies being forgotten, every request has been answered |
| `PackumentEnds.AllAreAnswered` | image/cache-redirect/npm.go:374-395 | from every state there is a run, without a client going away, in which every request is answered |
| `SharedSlots.SlotsAreBounded` | image/cache-redirect/npm.go:403-408 | leaders and refreshes together never hold more slots of a replica than MaxFetches, in every interleaving |
| `SharedSlots.NeverStuck` | image/cache-redirect/npm.go:403-408 | while any request of either kind is unanswered something can happen that is not a client going away, whoever holds the slots |
| `SharedSlots.EveryRunEnds` | image/cache-redirect/cache.go:239-424 | no infinite run of the two together exists |
| `SharedSlots.EndedIsAnswered` | image/cache-redirect/cache.go:239-424 | and where one has ended every request of either kind has been answered |
| `GradleCache.EntriesAreWhole` | image/cache-redirect/gradle.go:30-35 | every entry is one PUT's whole body within the size limit, however its bytes arrive and whatever S3 does: taken from the upload that each PUT runs |
| `GradleCache.AnswersAre` | image/cache-redirect/gradle.go:93-132 | what a PUT is answered, by its length, the store's look and the upload: 411, 413, 502 or 204, and when it is uploaded |
| `GradleCache.FirstWriteWinsIff` | image/cache-redirect/gradle.go:107-122 | in every reachable state, an entry stays for ever if and only if no PUT of other bytes is past its check with a body that can be stored and nothing gone wrong |
| `GradleCache.LastWriteWins` | image/cache-redirect/gradle.go:107-122 | a run from two PUTs of one key that both find it absent: each is stored and answered 204, the second in place of the first |
| `StoreKeys.ValidatePrefixes` | image/cache-redirect/main.go:205-230 | reports no problem if and only if every front-end that is on has a prefix and no prefix starts another |
| `StoreKeys.KeysAreInjective` | image/cache-redirect/main.go:224-230 | in an accepted configuration two objects with one key are the same object of one front-end with one upstream chain: narinfo, NAR, index record, module, tile, Maven file, Gradle entry, tarball and packument never collide |
| `StoreKeys.NixRoutes` | image/cache-redirect/nix.go:162-191 | a narinfo and a NAR are kept under their own path, fetched from that path, and meet what injectivity asks |
| `StoreKeys.GoRoutes` | image/cache-redirect/goproxy.go:43-125 | a module file and a tile are kept under their own path and fetched from it, the tile from the checksum database without its name; no module is kept where tiles are |
| `StoreKeys.MavenRoutes` | image/cache-redirect/maven.go:123-157 | a Maven file is kept under its own path and fetched from each upstream of its repository, in order, by the rest of that path |
| `StoreKeys.NpmRoutes` | image/cache-redirect/npm.go:142-165 | a tarball is kept under its own path and fetched from it; a packument is kept by name and variant and fetched by its name as one path element |
| `StoreKeys.GradleRoutes` | image/cache-redirect/gradle.go:49-67 | an entry is kept under the last element of its path, a key of 32 to 128 hexadecimal digits, and has no upstream |
| `StoreRoutes.NixIff` | image/cache-redirect/nix.go:162-199 | the kept paths are `/<32 letters of the alphabet>.narinfo` and `/nar/<plain file name>`, and no others |
| `StoreRoutes.TileIff` | image/cache-redirect/goproxy.go:105-125 | of the configured database, and of no other, exactly the tiles are kept |
| `StoreRoutes.ModuleIff` | image/cache-redirect/goproxy.go:43-100 | a plain path is a kept module file if and only if, cut at its last `/@v/`, it is a module path and a canonical version with `.info`, `.mod` or `.zip` |
| `StoreRoutes.MavenIff` | image/cache-redirect/maven.go:123-177 | a path `/repo/e1/../en` is a kept file if and only if the repository has upstreams, each element is plain, and it is neither metadata, an index, a catalog nor of a snapshot |
| `StoreRoutes.GradleIff` | image/cache-redirect/gradle.go:49-67 | the entries are the paths of a key of 32 to 128 hexadecimal digits |
| `StoreRoutes.NpmIff` | image/cache-redirect/npm.go:142-165 | packuments are the paths that are a package name, tarballs those of a name, `/-/` and a file of that package |
| `StoreRoutes.BaseSlash` | image/cache-redirect/nix.go:231-239 | an upstream's base URL means the same with a trailing slash and without |
| `StoreKeys.IndexIsAlone` | image/cache-redirect/nix.go:41-49 | no other object of any front-end is ever kept where the NAR index looks |
| `NpmNames.NameThenTail` | image/cache-redirect/npm.go:170-188 | a name followed by further elements is split into just these |
| `NpmNames.SplitIsName` | image/cache-redirect/npm.go:170-188 | what is split off is itself a name, and joined with the tail it is the path |
| `Nix32.Nix32` | image/cache-redirect/nix32.go:9-25 | the output is ceil(8L/5) characters, the digits of the bytes' little-endian integer, most significant first, with every index in bounds |
| `Nix32.WindowIsDigit` | image/cache-redirect/nix32.go:15-21 | the shifts, the or and the mask of the loop body read one base-32 digit of that integer |
| `Nix32.DecodesBack` | image/cache-redirect/nix32.go:7-8 | the output is made of the alphabet, reads as that integer, and decodes to the bytes |
| `Nix32.PrintsAreUnique` | image/cache-redirect/nix32.go:7-25 | every string of alphabet characters is the print of the number it reads as |
| `Nix32.PrintsTellApart` | image/cache-redirect/nix32.go:9-25 | equal prints of equally long values mean equal values |
| `Nix32.CharsAreTheAlphabet` | image/cache-redirect/nix32.go:37-45 | the character check accepts exactly the alphabet |
| `Nix32.IsNix32` | image/cache-redirect/nix32.go:24-35 | accepts exactly the strings of n alphabet characters |
| `Nix32.HashesAreAccepted` | image/cache-redirect/nix.go:89 | a printed SHA-256 always passes the check for 52 characters |
| `Rewrite.RewriteTarballs` | image/cache-redirect/npm.go:356-369 | replaces every registry address in turn; skipping one that does not occur changes nothing |
| `Rewrite.EscapedIs` | image/cache-redirect/npm.go:351-355 | what stands between two quotes is any sequence of characters that are neither a quote nor a backslash, and of backslashes with one more: what is proved of documents is about all such strings |
| `Rewrite.MatchInString` | image/cache-redirect/npm.go:351-355 | a match that starts in a string ends that string, which is a key, and opens the string after its colon |
| `Rewrite.BytesAreTokens` | image/cache-redirect/npm.go:362-367 | on a JSON document the byte replacement is the editing of tokens |
| `Rewrite.RewritingIsEditing` | image/cache-redirect/npm.go:356-369 | the same for all registry addresses one after the other |
| `Rewrite.EditedAt` | image/cache-redirect/npm.go:351-355 | token by token: there are as many, each is what it was or an edited value, in the same place |
| `Rewrite.ValueOfKey` | image/cache-redirect/npm.go:351-355 | only a string right after the colon right after a tarball key is ever edited |
| `Rewrite.NoRegistryIsLeft` | image/cache-redirect/npm.go:356-369 | if a registry address and the base address, each with its slash, are not prefixes of each other, no tarball value starts with the registry address any more |
| `RewriteJson.RewritingEditsJson` | image/cache-redirect/npm.go:351-369 | on every JSON value with any white space, the rewritten text is the text of the same value with just the tarball strings edited |
| `RewriteJson.PackumentIsEdited` | image/cache-redirect/npm.go:356-369 | the same for the registry's own addresses, its http form included, and the base address |
| `TarballMembers.OnlyTarballsChangeIff` | image/cache-redirect/npm.go:351-369 | for every packument, the rewritten text is that of the value with just the members named `tarball` edited if and only if no lookalike member in it holds a registry's address other than the base's own |
| `TarballMembers.LookalikeKeyIsRewritten` | image/cache-redirect/npm.go:351-355 | the bytes of a document with one lookalike member become those with its value edited, which is another value unless the registry is the base |
| `Hosts.HostMap.Set` | image/cache-redirect/hosts.go:44-69 | takes over what the entries give, and nothing else; on failure exactly what the entries before the first bad one give; loses none, and never gives one host to two kinds |
| `Hosts.HostMap.Routes` | image/cache-redirect/hosts.go:111-120 | every configured host is routed to its own front-end's root, and no other host is |
| `HostRoutes.RootsAre` | image/cache-redirect/hosts.go:14-21 | a request for a front-end's own host is moved under `/nix`, `/maven`, `/gradle/cache` or `/npm`, by its kind; at the Nix host one under `/nix/` already stays |
| `HostRoutes.HostPartIs` | image/cache-redirect/hosts.go:71-81 | outer spaces and one port are taken off a Host |
| `HostRoutes.EntryIs` | image/cache-redirect/hosts.go:44-60 | an entry is taken for a kind and a host if and only if it is one of the four kinds, an equals sign and, with spaces around it, in any case and with one more dot or none, a host name without a port |
| `Hosts.HostsAreFound` | image/cache-redirect/hosts.go:71-81 | a request reaches a configured host if and only if the host of its Host header, in lower case and without port and outer spaces, is that name, in brackets or not, with a trailing dot or, if it does not end in one, without |
| `Hosts.TwoDotsAreOneTooMany` | image/cache-redirect/hosts.go:54-81 | an entry with two trailing dots is taken over with one; which Hosts reach it, and that of those without brackets, with or without a port, just those with both dots do |
| `TarballAddress.SameHost` | image/cache-redirect/npm.go:260-263 | leaving out a default port, and lower case, do not change which host is compared |
| `TarballAddress.SchemeIs` | image/cache-redirect/npm.go:252-258 | the first element of X-Forwarded-Proto counts, with spaces around it and in any case, if it is http or https; otherwise the connection does |
| `TarballAddress.PublicBaseIs` | image/cache-redirect/npm.go:247-272 | the address a client used: the scheme, its host in lower case without the scheme's default port, and `/npm` unless it came to a host of its own; none if that is no host name |
| `TarballAddress.RoutesToTarball` | image/cache-redirect/npm.go:142-165 | the path of a valid tarball is routed as that tarball of that package |
| `TarballAddress.TarballsComeBack` | image/cache-redirect/npm.go:247-272 | a registry's tarball address in a document that is rewritten for a client, byte by byte and for every address of the registry, and asked for again, reaches that tarball through the host routing and the npm routes if and only if the second replacement did not strike it; upstream is then asked for exactly that address |
| `TarballAddress.OldAddressesComeBack` | image/cache-redirect/npm.go:358-361 | an old document's http address of an https registry always comes back, to the tarball on https |
| `TarballAddress.NamesakeIsStruck` | image/cache-redirect/npm.go:358-367 | for an https registry and a client that gives its host on http, every address is struck twice |
| `TarballAddress.ContinuationIsStruck` | image/cache-redirect/npm.go:358-367 | so is a package whose name goes on where the base address ends and the registry's does not |
| `TarballAddress.ApartIsNeverStruck` | image/cache-redirect/npm.go:358-367 | no address is, of any package, if the base and the registry's http form, with their slashes, are equal or neither starts the other |
| `LineFeed.Feed.Write` | image/runner-watchdog/tee.go:31-42 | after a write the lines offered, the partial line and the cut mark are those of the whole stream so far, however it was cut into writes |
| `LineFeed.Feed.Add` | image/runner-watchdog/tee.go:44-53 | bytes without a newline extend the current line up to the cap |
| `LineFeed.Feed.Emit` | image/runner-watchdog/tee.go:55-63 | the line is queued or counted as dropped, and the next one starts empty |
| `LineFeed.KeptAre` | image/runner-watchdog/tee.go:55-63 | the queue holds exactly the lines there was room for, in the order offered |
| `LineFeed.Feed.Flush` | image/runner-watchdog/tee.go:65-70 | offers the last line if it had no newline; then all lines of the stream have been offered, and delivered plus dropped is offered |
| `LineFeed.CopyTee` | image/runner-watchdog/tee.go:76-89 | the lines offered are those of the concatenated reads whatever the writer does, and a writer that does not fail gets the stream unchanged |
| `LineFeed.LinesAreOffered` | image/runner-watchdog/tee.go:9-19 | any lines and any unterminated rest, written as a stream, are offered as these lines and the rest if it is not empty, each cut to its first 16384 bytes |
| `LineFeed.SplitIsUnique` | image/runner-watchdog/tee.go:31-42 | a stream has one way to be cut at its newlines |
| `Matcher.Matcher.Observe` | image/runner-watchdog/matcher.go:102-133 | one line moves every field as the history with that line says; and, told from the expressions and the line alone, what a start, a completion, each signature and any other line does to the job flag, the counters and the armed signature |
| `Matcher.KindIs` | image/runner-watchdog/matcher.go:102-133 | without the returns at its end, a line is a start if the first expression matches, else a completion if the second does, else the first signature that matches, else nothing |
| `Matcher.Matcher.Evaluate` | image/runner-watchdog/matcher.go:154-188 | the verdict, whether it changed, the number of changes into it, and every field of the snapshot, as functions of the history |
| `Matcher.ShownArmed` | image/runner-watchdog/matcher.go:140 | the signature of a snapshot is the armed one's name if one is armed, and empty if none was seen while idle since the last job start |
| `Matcher.ShownLast` | image/runner-watchdog/matcher.go:128-130 | if none is armed but some were seen, it is the name of the last of them, which was seen at the zero time |
| `Matcher.ArmedIsFirst` | image/runner-watchdog/matcher.go:81-82 | the armed line is the first signature seen while idle since the last job start |
| `Matcher.VerdictIsStuck` | image/runner-watchdog/matcher.go:66-70 | the verdict is the documented one at every moment if and only if a job runs, nothing idle was seen, or the first of it was not seen at the zero time |
| `Matcher.ZeroTimeIsMissed` | image/runner-watchdog/matcher.go:128 | a signature seen only at the zero time never makes the runner stuck |
| `Matcher.StuckStays` | image/runner-watchdog/matcher.go:66-70 | with a clock that does not go back, a stuck runner stays stuck until a job starts |

## Left out

- Nothing of HTTP beyond what decides an answer: headers, content negotiation, HEAD requests to upstream (their result is a parameter), retries, redirects, presigned URLs' expiry, TLS, logging and metrics.
- gzip and JSON codecs: an assumed inverse pair in `PackumentFrame.Gzip`, where a stream that is cut short does not decompress, and in `NarIndex.Codec`, for records that a narinfo can announce. SHA-256: a function parameter. Regular expressions, `semver` and `module` checks: predicates that are parameters.
- S3: an atomic store whose every call may fail, done or not. The answer to AbortMultipartUpload is ignored, as in the source.
- Timers: the idle timeout is one of the ways a body breaks; retry sleeps and shutdown are not modelled. Time is an integer where freshness, expiry or grace needs it, and durations do not overflow.
- Go's fixed-width integers: byte counts and sizes do not wrap in the model. Only ParseInt's 64-bit range is written out.
- The memory layers inside the pull-through, the index and the packuments: a copy may be forgotten at any moment, which covers every eviction; `Lru.dfy` has the cache itself, on entries as values rather than list elements that a map points to.
- Concurrency is a machine over labels in `Upload`, `PullThrough`, `NarIndex`, `Packuments`, `GradleCache` and `SharedSlots`: a label is one atomic step of the source between two points where others can run. Mutexes themselves are not modelled.
- `ServeMutable`, `proxyHead` and `proxy`: passed through or remembered for a moment. Two Maven chains with the same first upstream share mutable answers, so nothing is claimed of them.
- A packument's refresh that is given up at shutdown.
- Hosts.HostMap.Set: the text of the error is not modelled; an error is only that one occurred.
- StoreKeys.ValidatePrefixes: the other checks of the configuration are not part of it; they do not touch the keys.
- ToLower and TrimSpace: for the characters that a Host header can hold, and for text as characters rather than bytes.
- The supervisor, the drill, the watchdog's HTTP server, the Nix worker programs, the deployment code and the scripts.
