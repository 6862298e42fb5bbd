# Proofs about the corplink proxy and its tunnel manager

A Dafny model of the parts of the corplink web back end where a mistake would be hard to see: the
proxy that splices one HTTP response out of many broken upstream attempts, its cache of immutable
assets, the make-before-break rotation of tunnels, the proxy's shared state (tunnel generations, name
lookups, recent destinations), the watchdog, the routes sent into the tunnel, and the SOCKS5 codec.

Run `dafny verify dfyconfig.toml` in this directory. Every file is one module of the same name.

| modules | what they model |
|---|---|
| Basics, Octets, Recency | shared vocabulary: optional values, filtering, octets and mapped addresses, order of recent use |
| HeaderText | header blocks as text: lines, framing lines, rewriting a captured header |
| AssetCache | the byte-budgeted LRU and the bounded map of interrupted prefixes |
| ForwardModel | upstream and client of one request |
| ForwardSteps, Forward | one attempt: as a function of any answer, and as the code that does it step by step |
| Heads | what a client reads in the heads it is sent, line by line |
| Splicing, SplicingRuns | when what the client and the cache get is of one answer; the guard that is missing; the run that fails |
| ForwardRuns | the attempts of one request as a function of the upstream, and their budget |
| ForwardRequest | the whole request and the kept-alive connection |
| Framing | when the connection to the client may be reused |
| ForwardLimits | where other promises stop: overflow of a resumed body, partial answers without a length |
| Rotation, RotationProofs, RotationTheorems | connect, disconnect, logout, reconnect, refresh and address updates as interleaved threads |
| RotationStates | what the state says by the history of a run, and what each request comes to on its own |
| TunnelSwap, DnsFlight, RecentDials | the proxy's state behind its locks |
| Watchdog, Probing | when a tunnel is condemned; how candidates are probed and retired ones drained |
| Cidr, Routes | subtraction of prefixes; the AllowedIPs pipeline |
| Socks5 | requests, replies and their readers |

## How the code is represented

Code that updates fields in loops is imperative here too: `ForwardState`, `Client` and `AssetCache`
are classes, the read loops and the attempt loop are loops, and the in-place compactions of routes work
on arrays. State that several goroutines share is a transition system whose steps are the critical
sections of the source, so that theorems speak of every interleaving; where the source keeps that state
in fields (`MixedProxy`, `Manager`), a class with the same fields implements each step.

The upstream of a request is an adversary: a function from the attempt number and the Range sent to any
outcome at all. `ForwardSteps` says what one attempt makes of any such outcome, and the methods of
`Forward` do exactly that while the client listens, and part of it when the client breaks off after any
byte. `ForwardRuns` composes these into the course of a request, with the budget and the rule for replays.
`Tunnels` remembers the attempts made and `Client` what was written, and the contracts of whole requests
tie both to the course. That the client sees one block, that progress is never lost, that a head goes out
only with a known total unless the connection is closed after it, and that the budget is kept is proved with
nothing assumed of the answers.

What the bodies are is proved for an origin that is `Faithful`: a 200 carries the one representation of
the URL, a 206 to the proxy's own Range carries it from where its Content-Range says, and a clean end of
such a body of unknown length is the end of the representation (sections 14.2, 14.4 and 15.3.7 of RFC
9110, section 6.3 of RFC 9112). Answers of every other status carry bytes of their own, at any attempt.
Other requests may use the cache between any two attempts. The cache key is host and path: the query and
the Accept-Encoding of a request are not part of it (proxy_http.go lines 225-242), so that assuming one
representation for each key also assumes that these two do not change it.

`World` carries the representation of each cache key together with a relation `says(header, n)` for
"this header announces length n". `Literal` instantiates it with the reading of the header text, and the
theorems about whole requests and connections use that instance; `AnnouncedOnce` shows that a header
announces one length at most.

## Where the code and its promises differ

- An answer is checked for its status only when it was asked for by Range. When a head is out and nothing
  was relayed yet, the next attempt asks for everything, and an error page is then relayed as the body of the
  200; the rest of the representation completes it, and the mixture is committed to the immutable cache
  (`RelaysAPage`, proxy_http.go lines 409 and 437-451). In the same way an answer of another status that was
  cut short is continued by the next answer, and a 206 that nobody asked for is buffered and committed as a
  200 (`CommitsAPart`). `Kin` is the missing guard: `KinExact` shows that it is exact in every state, and `GoodIffGuarded` that
  splicing and cache soundness hold over all runs exactly when it is imposed.
- What continues a stream is relayed to its end even if it is longer than what is missing. With a faithful
  origin, a 200 of three bytes whose body does not come and a longer error page leave the connection reusable
  with more bytes than the head announces, and the rest reads as the next response (`SendsTooMuch`). `Fits` is
  the missing test, on the head of the answer: `FitsExact` shows that it is exact, and `FramedIffTested` that
  connections are reused only after the announced length, over all runs, exactly when it is imposed.
- A buffered body that outgrows eight megabytes after it was resumed is flushed under the head of the 206,
  which announces the rest only (`OverflowHeadMismatch`), and when that 206 told the total and announced less
  than what is missing, the attempt still counts as done although the client's body is truncated:
  `OverflowDeliversWhole` gives the exact condition on the head, and `OverflowsShort` runs the engine on a
  failing input. When the 206 announces no length the head does not tell (`UnannouncedEitherWay`).
- The buffered path shows every 206 as a 200, also when the range was the client's own
  (`ReframedShowsStatus`).
- Devices are conserved in a run exactly when no connect installs over an installed tunnel
  (`DeviceConservation`), and over all runs exactly when the listen address always has a port of its own and
  changes only while nothing listens (`ConservedIffStrict`). With a free port, or when the configuration is
  updated while a proxy listens, two connects with a disconnect between them can both install (`Leak`).
- A connected manager has a proxy exactly in the runs in which no teardown takes the proxy down in that state
  (`ConnectedMeansServed`). Teardowns run after the lock was left: a failed connect sets the state before it
  tears down, so that a second connect can install in between and lose its proxy for good
  (`StrandedConnected`); a disconnect asked for while connecting and a logout can do so for a while.
- The comment on `RefreshKick` promises a signal whenever a request proves the current tunnel dead. The tunnel
  the proxy started with is never reported, because the marker of kicked generations starts at its generation
  (`KickIffNew`, `FirstTunnelNeverKicked`).
- A port outside 0 to 65535 is cut to sixteen bits without an error (`RoundTripIff`).

## Model

| member | source | states |
|---|---|---|
| ForwardRequest.HandleHTTP | web/internal/corplink/proxy_http.go:65-93 | a kept-alive connection: what the client object recorded for each request is what handling that request comes to, and requests are served until all are or one does not leave the connection reusable; while the guard admits the answers, every response but the last is the whole representation, or one other answer, under one head that announces its length, and the cache agrees with the representations afterwards; stored prefixes keep a known total |
| ForwardRequest.HandleForward | web/internal/corplink/proxy_http.go:189-336 | whatever the origin, the client and other requests do: the client sees nothing, one error block, or one head and a body; a cached asset is replayed without any attempt; otherwise one attempt at most for a request that is neither GET nor HEAD or has a Range, and 64 for any; the attempts that the upstream object recorded, what the client saw, the end and the reuse of the connection are those of the request's course from the stored prefix, up to where the client broke off; a finished request commits what its last attempt completed. With a faithful origin and where the guard admits the answers, which is required only of a fresh start: the body is a prefix of the representation or of one other answer under its own head, reusable only after all of it, and the cache stays sound |
| ForwardRequest.HandledWithinBudget | web/internal/corplink/proxy_http.go:237-335 | however a request is handled: at most 64 attempts, one and no spent budget if it is neither GET nor HEAD or has a Range of its own, none if it is cached; not replayed only for these; any eight attempts in a row gain something unless they are the last, counted from the stored prefix; given up only after 64 attempts or eight without gain |
| ForwardRequest.CacheKeyMeaning | web/internal/corplink/proxy_http.go:240-243 | only a GET of an immutable path without a Range has a key, and requests share one only for the same host and path |
| ForwardRequest.HandledUnderItsKey | web/internal/corplink/proxy_http.go:240-256 | a hit and every commit are under the request's own host and path, and only for such a GET |
| ForwardSteps.AttemptKeepsKey | web/internal/corplink/proxy_http.go:730-737 | whatever the upstream does, an attempt keeps to its key or gives it up, and commits under no other |
| ForwardRequest.AttemptLoop | web/internal/corplink/proxy_http.go:283-335 | the loop takes upstream, client and progress along the course of the request: all of it, or up to an attempt during which the client broke off; a spent budget is reported by an error block unless the head is out; what was captured is kept for the next request |
| ForwardRuns.BudgetKept | web/internal/corplink/proxy_http.go:283-335 | about the course as a function of any upstream: one attempt at least and 64 at most, one for a request that may not be replayed; what is held never shrinks and any eight attempts in a row gain something unless they are the last; an idempotent request is given up only when 64 attempts were made or the last eight gained nothing |
| ForwardRuns.CourseChained | web/internal/corplink/proxy_http.go:283-300 | the course is a chain: each attempt starts from what the one before it left and asks for what is missing then, only the last one does not ask for another, and the end is the one its outcome calls for |
| ForwardRuns.CourseNext | web/internal/corplink/proxy_http.go:284-318 | another attempt follows exactly when the last one asked for it, the request may be replayed and fewer than eight attempts in a row gained nothing |
| ForwardRuns.NextProgress | web/internal/corplink/proxy_http.go:301-318 | appending one more measurement keeps the progress growing, and eight measurements without growth are the only way to stop |
| ForwardRuns.GrowsWithin | web/internal/corplink/proxy_http.go:283-318 | progress that grows measurement by measurement is monotone and gains something over every eight attempts but the last |
| ForwardRequest.Round | web/internal/corplink/proxy_http.go:284-299 | a round is one recorded attempt: another one may follow only for replayable requests; otherwise the client has an answer, an error block, or a prefix that is kept, and all of it is what the attempt brought |
| ForwardRequest.RoundClaims | web/internal/corplink/proxy_http.go:284-299 | under the guard a round keeps what is claimed between attempts, or concludes the request with all that is promised |
| ForwardRequest.TryCache | web/internal/corplink/proxy_http.go:243-256 | served exactly when the key is cached; a client that takes everything gets exactly the stored head and body, another one a part of them |
| ForwardRequest.TryPartial | web/internal/corplink/proxy_http.go:264-281 | after a replay the client has exactly the stored prefix under one head and the engine is in its streaming state at that offset |
| ForwardRequest.GiveUp | web/internal/corplink/proxy_http.go:331-335 | one error block if no head went out, nothing more otherwise; the captured prefix is kept |
| Splicing.KinStep | web/internal/corplink/proxy_http.go:356-667 | one attempt with any faithful answer that the guard admits: the client has a prefix of the representation, or of one other answer under its own head; what is committed or saved agrees with the representation of its key, also when the client breaks off anywhere; a retry leaves a state of the same kind; done means all of it under a head that announces it, unless the body outgrew the buffer |
| Splicing.KinExact | web/internal/corplink/proxy_http.go:405-468 | in every state between attempts, answers of a given shape do no harm whatever they carry if and only if the guard admits them |
| Splicing.PlainIsCaptured | web/internal/corplink/proxy_http.go:453-468 | a cacheable representation that fits is captured: the body of a 200 and of what continues it keeps the key when it is cut short and is committed when it is done, unless it outgrew the buffer |
| SplicingRuns.GoodIffGuarded | web/internal/corplink/proxy_http.go:283-335 | splicing and cache soundness hold over all runs of attempts if and only if the guard is imposed |
| SplicingRuns.KinRunGood | web/internal/corplink/proxy_http.go:283-335 | over every run whose answers the guard admits, no attempt does harm |
| SplicingRuns.ResumedIsKin | web/internal/corplink/proxy_http.go:405-435 | once a byte of the representation is held, the guard admits everything the engine accepts |
| SplicingRuns.RelaysAPage | web/internal/corplink/proxy_http.go:405-468 | the engine on the failing run: it reports done with a reusable connection, the client has a mixture of an error page and the representation, and so has the cache |
| ForwardSteps.OutcomeMeans | web/internal/corplink/proxy_http.go:356-667 | whatever the upstream does: another attempt is asked for only when nothing came or the body was cut short and all that arrived is held; giving up has one of the listed causes |
| ForwardSteps.HeldGrows | web/internal/corplink/proxy_http.go:356-667 | whatever the upstream does, another attempt starts with no less than was held, and streaming and buffering never mix |
| ForwardSteps.StaysSettled | web/internal/corplink/proxy_http.go:164-181 | whatever the upstream does, the total is known and the connection not to be closed from the head on, and whatever may be saved of a transfer, also when the client breaks off anywhere, has a known total |
| ForwardSteps.StreamsKnownTotal | web/internal/corplink/proxy_http.go:437-468 | an answer is streamed only at a known total and buffered otherwise, so the branches of the stream for an unknown length (lines 651-655) are never taken |
| ForwardRequest.RoundSettles | web/internal/corplink/proxy_http.go:340-350 | whatever the upstream does, every prefix a round leaves in the cache has a known total and goes to a connection that is kept |
| Framing.FitsExact | web/internal/corplink/proxy_http.go:405-435 | while something is missing of a stream, an accepted answer of a given head leaves exactly the announced total with the client whenever it is done, whatever body it brings, if and only if it announces no more than is missing |
| Framing.FramedStep | web/internal/corplink/proxy_http.go:356-667 | an attempt whose answer passes that test is done only with a body of the length that the client's head announces; nothing is assumed of the origin but that bodies keep to their announced length |
| Framing.KeptIsFramed | web/internal/corplink/proxy_http.go:65-93 | the same for a whole request: a connection is kept only after a body of the announced length |
| Framing.FramedIffTested | web/internal/corplink/proxy_http.go:283-335 | over all runs a connection is reused only after a body of the announced length if and only if the test is imposed |
| Framing.SendsTooMuch | web/internal/corplink/proxy_http.go:405-468 | the engine on a failing run with a faithful origin: done and reusable with fifteen bytes under a head that announces three |
| Forward.ForwardOnce | web/internal/corplink/proxy_http.go:356-471 | asks for exactly the missing range, and does to progress, client and cache what the specification of an attempt says, or part of it when the client breaks off; a head in the client's log after a first answer shows that answer |
| Heads.FirstHead | web/internal/corplink/proxy_http.go:437-468 | the head an attempt sends: streamed, it shows the answer as it is with keep-alive; flushed, with close; buffered, as a whole body |
| Heads.ForwardHeaderShows | web/internal/corplink/proxy_http.go:673-696 | line by line: the answer's status, its lines but those of the eight hop-by-hop names in order, its length, the connection line |
| Heads.ReframedHeaderShows | web/internal/corplink/proxy_http.go:530-552 | line by line: the answer's status with 206 as 200, its lines but those of the eight names and Content-Range in order, the buffered length, keep-alive |
| ForwardSteps.RangeIsHeld | web/internal/corplink/proxy_http.go:381-388 | the Range asked for begins exactly after what is held |
| ForwardSteps.StoresWhatWasTold | web/internal/corplink/proxy_http.go:609-667 | whatever the upstream does, what is committed, and what may be saved before another attempt, is the head and the body the client was told |
| ForwardSteps.NoBodyIsDone | web/internal/corplink/proxy_http.go:437-445 | a response without a body by its method or status is done with its head |
| ForwardSteps.BufferBounds | web/internal/corplink/proxy_http.go:482-530 | a buffer holds eight megabytes at most, only more than that is flushed, and a buffered body is exactly as long as a known total |
| Forward.DialError | web/internal/corplink/proxy_http.go:357-370 | a retryable failure before the head asks for another attempt and writes nothing; a definitive one writes one error block, unless the head is out |
| Forward.AcceptResume | web/internal/corplink/proxy_http.go:405-435 | accepted exactly when the answer is a 206 at the asked offset or a 200, of which exactly the held bytes are then skipped; a total is learned only when unknown |
| Forward.StartStreaming | web/internal/corplink/proxy_http.go:453-468 | the head goes out once and shows the answer's status, its lines but those of eight names, its length and keep-alive; only a 200 of bounded size stays cacheable |
| Forward.StreamBody | web/internal/corplink/proxy_http.go:609-667 | exactly the bytes that are not with the client yet are relayed and captured, in order; where the loop stops and how is the function of the reads that `StreamEndMeans` explains |
| ForwardSteps.StreamEndMeans | web/internal/corplink/proxy_http.go:646-666 | the loop asks for another attempt only after the last read, when the body was cut short, and gives up only on an error that is not a cut |
| Forward.RelayForwardBody | web/internal/corplink/proxy_http.go:609-667 | a complete body is committed and an incomplete one is not |
| Forward.RelayData | web/internal/corplink/proxy_http.go:619-644 | of one read, the bytes not yet with the client are sent and captured, in order |
| Forward.ForwardBuffered | web/internal/corplink/proxy_http.go:482-526 | full, overflow and failure each do what the specification of buffering says |
| Forward.BufferBody | web/internal/corplink/proxy_http.go:482-526 | the buffer holds what was held and what is new, within its bound; full, overflow and failure each pin down what is buffered and what is left |
| ForwardSteps.BufferStopMeans | web/internal/corplink/proxy_http.go:507-523 | the read that brings the error asks for another attempt only when the body was cut short |
| Forward.FinishBuffered | web/internal/corplink/proxy_http.go:530-576 | the client gets the whole buffer, cut to a known total, under one head with its length, and only a 200 of bounded size is committed |
| Forward.StreamOverflowBuffered | web/internal/corplink/proxy_http.go:581-604 | what was buffered, the chunk that did not fit and the rest reach the client in this order under a closing head; nothing stays cacheable |
| Forward.SavePartial | web/internal/corplink/proxy_http.go:340-350 | what was captured is afterwards in a prefix no shorter or in a complete entry |
| Forward.CommitAssetCache | web/internal/corplink/proxy_http.go:730-737 | a commit stores the captured body under the rewritten header and uses up the key |
| Splicing.ForwardHeaderFacts | web/internal/corplink/proxy_http.go:673-696 | a forwarded head announces the length of a response that has one |
| Splicing.ReframedHeaderFacts | web/internal/corplink/proxy_http.go:530-552 | a reframed head announces the length of the buffered body |
| ForwardModel.FreshNext | web/internal/corplink/proxy_http.go:621-629 | dropping what is held from the next read leaves exactly the next missing bytes |
| Splicing.FreshFits | web/internal/corplink/proxy_http.go:614-644 | what a body that continues what is held adds to it is again a prefix of the representation |
| SplicingRuns.CommitsAPart | web/internal/corplink/proxy_http.go:482-576 | the engine on a 206 that nobody asked for: the part is relayed as a 200 and committed as the whole asset |
| ForwardLimits.OverflowDeliversWhole | web/internal/corplink/proxy_http.go:581-604 | whether a flushed body is whole can be told from the head of the answer: it is unless the answer is a 206 that gives the total and announces less than what is missing |
| ForwardLimits.OverflowsShort | web/internal/corplink/proxy_http.go:581-604 | the engine on a failing run reports done, and the client lacks the last byte |
| ForwardLimits.UnannouncedEitherWay | web/internal/corplink/proxy_http.go:581-604 | a 206 that gives the total and no length: two faithful answers with the same head, one flushed whole and one short |
| ForwardLimits.OverflowHeadMismatch | web/internal/corplink/proxy_http.go:581-604 | the head of a flush announces the length of the answer's own body, which is what the client gets if and only if the answer is a 200 |
| ForwardLimits.ReframedShowsStatus | web/internal/corplink/proxy_http.go:536-539 | a reframed response shows its answer's status if and only if that is not 206 |
| HeaderText.NormalizeCachedHeader | web/internal/corplink/proxy_http.go:741-756 | the loop over lines computes the rewriting whose meaning the next two rows state |
| HeaderText.NormalizedLines | web/internal/corplink/proxy_http.go:741-756 | one length line and one connection line, after the other lines in order |
| HeaderText.NormalizedByName | web/internal/corplink/proxy_http.go:741-756 | the lines taken out are exactly those of five names, whatever their case |
| HeaderText.ItoaDenotes | web/internal/corplink/proxy_http.go:752-754 | a length is written as the decimal digits that denote it |
| HeaderText.NormalizedTwice | web/internal/corplink/proxy_http.go:741-756 | rewriting twice is rewriting once with the later length |
| HeaderText.JoinOfSplit | web/internal/corplink/proxy_http.go:743 | joining the lines of any text gives the text back |
| HeaderText.SplitOfJoin | web/internal/corplink/proxy_http.go:743 | splitting joined lines gives the lines back |
| HeaderText.LinesOfRender | web/internal/corplink/proxy_http.go:743-755 | the lines of a rendered block are the lines it was rendered from |
| HeaderText.AnnouncedOnce | web/internal/corplink/proxy_http.go:753 | a header announces one length at most |
| HeaderText.ResponseHeadLines | web/internal/corplink/proxy_http.go:673-696 | a rendered head reads back as its status line, its fields, its length line if there is one and its connection line, and announces exactly that length |
| AssetCache.AssetCache.Lookup | web/internal/corplink/proxy_cache.go:109-118 | a hit exactly for listed keys, and the entry becomes the most recent |
| AssetCache.AssetCache.Store | web/internal/corplink/proxy_cache.go:120-146 | the new entry is in front, the longest run of recent others that fits stays, the key's prefix goes; list, map and counter keep agreeing within the budget |
| AssetCache.AssetCache.MakeRoom | web/internal/corplink/proxy_cache.go:134-142 | the eviction loop keeps the longest run that leaves room, and the break on an empty list is never taken |
| AssetCache.AssetCache.StorePartial | web/internal/corplink/proxy_cache.go:150-169 | refused exactly for empty or oversized prefixes, complete keys and prefixes no longer than the stored one; otherwise stored, at the price of one other prefix when the map is full |
| AssetCache.FitIsLongest | web/internal/corplink/proxy_cache.go:134-142 | what stays weighs no more than the room, and every run that fits is no longer |
| AssetCache.HoldsMostRecent | web/internal/corplink/proxy_cache.go:109-146 | over any run of operations the keys held are a prefix of the distinct keys by latest use, without repetition and within the budget |
| AssetCache.ListedIsLastPut | web/internal/corplink/proxy_cache.go:120-146 | after any run, what is listed for a key is the response put under it last |
| AssetCache.WeightIsStored | web/internal/corplink/proxy_cache.go:120-146 | the weight of a list is the length of all its headers and bodies |
| AssetCache.PrefixLaws | web/internal/corplink/proxy_cache.go:109-169 | a prefix is stored exactly when it is not empty, at most eight megabytes, longer than the one stored, and its key is not complete; one other goes if there are thirty-two, and none else; a complete entry takes the prefix of its key |
| AssetCache.SoundRun | web/internal/corplink/proxy_cache.go:120-169 | over any run of sound operations every entry is the whole representation with its length announced, and every prefix is a prefix with the right total |
| AssetCache.SoundStep | web/internal/corplink/proxy_cache.go:120-169 | each operation keeps that |
| Recency.MostRecentOrder | web/internal/corplink/proxy_cache.go:109-118 | the order of recent use is the order of last uses |
| Recency.MostRecentDistinct | web/internal/corplink/proxy_cache.go:109-118 | it lists exactly the used keys, once each |
| RotationTheorems.DeviceConservation | web/internal/vpnmgr/connect.go:22-96 | over every run, whatever the listen address and however it changes: after every step an open device has exactly one holder, a closed one none and nothing is closed twice, if and only if no connect installs its tunnel over an installed one |
| RotationTheorems.ConservedIffStrict | web/internal/vpnmgr/config_ops.go:84-88 | devices are conserved over all runs if and only if the listen address always has a port of its own and changes only while nothing listens |
| RotationTheorems.OneListenerRun | web/internal/vpnmgr/connect.go:61-68 | under these two conditions at most one proxy listens and no connect installs over an installed tunnel |
| RotationTheorems.Leak | web/internal/vpnmgr/connect.go:44-96 | for each policy that lacks one of the two, a run in which two connects install and the first device leaks |
| RotationTheorems.MakeBeforeBreak | web/internal/vpnmgr/connect.go:419-491 | over every run that installs nothing over an installed tunnel: while connected with a proxy its dialer is an open device, the manager's own or the one being committed; every device handed over by a refresh passed its probe; a commit that still sees its proxy replaces the device it noted; the manager has a device if and only if it has a proxy |
| RotationTheorems.ConnectedMeansServed | web/internal/vpnmgr/connect.go:22-96 | over every run: the manager has a proxy whenever it is connected, after every step, if and only if no teardown takes the proxy down in that state |
| RotationTheorems.StrandedConnected | web/internal/vpnmgr/connect.go:22-42 | a run that ends connected without a proxy, with every thread done and a connect refused |
| RotationProofs.InvRun | web/internal/vpnmgr/connect.go:22-491 | ownership, listeners, refreshes, dialers and vetting hold after any interleaving that installs nothing over an installed tunnel |
| RotationProofs.InvStep | web/internal/vpnmgr/connect.go:22-491 | every other step of every thread keeps them |
| RotationStates.StateIsLastSaid | web/internal/vpnmgr/connect.go:22-698 | over every run the state is what was said last by a request, an install, a connect that gave up, or the end of a disconnect or a logout, told by the request that started the thread |
| RotationStates.LoggedOutHasACause | web/internal/vpnmgr/admin.go:152-164 | nothing but a logout or a lost session leaves the manager logged out |
| RotationStates.TeardownOver | web/internal/vpnmgr/connect.go:235-258 | when the thread of a disconnect takes its last step the manager is logged in, for a logout logged out |
| RotationStates.DisconnectAlone | web/internal/vpnmgr/connect.go:235-288 | a disconnect or a logout with nothing in between: logged in or out, no proxy, its listener gone, and the device closed once |
| RotationStates.ConnectAlone | web/internal/vpnmgr/connect.go:22-96 | a connect with nothing in between: connected, a new device behind a new proxy on the configured address |
| RotationStates.RefreshAlone | web/internal/vpnmgr/connect.go:419-491 | a refresh with nothing in between: the same proxy dials through a new device, and the old one is closed once |
| RotationStates.TakenWhen | web/internal/vpnmgr/connect.go:22-28 | over every run, in which states each request is taken |
| RotationStates.RefreshOnlyWhileConnected | web/internal/vpnmgr/connect.go:419-475 | a refresh goes to work, and keeps its swap, exactly while connected with the same proxy |
| RotationStates.LockIsReleased | web/internal/vpnmgr/connect.go:419-425 | whoever holds the refresh lock is at work and can take another step |
| RotationStates.CandidateJudged | web/internal/vpnmgr/connect.go:164-187 | which candidates are kept, closed, followed by another one, or the last |
| RotationStates.ProbesRemembered | web/internal/vpnmgr/connect.go:419-446 | what is remembered of probes and of handed devices is what the steps did |
| RotationStates.TriesAreBounded | web/internal/vpnmgr/connect.go:666-735 | over every run a connect tries once and a reconnect five times at most, and has the rest left until it connects or gives up |
| RotationProofs.InstallsOverNothing | web/internal/vpnmgr/connect.go:70-96 | while only one proxy listens, a connect that got the listener finds no device and no proxy |
| RotationProofs.CommitReplacesNoted | web/internal/vpnmgr/connect.go:452-475 | an unchanged proxy implies the device is the one noted before the candidate was built |
| Probing.ProbeTunnel | web/internal/vpnmgr/probe.go:30-57 | accepted exactly when DNS answered and a recent destination did, or none is known, or the probe is not strict; destinations are tried in order up to the first that answers |
| Probing.BuildLiveTunnel | web/internal/vpnmgr/connect.go:164-187 | of all devices the builder brought up, at most four, every one but the returned one is closed exactly once; the returned one is open and passed, those before it did not |
| Probing.WaitDrained | web/internal/vpnmgr/connect.go:510-516 | ends at the first poll that is not before the minimum and finds no connection or the deadline passed, so less than one step after it |
| Probing.NetstackDevice.Close | web/internal/corplink/netstack.go:298-305 | the device underneath is taken down once however often it is closed |
| Probing.NetstackDevice.DialContext | web/internal/corplink/netstack.go:229-238 | the counter is the number of open connections after a dial |
| Probing.NetstackDevice.ActiveConns | web/internal/corplink/netstack.go:49-51 | the number polled by the drain is that of the open connections, zero exactly when all are closed |
| Probing.CountingConn.Close | web/internal/corplink/netstack.go:364-369 | and after a close, also when a connection is closed twice |
| Watchdog.CondemnedExactly | web/internal/vpnmgr/connect.go:611-647 | after any run of samples, swaps and teardowns, by what the run sampled of the last tunnel: condemned if and only if its handshake is stale, or there was demand within twenty seconds, it has been live for longer, and no sample in that time saw inbound bytes; and which of the three reasons is given |
| Watchdog.FieldsTellTheRun | web/internal/vpnmgr/connect.go:224-333 | the fields are about the tunnel that went live last and what was sampled of it while it was live |
| Watchdog.GraceAfterGoingLive | web/internal/vpnmgr/connect.go:224-233 | a tunnel with a fresh handshake is not condemned within twenty seconds of going live, whatever came before |
| Watchdog.InvRun | web/internal/vpnmgr/connect.go:300-333 | the recorded times are those of the last samples in which the counters grew since the tunnel went live |
| Watchdog.HeardByLast | web/internal/vpnmgr/connect.go:633-645 | inbound bytes within a window, by all samples, if and only if the recorded time is within it; it is never before the tunnel went live |
| Watchdog.Manager.ResetTunnelStats | web/internal/vpnmgr/connect.go:224-233 | the fields are those of a tunnel that just went live |
| Watchdog.Manager.TakeSample | web/internal/vpnmgr/connect.go:300-333 | the fields after a sample, with the inbound time no earlier than the tunnel |
| Watchdog.Manager.Judge | web/internal/vpnmgr/connect.go:549-585 | the decision on a snapshot judged at a later time is the one by the sampled history |
| TunnelSwap.NoLostWakeup | web/internal/corplink/proxy.go:201-217 | the channel handed out with a generation is closed if and only if the generation has moved on |
| TunnelSwap.WaitExact | web/internal/corplink/proxy.go:254-267 | a wait for a noted generation can report a swap if and only if one happened since, before or after the wait looked |
| TunnelSwap.KickDiscipline | web/internal/corplink/proxy.go:237-250 | over any interleaving kicks have strictly increasing generations, never zero, never in the future, and at most one is pending |
| TunnelSwap.KickIffNew | web/internal/corplink/proxy.go:237-250 | a kick is issued if and only if somebody listens, the generation is not zero and was not kicked before |
| TunnelSwap.KickExactly | web/internal/corplink/proxy.go:223-250 | by the run: a dead tunnel asks for a rotation exactly when somebody listened before, it is not the first one, and nothing asked since it was put in place |
| TunnelSwap.SecondTunnelIsKicked | web/internal/corplink/proxy.go:223-250 | a run in which the failure of the second tunnel leaves a signal |
| TunnelSwap.FirstTunnelNeverKicked | web/internal/corplink/proxy.go:237-250 | a listened-to failure of the first tunnel asks for nothing |
| TunnelSwap.NoKickLost | web/internal/corplink/proxy.go:223-250 | after any interleaving a signal is waiting if and only if a send is not followed by a take, although sends into a full channel are dropped |
| TunnelSwap.InvStep | web/internal/corplink/proxy.go:201-250 | every critical section keeps channels, kicks and signals in order |
| TunnelSwap.MixedProxy.SetTunnel | web/internal/corplink/proxy.go:201-209 | the channel closed is open before, so the close cannot panic |
| TunnelSwap.MixedProxy.TunnelGen | web/internal/corplink/proxy.go:213-217 | the channel is open and belongs to the generation returned with it |
| TunnelSwap.MixedProxy.MarkKick | web/internal/corplink/proxy.go:237-245 | marks exactly once per generation that can be kicked |
| TunnelSwap.MixedProxy.SendKick | web/internal/corplink/proxy.go:246-249 | afterwards a signal is pending, also when the send was dropped |
| DnsFlight.SingleFlight | web/internal/corplink/proxy.go:563-603 | over any interleaving at most one lookup resolves a host, and one does if and only if the host is in the table |
| DnsFlight.JoinersGetLeadersResult | web/internal/corplink/proxy.go:571-602 | a lookup that was not cancelled returns what the leader of its resolution returned, for the same host |
| DnsFlight.JoinerNotStranded | web/internal/corplink/proxy.go:571-602 | a joiner's resolution is over, or its leader can still finish it |
| DnsFlight.CacheSound | web/internal/corplink/proxy.go:588-595 | cached addresses are a non-empty list without benchmark addresses that a resolution of that host found, begun one TTL before they expire |
| DnsFlight.MixedProxy.LookupHost | web/internal/corplink/proxy.go:563-603 | a whole lookup, with others between its critical sections: it leads exactly when the host is not in flight and the resolution that found its addresses last began five minutes ago or more, and then returns and caches what the replies resolve to; within the five minutes it returns what that resolution found; any addresses returned are free of benchmark ones; what is not cancelled is what the leader of the resolution returned |
| DnsFlight.EnterExactly | web/internal/corplink/proxy.go:563-585 | after any run: told what the resolution found that ended last with addresses, if that began less than five minutes ago; else joined to the one in flight; else leading a new one |
| DnsFlight.StaleIsResolvedAgain | web/internal/corplink/proxy.go:563-585 | with nothing in flight and no resolution younger than five minutes that found addresses, a lookup leads |
| DnsFlight.ResolveMeans | web/internal/corplink/proxy.go:605-625 | resolved if and only if some reply has usable addresses, and then with those of the first such reply; otherwise with the error of the last |
| DnsFlight.InvRun | web/internal/corplink/proxy.go:563-603 | a resolution is in the table exactly while its done channel is open, after any interleaving |
| DnsFlight.ResolveHost | web/internal/corplink/proxy.go:605-625 | the loop returns what `ResolveMeans` explains |
| DnsFlight.UsableOfClean | web/internal/corplink/proxy.go:613-618 | usable addresses are exactly the parsed ones outside the benchmark range |
| DnsFlight.UsableInOrder | web/internal/corplink/proxy.go:613-618 | usable addresses keep their order |
| DnsFlight.FakeIffBenchmarkRange | web/internal/corplink/proxy.go:627-633 | the addresses refused are exactly those of 198.18.0.0/15, written as IPv4 or mapped |
| DnsFlight.MixedProxy.Begin | web/internal/corplink/proxy.go:563-585 | serves what a resolution found that began less than five minutes ago, joins the resolution in the table, or leads a new one |
| DnsFlight.MixedProxy.Complete | web/internal/corplink/proxy.go:588-600 | the channel closed is open before, the table loses exactly the leader's own resolution, and found addresses are cached for one TTL from its start |
| RecentDials.AnswerMeaning | web/internal/corplink/proxy.go:527-542 | the answer in terms of the dials alone: distinct destinations by latest use, last dialed within the TTL, cut to the cap and to the limit |
| RecentDials.RecentList.RecentDialAddrs | web/internal/corplink/proxy.go:527-542 | the fresh entries of the list in order up to the limit; when the times recorded are in order and not after the query's, as the whole history would answer |
| RecentDials.RecentList.RecordRecentDial | web/internal/corplink/proxy.go:507-523 | the dial in front of the other fresh entries up to the cap; the list keeps standing for the history if the time is not before the last one; addresses that are not host and port are skipped |
| RecentDials.InsertStandsFor | web/internal/corplink/proxy.go:507-523 | dropping by cap and by age at each insert loses nothing a later query could need |
| RecentDials.FreshOfKept | web/internal/corplink/proxy.go:516-521 | what was stale or beyond the cap once stays out of every later answer |
| RecentDials.LatestByUse | web/internal/corplink/proxy.go:514-521 | the full list is the distinct destinations in reverse order of last dial |
| Cidr.SubtractExact | web/internal/corplink/wgconf.go:32-50 | in every case the result covers exactly the addresses of outer that are not in inner |
| Cidr.SubtractMinimal | web/internal/corplink/wgconf.go:32-66 | for inner strictly inside outer: disjoint prefixes, one per length, and no list with that union is shorter |
| Cidr.CarveExact | web/internal/corplink/wgconf.go:52-66 | the carving covers exactly outer minus inner |
| Cidr.CarveLengths | web/internal/corplink/wgconf.go:52-66 | one masked prefix of each length from outer's to inner's |
| Cidr.CarveDisjoint | web/internal/corplink/wgconf.go:52-66 | no address is in two of them |
| Cidr.CarveMinimal | web/internal/corplink/wgconf.go:52-66 | every list of prefixes with that union has at least as many |
| Cidr.SetBitRefines | web/internal/corplink/wgconf.go:69-78 | or-ing a shifted one into the byte array sets exactly that bit of the address |
| Routes.BuildAllowedIPs | web/internal/corplink/connect.go:25-53 | the addresses routed are those of the split lists in split mode and of the full lists in full mode without the peer, plus the DNS servers, only IPv4 without an IPv6 address; so the peer stays out unless it is a DNS server; refused exactly in full mode with both full lists empty |
| Routes.CarvePeer | web/internal/corplink/connect.go:41-49 | an address stays routed if and only if it is not the peer's |
| Routes.EnsureDNSAllowedIPs | web/internal/corplink/connect.go:152-175 | the DNS servers are added behind the routes and nothing else changes; nothing is added when all are covered |
| Routes.CoveredByRoute | web/internal/corplink/connect.go:152-175 | subtraction of a route leaves nothing of a host prefix exactly when the route contains the host |
| Routes.FilterIPv6Routes | web/internal/corplink/connect.go:177-186 | the in-place compaction leaves exactly the routes to keep, in order |
| Routes.WithoutV6Keeps | web/internal/corplink/connect.go:177-186 | what is kept are the routes that cannot be read and those of IPv4 |
| Routes.WithoutV6Meaning | web/internal/corplink/connect.go:177-186 | which are the IPv4 part of the address set |
| Routes.NormalizeCIDRs | web/internal/corplink/connect.go:136-150 | the in-place compaction leaves exactly the readable routes, once each |
| Routes.NormalizedMeaning | web/internal/corplink/connect.go:136-150 | which cover the same address set |
| Routes.SubtractCIDRExact | web/internal/corplink/wgconf.go:32-50 | on text: exact where both can be read, unchanged where not |
| Socks5.RoundTripIff | web/internal/corplink/upstream.go:260-289 | a request exists for every address and every other host of up to 255 octets, and reading it returns host and port and leaves exactly the suffix if and only if the port is below 65536 and the host is not an address in another form than the library writes |
| Socks5.RequestLayout | web/internal/corplink/upstream.go:260-289 | the octets of a request: version 5, the command, then type 1, 4 or 3 with its address or name and the port |
| Socks5.DecodeExactly | web/internal/corplink/proxy.go:687-714 | a host is read exactly when its type is 1, 3 or 4 and all its octets are there, and which octets it takes |
| Socks5.DecodeOfRequest | web/internal/corplink/upstream.go:260-324 | for any host and port, what is read is the host in the library's form and the port modulo 65536 |
| Socks5.SameRequestIff | web/internal/corplink/upstream.go:260-289 | two requests are equal if and only if the hosts are, up to the form of an address, and the ports modulo 65536 |
| Socks5.RequestOfDecode | web/internal/corplink/upstream.go:291-324 | what was read is written back as the same octets if and only if it was neither an IPv4 address in the IPv6 form nor an address as the text of a name |
| Socks5.Socks5ReadAddr | web/internal/corplink/upstream.go:291-324 | reads exactly the decodable addresses and stops right after the port |
| Socks5.ReadSocksAddr | web/internal/corplink/proxy.go:687-714 | reads exactly the decodable hosts and stops right after them |
| Socks5.ReadRequest | web/internal/corplink/proxy.go:367-390 | a server sees the destination of a CONNECT request exactly when all of it is there |

## Left out

- Sockets, TLS, gVisor, WireGuard and the Go HTTP reader and writer: attempts, reads and writes are outcomes chosen by an adversary.
- The order in which a header writer sorts fields, reason phrases, and case folding beyond ASCII.
- Raw websocket forwarding, CONNECT relaying, proxy authentication (the 407 answer) and the buffering of request bodies.
- The kick and the wait for a swap inside the attempt loop: they only delay the next attempt; TunnelSwap states them on their own.
- Deadlines and tickers: a timeout is an outcome of a read, a poll or a wait; clocks are monotone integers.
- The test whether a path names an immutable asset, which is a field of the request.
- A trailing copy after an overflow is one write of the rest, which may stop anywhere.
- The text syntax of addresses and prefixes: `Notation` and `IpText` stand for the library that reads and writes it; IPv6 zones, and the splitting of host and port text, are not part of this model.
- Session reports, node selection, login flows, configuration files, the REST handlers and the user interface.
- Traffic rates and the wire-level counters shown to users.
- Allocation of channels and lookup records: they are numbers that were not used before.
- The line reader of the HTTP upstream handshake and the connection that replays what it read too much: both only move bytes from one buffer to the next.
- RecentDials.RecentList: dials are recorded with a clock that is read before the lock is taken; that the list answers for the whole history is stated for times that come in order.
- Uint64 wrap-around of tunnel generations.
- The scan of a server's greeting and authentication in SOCKS5, and its reply codes.
- Probing.WaitDrained: needs a positive step, which the callers' constants give, because time does not pass between polls otherwise.
- The manager's connection fields are a value that steps replace, because the theorems range over interleavings; how one critical section updates them in place is not captured.
- A reconnect's waiting times and the coalescing of refreshes that follow each other within eight seconds; skipping is a choice that is always possible.
- Listen addresses that overlap without being equal, such as a wildcard and one interface with the same port, count as one address, and one address admits one listener, which the operating system guarantees.
- Splicing.KinExact: an answer to HEAD is never buffered, which its precondition says, because a response to HEAD has length zero.
