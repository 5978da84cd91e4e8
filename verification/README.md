# dcrlnlpd, verified

`dcrlnlpd` sells inbound Lightning channels. A client asks for a channel of some size to
its node, receives an invoice, pays it, and the daemon opens the channel. When the wallet
runs low the daemon closes its least active channels. This project models those two
mechanisms, and the text formats and amounts they rest on, in Dafny 4.11 and proves what
they promise. `dafny verify dfyconfig.toml` checks all of it.

## The parts

**Paid invoice to channel.** `Protocol` is a step machine with any number of
`CreateInvoice` threads, the invoice listener, any number of `openChannel` threads and the
cleaner of stale reservations. Each RPC, file operation and locked region is one step, and
the answers of the outside world belong to the step. The environment lets time pass,
settles or cancels invoices, creates invoices of its own, drops the stream, replays events,
and crashes and restarts the server at any point. A write may fail and leave no record,
part of one, or all of it. `ProtocolSafety` holds the inductive invariant; `ProtocolTheorems`,
`ProtocolRevenue` and `Reservations` state the promises over every run. `Server` is the
server object with its mutable fields and its loops. `Refinement` follows the machine's
threads when they are left alone, and `ServerRuns` concludes that every call of
`CreateInvoice` and `OpenChannel` and every connection of `ListenToInvoices` is a run of the
machine with the effects that the method's contract states. Calls made one after another
therefore stay within the reachable states, where the promises hold; the machine itself
covers all interleavings.

**Channel closing.** `ChanScore` is the activity score. `Selector` fetches, partitions,
scores, sorts in place and marks channels; its result is described by the predicate
`IsManagement`, which fixes the result up to the order of channels with equal scores.
`SelectorTheorems` proves the theorems for every result that meets `IsManagement`, so they
hold for any sort.

**Versions.** `Regex` gives regular expressions their languages, `SemVer` builds the
expression of the version package from its pieces and proves a search-free recogniser equal
to it, and `Version` models parsing, the rebuilding in `init`, and normalisation.

**Codecs and amounts.** `Rpc` (node IDs), `ChannelPoints`, `Text`, `Policy` (fees, size
policy), `Widths` (integer conversions), `Dcrlnd` (questions to the node) and `Client` (the
other end of the protocol).

## Environment assumptions

- The node hands out each payment hash once, and an invoice is settled only after someone
  holds its payment request. Events agree with the node's ledger; they may come in any
  order, late, and any number of times.
- The clock does not go backwards within a run of the machine.
- The policy, fee rate included, does not change during a run. Revenue and client agreement
  are stated for fees that fit an int64 (`FeesFit`).
- Scores, fee rates and products with them are exact reals instead of float64.
- Amounts inside the selector are unbounded integers; the supply of coins keeps their sums
  within int64. The uint64, int64 and uint32 conversions that decide an outcome (invoice
  amounts, the settlement test, the output scan, lifetimes, output indexes, version
  numbers) are written out.

## Where a promise holds only on a condition

| promise | holds exactly when | member |
|---|---|---|
| the listener refuses every payment below the fee | the fee is below 2^63 | `Policy.SettlementCheckExact` |
| the early-exit scan of outputs compares the true total | the size is at most 2^63 | `Dcrlnd.ScanTrustedExactly` |
| scoring does not panic | the channel has capacity and its lifetime, the block count between the heights modulo 2^32 times the block time, is positive as an int64 | `ChanScore.NoPanicExactly` |
| the rebuilt version string parses again | the commit ID is a valid build string | `Version.RebuildExact` |
| a second management round is idle | its balances reach the minimum or the first round took every candidate | `SelectorTheorems.SecondRoundIdleExactly` |
| formatting a parsed channel point gives the text back | the text is that of a 32-byte hash and a uint32 index | `ChannelPoints.FormatOfParsedExact` |

While that lifetime product is below 2^63, scoring panics only on a channel without capacity
or confirmed at the node's own height; a channel confirmed above it, with the node behind,
passes for one about 2^32 blocks old.

The condition on the second round matters because the limbo balance counts force-closing channels only
(server/server.go:594-596): funds of a cooperatively closing channel are in neither balance
for a while, and `RoundsAreStable` therefore has their arrival as its premise.

The closing rule of the repository's own README (README.md:34-38) compares a rate of atoms
sent with a required rate. The code has no such rule; the model follows
server/chanscore.go and server/server.go.

## Model

| member | source | states |
|---|---|---|
| `ProtocolTheorems.AtMostOnce` | server/server.go:272-315 | in every run, with any interleaving, replay, drop or crash, a payment hash leads to at most one `openChannel` launch and one OpenChannel stream, and only consumed records lead to launches |
| `ProtocolTheorems.HistoryGrows` | server/server.go:422-427 | consumed records, launches, streams and reservation log are append-only and time never decreases, so the end of a run speaks for all of it |
| `ProtocolTheorems.RightChannel` | server/server.go:399-427 | every launch has the node and size of the request whose invoice was issued, settled, and paid in full |
| `ProtocolTheorems.IssuedImpliesRecorded` | server/server.go:241-250 | for every payment request returned to a client the record holds exactly the requested node and size until it is consumed or the invoice is canceled |
| `ProtocolTheorems.SettledRecordStays` | server/server.go:402-426 | after settlement the record is gone if and only if it was consumed; an underpaid settlement leaves it in place |
| `ProtocolTheorems.ListenerStopsOnlyOnFaults` | server/server.go:391-427 | a half-written record is never met by a settlement; the listener ends only when the file system fails on an intact file |
| `ProtocolTheorems.PaidEventLaunches` | server/server.go:399-427 | once a sufficient payment's event is received, three listener steps launch exactly its node and size, whatever all other threads and events do meanwhile |
| `ProtocolTheorems.DeliveryStartsProgress` | server/server.go:384-403 | every delivered event of a sufficient, unconsumed payment in a reachable state starts the progress that `PaidEventLaunches` completes |
| `ProtocolTheorems.EnvironmentIsFree` | server/server.go:365-434 | the machine's environment may always let time pass or crash the server, pay any issued open invoice any amount, cancel any open one and add foreign ones, with exactly these effects |
| `ProtocolTheorems.StreamIsFree` | server/server.go:375-391 | a waiting stream may drop, be opened again, and deliver any event that agrees with the ledger, again and again |
| `ProtocolSafety.StepKeepsInv` | server/server.go:203-431 | each step of each thread and of the environment keeps the invariant tying records, ledger, threads and histories together |
| `ProtocolSafety.RunKeepsInv` | server/server.go:203-431 | the invariant holds in every reachable state |
| `ProtocolRevenue.RunKeepsRequests` | server/server.go:203-239 | in every reachable state requests past the policy check and invoiced requests are within policy, and invoices carry the fee of their size |
| `ProtocolRevenue.LaunchesWithinPolicy` | server/server.go:153-166 | every channel ever launched is within the size policy and for a node that is not ignored |
| `ProtocolRevenue.PaymentsWithinReceipts` | server/server.go:414-427 | orders with distinct hashes that the ledger confirms sum to no more than what was received on settled invoices, each counted once |
| `ProtocolRevenue.RunKeepsRevenue` | server/server.go:402-427 | fees of launched channels plus the fee of the order in flight never exceed the payments on consumed records |
| `ProtocolRevenue.RevenueConservation` | server/server.go:149-151 | at a fixed fee rate, fees of all launches are at most the payments on consumed records, which are at most all receipts |
| `Reservations.CleaningDropped` | server/server.go:772-795 | a run with its cleaner steps removed stays possible and ends in a state that agrees on everything but expired reservations |
| `Reservations.CleanupInvisible` | server/server.go:772-795 | inserting or deleting cleaner steps anywhere changes no answer of `hasPendingCreateChanReqs`, nor anything else but expired entries |
| `Reservations.RunKeepsReservations` | server/server.go:183-199 | in every reachable state the reservation map is what the log of answers says, up to expired entries |
| `Reservations.ReservationAnswer` | server/server.go:186-199 | a request is rejected if and only if the node's latest reservation in force has not expired |
| `Reservations.ReservationSpacing` | server/server.go:350-352 | two accepted reservations of one node are more than the expiration apart, or an opened channel to it or a restart lies between |
| `Server.Server.HasPendingCreateChanReqs` | server/server.go:186-199 | answers whether the node has an entry not older than the expiration, and stamps the node at the second clock reading exactly when it has none |
| `Server.Server.CleanUp` | server/server.go:780-789 | leaves no entry older than the expiration, removes no other, and counts what it removes |
| `Server.Server.ReadJsonFile` | server/db.go:42-54 | tells a missing record from an unreadable one and otherwise yields what was stored |
| `Server.Server.CreateInvoice` | server/server.go:203-251 | in terms of the raw answers, which of the ordered checks refuses, when an invoice is issued, that it asks for the exact fee, and the reservations and records left |
| `Server.Server.ListenToInvoices` | server/server.go:383-431 | unless it fails, a connection launches exactly the node and size of each record whose first disposal is a settlement of at least the exact fee; records and failure are those of `HandleAll`, which `ServerRuns.ConnectionRuns` shows to be a run of the machine |
| `Server.LaunchesExactly` | server/server.go:391-427 | a connection that does not fail launches exactly one channel for each record whose first disposal is a sufficient payment, with that record's node and size |
| `Server.UpdateExactly` | server/server.go:391-427 | for any single update, in its own fields and those of its record: launched if and only if settled with at least the floor of size times rate on an intact removable record; when the listener fails; what is removed |
| `Server.LaunchesPaid` | server/server.go:414-427 | launches restated in exact fees, without the int64 test |
| `Server.RecordsLeft` | server/server.go:391-427 | it leaves exactly the records that no update cancels or pays for, unchanged |
| `Server.HandleAllStops` | server/server.go:395-425 | a failure ends the listener: no later update has an effect |
| `Server.Server.OpenChannel` | server/server.go:253-362 | a stream is followed if and only if policy holds and the first producing attempt among three has no cancellation before it; waits are 30 s and then 60 s; the node is freed exactly by a readable ChanOpen |
| `Server.Server.AttemptOpen` | server/server.go:278-289 | an attempt produces a stream if and only if the peer is connected, funds exceed the size and the call is accepted |
| `Server.Server.FollowUpdates` | server/server.go:320-361 | the update loop frees the node if and only if a readable ChanOpen precedes the end of the stream |
| `Refinement.HandleRefinesMachine` | server/server.go:391-428 | handling one update is a run of the machine's listener alone, with the same records, launch, consumption and failure |
| `Refinement.PurchaseRefinesMachine` | server/server.go:422-427 | on a sufficient payment that run removes the record, then launches one opener for it, or stops when removal fails |
| `Refinement.RetrySchedule` | server/server.go:273-314 | in the machine a failed first or second attempt waits and leads to the next unless canceled; a failed third ends the thread |
| `Refinement.ThirdAttempt` | server/server.go:263-300 | a thread that failed twice uncanceled makes a third attempt and with it obtains a stream or ends |
| `Refinement.OneAttempt` | server/server.go:278-314 | one attempt of the machine's opener leads to the update loop, to the end, or to the next attempt |
| `Refinement.RetryRefinesMachine` | server/server.go:262-320 | from any attempt on, the machine's opener enters the update loop if and only if the first success condition of `OpenChannel` holds, and ends otherwise |
| `Refinement.FollowRefinesMachine` | server/server.go:317-361 | a stream's updates free the node in the machine exactly as in `FollowUpdates`, and obtain no further stream |
| `Refinement.CreateInvoiceRefinesMachine` | server/server.go:203-251 | a `CreateInvoice` thread running alone ends with the reservations, records and issued invoice that the method's contract gives, for every outcome of its write |
| `ServerRuns.ConnectionRuns` | server/server.go:383-431 | a connection is a run of listener steps that ends with the records, launches and failure of `ListenToInvoices` and an `openChannel` thread for every launch |
| `ServerRuns.ConnectionLaunchesOnce` | server/server.go:399-427 | in every reachable state a connection launches pairwise distinct orders, none launched before, each settled in full on an invoice of its own request |
| `ServerRuns.OpenChannelRuns` | server/server.go:253-362 | a call of `OpenChannel` is a run of one thread, from its policy check through its attempts to the end of its stream, that frees the node and obtains a stream exactly when the method's contract says so and changes nothing else |
| `ServerRuns.OpenChannelStreamsOnce` | server/server.go:273-294 | in every reachable state a call obtains the first stream of its order or none |
| `ServerRuns.CreateInvoiceRuns` | server/server.go:203-251 | a call of `CreateInvoice` is a run of one new thread |
| `ServerRuns.CreateInvoiceRecords` | server/server.go:241-250 | from every reachable state it ends in a reachable one, where every issued open request is recorded as asked for |
| `Policy.CanCreateChannel` | server/server.go:153-181 | accepts if and only if the size is within bounds, the node is not ignored and its channels were listed and are below the maximum; otherwise the first failing check gives the reason |
| `Policy.AmountForNewChan` | server/server.go:149-151 | the fee is at most size times rate and less than one atom below it |
| `Policy.AcceptedExactly` | server/server.go:414-415 | while the fee fits an int64 a payment is accepted if and only if it is at least the floor of size times rate, overpayments included |
| `Widths.ConversionsExact` | server/server.go:414 | each integer conversion yields the one congruent value of its type |
| `Policy.SettlementCheckExact` | server/server.go:414-415 | the listener refuses every underpayment if and only if the fee fits an int64 |
| `Dcrlnd.IsConnectedToNode` | server/dcrlnd.go:56-70 | the text comparison of peers answers exactly whether the node ID is among them |
| `Dcrlnd.ExceedsIsTotal` | server/dcrlnd.go:91-98 | the early-exit uint64 scan is true if and only if the unbounded total exceeds the size |
| `Dcrlnd.ScanTrustedExactly` | server/dcrlnd.go:91-98 | the scan is right for all lists of outputs if and only if the size is at most 2^63 |
| `Dcrlnd.AdmittedSizesTrusted` | config.go:593-597 | the scan is right for every size that start-up validation admits |
| `Dcrlnd.HasUnspentForNewChannel` | server/dcrlnd.go:83-99 | the loop, with its wrapping sum, answers whether the total of the outputs exceeds the size, and no when the query fails |
| `ChanScore.NoPanicExactly` | server/server.go:635-639 | for all uint32 heights, when scoring panics through the uint32 subtraction and the int64 product; while the product fits, lifetimes are exact and only capacity and a channel of the current block matter |
| `ChanScore.ScoreMeaning` | server/chanscore.go:34-40 | score times capacity times whole hours of 3600 seconds, at least one, is the atoms sent |
| `ChanScore.ScoreOrder` | server/chanscore.go:34-40 | comparing scores is comparing integers cross-multiplied |
| `ChanScore.ScoreMonotone` | server/chanscore.go:34-40 | more atoms sent never lower a score; more capacity or lifetime never raise it |
| `Selector.SortByScore` | server/server.go:654-659 | the array ends in ascending score and is a permutation of what it was |
| `Selector.MarkForClosing` | server/server.go:666-687 | marks exactly the old enough channels before the first point that reclaims enough, and sums their balances |
| `Selector.CutUnique` | server/server.go:683-686 | the stopping rule determines where closing stops |
| `Selector.Partition` | server/server.go:614-652 | managed and unmanaged lists are exactly the channels on each side in order, and it panics exactly when some managed channel cannot be scored |
| `Selector.FetchManagedChannels` | server/server.go:579-690 | succeeds if and only if every call does and nothing panics; balances and the need for management in the node's figures, and a management of the node's view |
| `Selector.ManageChannels` | server/server.go:693-745 | launches one close per channel marked, in order and no other, each at the channel's own point with the node its public key text names |
| `Selector.CallExactly` | server/server.go:735-737 | the node of a close call is the one the text names in either letter case, or the zero ID if it names none |
| `SelectorTheorems.ClosedSetShape` | server/server.go:666-687 | the closed set is a prefix of the old enough managed channels by score, every proper prefix is short of the minimum, and it reaches the minimum or takes all; reclaimed is the sum of its balances |
| `SelectorTheorems.ClosedIsOldEnough` | server/server.go:634-676 | in fields of the listed channels: a channel closes only if this side opened it, neither it nor its peer is ignored, and the block height less the height in its ID, times the block time, reaches the minimum lifetime |
| `SelectorTheorems.OldEnoughIsCandidate` | server/server.go:634-676 | every such listed channel is a candidate |
| `SelectorTheorems.ManagedIsListed` | server/server.go:617-651 | every channel of the result presents a listed one that this side opened and that is not ignored, field by field, with its exact age, eligibility and score |
| `SelectorTheorems.ListedIsManaged` | server/server.go:617-651 | every such listed channel is presented |
| `SelectorTheorems.UnmanagedExactly` | server/server.go:556-576 | the unmanaged channels are exactly the listed ones that the peer opened or that are ignored, with their fields |
| `SelectorTheorems.PanicsExactly` | server/server.go:635-639 | fetching panics exactly on a managed channel without capacity or confirmed at the block height |
| `SelectorTheorems.RoundIdleExactly` | server/server.go:661-664 | a round closes nothing if and only if no funds are needed or no channel is old enough |
| `SelectorTheorems.BottleneckOptimal` | server/server.go:655-687 | any choice of eligible channels that covers the shortfall contains one scoring at least as high as every channel closed |
| `SelectorTheorems.MoreNeedClosesMore` | server/server.go:597-599 | raising the minimum or lowering the balances only extends the closed prefix, whatever the listing order, when candidates' scores differ |
| `SelectorTheorems.OrderIndependent` | server/server.go:617-687 | permuting the listed channels closes the same channels when candidates' scores differ |
| `SelectorTheorems.WorstNeverFalls` | server/server.go:655-687 | with ties and any listing order, for balances that are not negative, raising the minimum or lowering the balances never lowers the worst score closed |
| `SelectorTheorems.TiesAreTheOnlyChoice` | server/server.go:655-687 | at equal need the worst score closed is the same for every listing order and sort, and only channels with exactly that score may differ |
| `SelectorTheorems.SameArrangementExtends` | server/server.go:655-687 | with equal scores allowed, runs that break ties alike extend one another |
| `SelectorTheorems.CandidatesLeft` | server/server.go:668-687 | the channels still listed hold exactly the candidates that were not closed, by count |
| `SelectorTheorems.SecondRoundIdleExactly` | server/server.go:594-599 | a second round at the same height closes nothing if and only if its balances reach the minimum or the first took every candidate |
| `SelectorTheorems.RoundsAreStable` | server/server.go:586-599 | when closed balances arrive in wallet or limbo, wallet plus limbo plus listed balances is conserved and the second round closes nothing |
| `SelectorTheorems.ManagedPlusUnmanaged` | server/server.go:615-659 | managed and unmanaged channel points together are exactly the multiset listed |
| `SemVer.PreReleaseLanguage` | internal/version/version.go:26-28 | the pre-release group of the expression matches exactly the dotted identifiers without leading zeros in numbers |
| `SemVer.BuildLanguage` | internal/version/version.go:26-28 | the build group matches exactly the dotted non-empty identifiers |
| `SemVer.PreIdentExact` | internal/version/version.go:27-28 | in plain characters, what an identifier of a pre-release is |
| `SemVer.BuildIdentExact` | internal/version/version.go:28 | in plain characters, what an identifier of a build is |
| `SemVer.FindSubmatchExact` | internal/version/version.go:26-28 | cutting at the first plus, first hyphen and dots finds groups if and only if the expression matches with them, so a match is unique |
| `Version.AlphabetNeverFails` | internal/version/version.go:120-130 | after a match neither alphabet check can fail |
| `Version.AlphabetExact` | internal/version/version.go:21 | the alphabet is the letters, digits, hyphen and dot, and nothing else |
| `Version.PrintExactly` | internal/version/version.go:144-148 | dots between the numbers, a hyphen before a pre-release and a plus before a build |
| `Version.PrintedParses` | internal/version/version.go:95-133 | printing valid parts and parsing gives the same parts |
| `Version.ParsedPrints` | internal/version/version.go:95-133 | whatever parses has valid parts and is what they print as |
| `Version.ParseExact` | internal/version/version.go:95-133 | a text parses to some parts if and only if they are valid and it is their printed form |
| `Version.ParseErrorsExact` | internal/version/version.go:98-118 | parsing fails as malformed if and only if no groups match, and otherwise exactly when a number exceeds 32 bits |
| `Version.FieldErrorsExact` | internal/version/version.go:105-118 | of the numbers beyond 32 bits the first is the one reported |
| `Version.Variables.Init` | internal/version/version.go:135-151 | panics if and only if the version does not parse; otherwise the build defaults to the commit ID and the version string is what the variables print as |
| `Version.RebuildExact` | internal/version/version.go:141-150 | the rebuilt string parses if and only if the commit ID is a valid build string, and then to the same parts with that build |
| `Version.NormalizeString` | internal/version/version.go:163-171 | the buffer loop keeps exactly the characters of the alphabet, in order |
| `Version.NormalizePasses` | internal/version/version.go:83-92 | normalised text always passes the check, and text passes if and only if normalising leaves it alone |
| `Version.NormalizedChars` | internal/version/version.go:163-171 | normalised text holds nothing but letters, digits, hyphens and dots |
| `Version.NormalizeLaws` | internal/version/version.go:159-171 | normalising is idempotent and distributes over concatenation |
| `ChannelPoints.HashRoundTrip` | server/util.go:39-46 | the text of a 32-byte hash reads back as that hash |
| `ChannelPoints.HashTextReversed` | server/util.go:49-53 | a hash is written from its last byte to its first, high digit first |
| `ChannelPoints.ShortHash` | server/util.go:40 | a short text is read as a hash whose leading digits are zero |
| `ChannelPoints.HashReadable` | server/util.go:40-44 | a hash text is readable if and only if it has at most 64 characters, all hexadecimal digits |
| `ChannelPoints.AtoiExact` | server/util.go:19 | digits with an optional sign are read as their value, if it fits an int64 |
| `ChannelPoints.AtoiRefuses` | server/util.go:19-22 | nothing else is read |
| `ChannelPoints.FormatExact` | server/util.go:30-54 | formatting fails exactly without 32 bytes or a readable text |
| `ChannelPoints.ParseFormatted` | server/util.go:12-28 | a written index is read back modulo the width of an output index |
| `ChannelPoints.ChannelPointRoundTrip` | server/util.go:12-54 | parsing a formatted channel point recovers hash text and index, and formatting again gives the same text |
| `ChannelPoints.FormatOfParsedExact` | server/util.go:12-54 | parsing then formatting gives the text back if and only if it is the text of a hash and an index |
| `Rpc.NodeIDRoundTrip` | rpc/types.go:13-43 | reading the text of a node ID gives that ID |
| `Rpc.ParseNodeIDExact` | rpc/types.go:33-43 | a text reads as an ID if and only if in lower case it is that ID's text |
| `Rpc.NodeIDVar.FromString` | rpc/types.go:33-43 | success stores the ID whose text is the input in lower case; failure leaves the receiver unchanged |
| `Rpc.HexInjective` | server/server.go:242 | record file names and peer texts stand for one byte string each |
| `Rpc.EncodedDigits` | rpc/types.go:13-15 | the digits of each byte stand in order, the high one first, in lower case |
| `Client.RequestChannel` | client/lpdclient.go:176-292 | pays if and only if all raw answers are favourable: addresses, size bounds, channel count, outbound capacity, route, approval, connection, identity and an invoice of the floor of size times rate; otherwise which check refuses |
| `Client.PriceAgrees` | client/lpdclient.go:170-172 | client estimate, invoice amount and settlement test are the same price through all conversions |
| `Client.PaysExactly` | client/lpdclient.go:190-292 | shown the server's policy, the client pays the exact fee if and only if the answers are favourable in the server's own figures |
| `Client.PayingClientIsAdmitted` | client/lpdclient.go:190-212 | the request of a paying client passes the server's policy check, unless its node is ignored |
| `Client.InvoicesArePriced` | server/server.go:230-235 | in every run an invoice of a request is within policy and carries the price of its size |
| `Client.ClientAndServerAgree` | client/lpdclient.go:283-292 | in every run, a client holding the invoice of its own request is stopped neither by size nor amount checks, and its payment settles the request |
| `Client.PayingClientIsServed` | client/lpdclient.go:283-292 | once the invoice is settled at what the client pays and the event is delivered, three undisturbed listener steps launch exactly the client's node and size |

## Left out

- gRPC, TLS, macaroons, HTTP routing and the v1 API handlers; a call to the node is an answer in the step.
- JSON text and the file system; record files are a map that a failed write may leave with an unreadable entry.
- Configuration loading, logging, signals and the localhost checks; from config.go:593-597 only the largest channel size is used.
- A bound on open channels across threads: the check at server/server.go:176 is not atomic with opening, so concurrent opens may exceed it.
- Liveness: a crash between removing a record and launching loses the open, so only safety, and progress without a crash, is claimed.
- The choice that sort.Slice makes among equal scores; the in-place sort here is an insertion sort and the theorems hold for any sorted arrangement.
- IEEE rounding of scores and fees, and overflow of sums of balances in the selector.
- The stream handling of `closeChannel` (server/server.go:437-478) and the timers around management rounds (server/server.go:748-761).
- The client's channel watcher (client/lpdclient.go:88-133), which accepts any opened channel, and its payment call.
- cmd/client, mocks and test helpers.
- `chainhash`, `hex`, `strconv` and `regexp` are not part of the repository; their documented behaviour is modelled in `Rpc`, `Text`, `ChannelPoints` and `Regex`.
- `Server.Server.OpenChannel`: the reservation is freed in one call here; other threads acting between updates are the machine's part.
- `Version.NormalizeString`: works on characters; invalid UTF-8 input is not modelled.
