# A verified model of perun-node's channel bookkeeping

perun-node wraps the state channels of go-perun: it keeps, for every channel and every session, the
subscriber, the notifications not yet delivered, the requests waiting for an answer and the status;
it turns payments into balance changes, amounts into base units, and addresses and symbols into each
other; and it protects all of this with locks. This project models that bookkeeping in Dafny and
proves what holds over every run of it.

## How the project is built

| files | what they model |
|---|---|
| `UpdateIds.dfy` | the identifiers of update and close notifications, as text |
| `Notifications.dfy` | the queue of notifications that channels and sessions keep |
| `Channel.dfy`, `ChannelObject.dfy`, `ChannelEffects.dfy`, `ChannelRuns.dfy` | the life cycle of a channel: its steps as functions, the object whose methods are proved to make these steps, what each step does in plain terms, and the theorems over runs |
| `Payments.dfy`, `PaymentRuns.dfy` | batches of payments, run in place, and conservation over runs of a payment channel |
| `Proposals.dfy`, `Session.dfy` | channel proposals under every interleaving of threads; the session object and its registry of channels |
| `Locks.dfy`, `LockOrder.dfy`, `LockRoles.dfy` | every operation as a program over the node's locks; the order in which it takes them, and who runs it |
| `LockRuns.dfy`, `LockFinishing.dfy`, `LockClosing.dfy` | who can be stuck, and on what; that every run comes to its end; what closing a session does to the other operations |
| `Currency.dfy`, `CurrencyRoundTrip.dfy` | parsing and printing amounts, and what the round trip loses |
| `Registries.dfy` | the contract and currency registries, and the node that keeps them in step |
| `PeerCache.dfy` | the cache of peers with its two indices |
| `Opening.dfy` | from the balances a caller gives to the allocation of a channel, and back |

Code that updates objects is a class whose methods change the same fields; each method's contract says
which step of the specification it makes, and the theorems are about runs of these steps. The fields
`tr`, `handled`, `launched`, `answers` and `dispatched` are ghost: they record what the code does to its surroundings
(notifications started, answers given, register and settle calls made).

What lies outside the repository is a parameter or a small contract: an update of the agreed state
fails and leaves it alone, or installs the result one version on, and a final state takes none;
accepting a proposal installs it or fails; registering, settling and the chain's validation of a
contract report success or failure; quotients of decimals are rounded half away from zero to sixteen
places and integer parts are cut off; the clock is a parameter.

## Where the code and its documentation differ

The model follows the code.

- `session/channelRegistry.go:41-42` says that a channel with a known identifier replaces the old one.
  `get` then finds the new one, but both stay in the list that `forEach` runs over (`PutTwice`).
- `currency/currency.go:38-39` speaks of the absolute value of an amount; the code compares the amount
  itself, so a negative amount is always refused. `currency/currency.go:58` promises no loss of accuracy;
  `ParseOfPrint` says what is lost for currencies of more than sixteen decimals, ETH among them.
- `session/session.go:580` and `session/session.go:705` rely on the currency registry holding every
  symbol of the contract registry. That is so except between the two halves of a registration, which
  a session can observe because it does not take the node's lock (`InterpreterFoundUnlessPending`,
  `GapBetweenTheHalves`).
- `session/session.go:736-742` says that a proposal of an unknown peer is rejected by the node and
  announced with the peer's address in place of its alias. The code leaves the names of that peer and of
  all later ones empty (`ReadPeers`). A proposal that also names an unregistered asset is rejected twice,
  and a handler that meets such an asset stops in `makeBalInfoFromRawBal`, which indexes an empty list of
  currencies (`HandlerStoresOrRejects`).
- A session that was closed keeps the locks of its channels (`session/session.go:1062-1064`). When all calls
  have returned, a further call for the channel infos of a session can return exactly if no call has closed
  that session while it had a channel (`ChsInfoReturnsUnlessClosed`); such a run is `ClosedSessionIsReached`.
- Closing a session waits, under the session's lock, until the goroutine of its handler has returned
  (`session/session.go:1009`, `session/session.go:1076`, `session/client.go:240-252`), and the handler's callbacks take that lock. If the
  library runs a callback in that goroutine, the two wait for each other forever
  (`ClosingAndHandlerWaitIsReached`, `ClosingAndHandlerWaitForever`); if it runs every callback in a
  goroutine of its own, that cannot happen (`StuckOnlyOnKeptLocks`). Which it does is not in the repository.
- `idprovider/local/cache.go:70-83` looks a peer up by the canonical text of an address but indexes it by
  the text it was written with (`WrittenPeerFoundIffCanonical`, `WrittenPeerMissed`).

## Model

| member | source | states |
|---|---|---|
| UpdateIds.ValueOfDecimal | session/channel.go:593 | the version text of a channel info determines the version |
| UpdateIds.UpdateIDInjective | session/channel.go:400 | an update identifier determines the channel and the proposed version, whatever the channel identifier looks like |
| UpdateIds.CloseIDIsNoUpdateID | session/channel.go:244 | no close notification shares its identifier with an update of any channel |
| ChannelObject.Channel.constructor | session/channel.go:115-144 | a new channel is open, with no subscriber, nothing cached and nothing pending |
| ChannelObject.Channel.HandleUpdate | session/channel.go:351-376 | one step of the channel: the update is recorded as pending and its notification launched or cached; ignored when closed |
| ChannelObject.Channel.SendChUpdateNotif | session/channel.go:378-388 | a notification is cached if and only if nobody is subscribed, else launched with the subscriber |
| ChannelObject.Channel.SubChUpdates | session/channel.go:426-450 | the shrinking-slice loop stays in bounds, launches every cached notification once in order and empties the cache; refusals change nothing |
| ChannelObject.Channel.UnsubChUpdates | session/channel.go:457-479 | removes the subscriber and nothing else; the three outcomes |
| ChannelObject.Channel.RespondChUpdate | session/channel.go:490-547 | takes the entry out, answers it only in time, registers only after a successful accept of a final update; exactly which error is returned when |
| ChannelObject.Channel.AcceptChUpdate | session/channel.go:549-558 | one Accept call; the agreed state becomes the proposed one exactly on success |
| ChannelObject.Channel.UpdateBy | session/channel.go:88 | the contract of the library's update: next version with whatever the updater made of the state, or the state untouched if the updater or the library fails; a final state takes no update |
| ChannelObject.Channel.SendChUpdate | session/channel.go:309-335 | success exactly if the channel is open, the updater succeeds and the update is agreed; otherwise the state is untouched |
| ChannelObject.Channel.Close | session/channel.go:649-696 | tries to finalise, registers in any case, and remembers that this side asked, even if registering failed |
| ChannelObject.Channel.HandleAdjudicatorEvent | session/channel.go:150-196 | settles and closes on Registered for a state that is not final, on Concluded for a final one, and does nothing otherwise |
| ChannelObject.Channel.CloseAndNotify | session/channel.go:228-251 | closes, and tells the subscriber of that moment, who is then removed |
| ChannelEffects.HandleUpdateEffect | session/channel.go:351-407 | an update of an open channel is pending under `<channel>_<version>` unless it expires in second zero, and announced once, to the subscriber or in the cache; nothing else changes |
| ChannelEffects.SubscribeEffect | session/channel.go:431-450 | an accepted subscriber is the one remembered, and each cached notification is launched for it, in order |
| ChannelEffects.UnsubscribeEffect | session/channel.go:461-479 | afterwards nobody is subscribed, and the next notification waits in the cache |
| ChannelEffects.RespondEffect | session/channel.go:503-547 | exactly the entry with the identifier is taken out; it is answered exactly in time, installed exactly on a successful accept, and registered exactly if final |
| ChannelEffects.SendUpdateEffect | session/channel.go:321-335 | agreed exactly if the channel is open and not final and neither the updater nor the library fails |
| ChannelEffects.CloseEffect | session/channel.go:649-696 | a successful finalisation makes the state final with its balances unchanged; registering and remembering happen in any case |
| ChannelEffects.AdjudicatorEffect | session/channel.go:155-251 | Registered settles and closes exactly if the state is not final, Concluded exactly if it is, and every other event changes nothing; whom the close notification goes to and what it says |
| ChannelEffects.LaunchesGoToTheSubscriber | session/channel.go:378-388 | in every run each notification was launched for the subscriber in force at that moment |
| ChannelRuns.NothingLostDoubledOrReordered | session/channel.go:375-388 | over every run: launched notifications followed by the cached ones are exactly the handled ones in order, and a subscriber finds the cache empty |
| ChannelRuns.ClosedIsAbsorbing | session/channel.go:228-240 | over every run: once closed, no operation changes subscriber, cache, pending updates or agreed state, answers, registers or launches; at most one close notification ever |
| ChannelRuns.CloseAnnouncedToTheSubscriber | session/channel.go:228-251 | the closing step sends one notification exactly if somebody is subscribed, with the state in force, an identifier no update has, and an error exactly if settling failed |
| ChannelRuns.SettlesMatchEvents | session/channel.go:155-196 | while finality is fixed, settle calls are counted by the Registered events if the state is not final and by the Concluded events if it is |
| ChannelRuns.SettlesFromTheFirstEvent | session/channel.go:157-191 | from the event that closes the channel on, with anything in between, settle runs once for it and once for each later event of its kind |
| ChannelRuns.DocumentedOrdersSettleOnce | session/channel.go:158-186 | both documented orders of events settle exactly once, and the first event already closes the channel |
| ChannelRuns.SecondaryExactlyWhenPeerClosed | session/channel.go:207 | in every run each settle call is non-secondary exactly when this side went through Close while the channel was open |
| ChannelRuns.AnsweredAtMostOnceInTime | session/channel.go:508-546 | in every run each handled update gets at most one Accept or Reject, and none after its expiry second |
| ChannelRuns.NotificationsDescribeTheUpdates | session/channel.go:390-407 | in every run the notifications launched or cached correspond one to one to the handled updates, each with the identifier, the state in force, the proposed balances, the kind and the expiry of its update |
| ChannelRuns.ResponseAnswersExactlyThePendingUpdate | session/channel.go:508-546 | a response in time answers the update with that identifier, once, as the user chose; a late or unknown one answers nothing |
| ChannelRuns.RegistersExactlyAcceptedFinals | session/channel.go:521-539 | in every run the registrations made in answer to updates are those of the successfully accepted final updates, in order, no more and no fewer |
| ChannelRuns.PendingKeysUnambiguous | session/channel.go:370-374 | in every run at most one update is pending per proposed version, and no close notification's identifier is a key |
| ChannelRuns.LaterUpdateForTheVersionSupersedes | session/channel.go:372-374 | an update replaces a pending one exactly if it is for the same version, and the replaced one is never answered in any continuation |
| Payments.Netting | app/payment/channel.go:124-130 | running the moves one by one adds to each balance what the batch pays that participant less what it takes |
| Payments.BatchOrderIrrelevant | app/payment/channel.go:104-108 | any permutation of a batch gives the same balances |
| Payments.BatchConserves | app/payment/channel.go:124-130 | a batch leaves the total of every currency unchanged |
| Payments.RunUpdate | app/payment/channel.go:124-130 | the closure, run in place: payer less, payee more, every other entry as before |
| Payments.RunUpdates | app/payment/channel.go:104-109 | the loop over the closures, run in place, makes all moves in order |
| Payments.UpdatedCopy | session/channel.go:328 | run on a copy, the closures give what the batch's update function gives and leave the agreed balances alone |
| Payments.SymbolIndices | session/channel.go:133-135 | every currency's symbol has an index, which is the last one of that symbol |
| Payments.GetPayerPayeeIdx | app/payment/channel.go:113-122 | the payee is the first participant of that name, the payer the other one of the pair; fails exactly if there is none |
| Payments.SendPayChUpdate | app/payment/channel.go:84-111 | all or nothing: the first payment whose currency, amount or payee (in this order) is unusable is reported and the channel left alone, exactly if there is one; else each payment's move goes to the first participant of that name, from its neighbour, with the parsed amount, and the whole batch is agreed or nothing changes |
| Payments.OnePayment | app/payment/channel.go:113-130 | on a channel of two a payment adds its amount at the payee, takes it from the other one, and changes nothing else |
| PaymentRuns.BalancesAreOpeningPlusAgreed | app/payment/channel.go:84-130 | over every run of payments, proposals in time or handled late, answers, failures and finalisations of both sides: each balance is the opening one plus received less sent over the agreed batches |
| PaymentRuns.TotalsNeverChange | session/channel.go:309-335 | over every such run the total of every currency is the opening total |
| PaymentRuns.FinalStateIsLast | session/channel.go:680-696 | once final, the agreed state never changes again |
| ProposalRuns.AnsweredAtMostOnce | session/session.go:630-690 | under every interleaving each proposal's responder is called at most once, unless it names an unknown peer and an unregistered asset, when it is at most twice |
| ProposalRuns.HandlerStoresOrRejects | session/session.go:630-690 | a handler stores the proposal exactly if all peers and assets are registered, and else rejects it once for each of the two faults, so that two rejections do occur |
| ProposalRuns.AloneIsARun | session/session.go:630-690 | a thread that runs undisturbed is one of the interleavings, so the methods below are runs of the system |
| ProposalRuns.NodeRejectionsNeverReachTheUser | session/session.go:677-681 | under every interleaving only unanswered proposals with registered peers and assets are stored, and an answer is a user's exactly if it is to one of these |
| ProposalRuns.OnlyOneResponseGetsTheProposal | session/session.go:836-844 | under every interleaving at most one response has a proposal in hand, and while it has, the proposal is neither stored nor answered |
| ProposalRuns.ResponseAnswersTheStoredProposal | session/session.go:829-859 | a response on an open session takes out exactly the proposal with its identifier, leaving all else, and answers it exactly if it is in time |
| ProposalRuns.StoredUntilTaken | session/session.go:836-844 | under every interleaving a stored proposal stays stored, with the same entry, until a response for its identifier takes it or another with its identifier is stored |
| ProposalRuns.SubscriptionEffects | session/session.go:750-801 | an accepted subscriber is the one remembered and gets each cached notification in order; unsubscribing leaves nobody subscribed |
| ProposalRuns.LaunchesGoToTheSubscriber | session/session.go:683-689 | under every interleaving each notification was launched for the subscriber in force at that moment |
| ProposalRuns.ProposalsNotifiedInOrder | session/session.go:683-689 | under every interleaving: launched notifications followed by the cached ones are those made, in order, and a subscriber finds the cache empty |
| SessionObject.Session.HandleProposal | session/session.go:630-690 | a handler's thread run alone, with the lookups of the real caches and registries; what the notification shows, and that there is none exactly if an asset is not registered |
| SessionObject.Session.ReadPeers | session/session.go:646-659 | the aliases up to the first unknown peer, for which the proposal is rejected once |
| SessionObject.Session.RespondChProposal | session/session.go:816-860 | a response's thread run alone; which error is returned exactly when; an accepted proposal adds its channel exactly on success |
| SessionObject.Session.StoreProposal | session/session.go:675-690 | the last section of a proposal's handler |
| SessionObject.Session.TakeProposal | session/session.go:836-844 | the section that looks up a stored proposal and deletes it, and no other |
| SessionObject.Session.SubChProposals | session/session.go:747-773 | the flush loop stays in bounds, launches every cached notification once in order and empties the cache |
| SessionObject.Session.UnsubChProposals | session/session.go:781-801 | removes the subscriber and nothing else |
| SessionObject.Session.HandleUpdate | session/session.go:964-985 | an update is handed to the last channel with its identifier, is rejected if there is none, and is dropped exactly by a closed session |
| SessionObject.Session.GetChsInfo | session/session.go:913-924 | one info per channel in the order of putting, every lock taken and released |
| SessionObject.Session.LockAllChs | session/session.go:1024-1047 | takes every channel's lock once and lists the open ones and those in an unexpected phase in order |
| SessionObject.Session.UnlockAllChs | session/session.go:1067-1071 | releases every channel's lock exactly once |
| SessionObject.Session.Close | session/session.go:1007-1065 | all or nothing: exactly when it is refused and with which error, every lock then released and the session left open; otherwise the session is closed, all channels are in phase Acting or Withdrawn, and the list is exactly the open ones in order, empty without force |
| SessionObject.OpenListedInOrder | session/session.go:1026-1047 | the list of open channels holds the infos of exactly those, in the order of putting |
| SessionObject.UnexpectedListedInOrder | session/session.go:1026-1047 | the same for the channels in neither of the phases Acting and Withdrawn |
| SessionObject.NoUnexpectedInfos | session/session.go:1040-1043 | no channel is listed exactly if all are in phase Acting or Withdrawn |
| SessionObject.ChRegistry.Put | session/channelRegistry.go:43-46 | appends the channel and keeps every identifier leading to its last channel |
| SessionObject.ChRegistry.Get | session/channelRegistry.go:50-56 | finds the last channel with the identifier, and none exactly if there is none |
| SessionObject.PutTwice | session/channelRegistry.go:41-56 | of two channels put with one identifier the second is found, and both stay listed |
| LockOrder.EveryOperationInOrder | session/session.go:1007-1071 | every operation takes each lock above all those it holds (node, session, channels in registry order, registries, server) and ends holding none |
| LockRuns.StuckOnlyAfterClosing | session/session.go:1007-1071 | for any number of threads, sessions and channels, in every reachable state: if no unfinished thread can step, one waits for the lock of a channel of a closed session, or a closing and a callback of the session's handler wait for each other |
| LockRuns.NoDeadlockWhileSessionsStayOpen | node/node.go:158-185 | in every run in which no call has closed a session, some thread can step if one is unfinished |
| LockFinishing.EveryRunFinishes | node/node.go:158-185 | after every run only a bounded number of steps can follow without a new call, for every schedule and every outcome of the operations; if no call has closed a session when no step is left, all threads have finished |
| LockFinishing.EveryThreadCanFinish | node/node.go:158-185 | after every run without a closing, such a run to the end exists |
| LockRuns.KeptExactlyByClosings | session/session.go:1026-1064 | over every run, a lock is kept exactly if it is that of a channel which a session had when a call closed it |
| LockClosing.WaitsForever | session/session.go:1062-1064 | a thread waiting for such a lock never steps again and what it holds is never free again |
| LockClosing.ChsInfoReturnsIff | session/session.go:913-924 | where the session's and channels' locks are free or kept, asking for the channel infos can return exactly if none of the channels' locks is kept |
| LockClosing.ChsInfoReturnsUnlessClosed | session/session.go:913-924 | after every run whose calls have returned, it can return exactly if no call closed the session while it had a channel |
| LockClosing.ChsInfoOfClosedSessionNeverReturns | session/session.go:913-924 | otherwise the call never returns and takes the session's lock for good |
| LockClosing.ClosingGoesThrough | session/session.go:1007-1065 | with the locks free and the handler idle, a closing can return, and then keeps every channel's lock |
| LockClosing.ClosedSessionIsReached | session/session.go:1062-1064 | a run that opens a channel, closes its session and ends with that channel's lock kept |
| LockClosing.ClosingAndHandlerWaitForever | session/client.go:240-252 | a closing and a callback that wait for each other do so in every continuation |
| LockClosing.ClosingAndHandlerWaitIsReached | session/client.go:211-213 | they come to it from every state where the closing's locks are free, if the callback runs in the handler's goroutine |
| LockClosing.StuckOnlyOnKeptLocks | session/client.go:211-252 | if every callback runs in a goroutine of its own, only locks of closed sessions' channels are waited for in a state where nobody can step |
| CurrencyRoundTrip.ParseIsFloor | currency/currency.go:40-51 | parsing gives n exactly if n is at least one and the amount is worth at least n and less than n + 1 base units |
| CurrencyRoundTrip.ParseIgnoresRepresentation | currency/currency.go:40-51 | exponent form and trailing zeros make no difference |
| CurrencyRoundTrip.ParseOfPrint | currency/currency.go:59-62 | exact up to sixteen decimals; beyond, rounded to multiples of u = 10^(decimals - 16), and refused exactly below u / 2 |
| CurrencyRoundTrip.RoundTripError | currency/currency.go:40-62 | the error is at most u / 2 and printing again gives the same number |
| CurrencyRoundTrip.RoundTripExactly | currency/currency.go:40-62 | the round trip is exact for precisely the positive multiples of u |
| CurrencyRoundTrip.KnownAmounts | currency/currency_test.go:73 | one ETH is 10^18 base units, 5 base units are printed as 0 and 50 as 0.0000000000000001 |
| RegistrySpec.SymbolAndAssetInverse | blockchain/ethereum/registry.go:138-189 | asset and symbol lookups are inverse: each registered asset has exactly one symbol, whose asset it is |
| RegistrySpec.RegisterContractValid | blockchain/ethereum/registry.go:84-108 | a registration keeps the correspondence of symbols, assets and tokens, and every earlier entry |
| RegistrySpec.RegisterContractEffect | blockchain/ethereum/registry.go:84-108 | exactly when a registration is made; the symbol then has the asset and the token it was registered with |
| RegistrySpec.EntriesAreTheRegistered | blockchain/ethereum/registry.go:104-107 | in every run each symbol has the asset, the token and the decimals of the one registration that added it; ETH those the node started with |
| RegistrySpec.RegistriesAgree | node/node.go:107-135 | in every run both registries hold the same symbols whenever no registration is under way, and the second half of one never finds its symbol taken |
| RegistrySpec.InterpreterFoundUnlessPending | session/session.go:576-581 | a registered asset's interpreter is found exactly unless that symbol is between its two halves at that moment |
| RegistrySpec.GapBetweenTheHalves | node/node.go:223-245 | between the halves the asset is found and the interpreter is not |
| RegistryObjects.ContractRegistry.constructor | blockchain/ethereum/registry.go:48-71 | a new registry holds ETH alone, at index 0 and without a token |
| RegistryObjects.ContractRegistry.IsAssetRegistered | blockchain/ethereum/registry.go:178-189 | finds the one symbol of a registered asset for every order in which the map is read |
| RegistryObjects.ContractRegistry.RegisterAssetERC20 | blockchain/ethereum/registry.go:84-108 | succeeds exactly if the asset is new, the contract valid and the symbol new; the three lists then; what each refusal names |
| RegistryObjects.ContractRegistry.Asset | blockchain/ethereum/registry.go:139-147 | the asset of a registered symbol |
| RegistryObjects.ContractRegistry.Token | blockchain/ethereum/registry.go:152-163 | a token for every registered symbol but ETH |
| RegistryObjects.ContractRegistry.Symbol | blockchain/ethereum/registry.go:166-171 | the one symbol of an asset |
| RegistryObjects.ContractRegistry.Assets | blockchain/ethereum/registry.go:128-136 | one entry per symbol, its asset, for every order in which the map is read |
| RegistryObjects.CurrencyRegistry.Register | currency/registry.go:86-100 | adds the interpreter and symbol, or reports that the symbol exists |
| RegistryObjects.Node.constructor | node/node.go:59-67 | a new node has ETH in both registries |
| RegistryObjects.Node.RegisterCurrency | node/node.go:197-253 | both halves or neither, exactly when; the symbol's asset, token and interpreter then; the error of the second half never occurs |
| RegistryObjects.Node.RegisterAssetERC20s | node/node.go:107-135 | succeeds exactly if every entry can be met where those before it have been; the registries end in step in any case, and on success every entry has its asset, token and interpreter |
| PeerCacheSpec.IndicesAgree | idprovider/local/cache.go:87-106 | over every run of writes each address text leads to the last alias indexed for it, whose entry has that text and its parsed address; an entry never changes |
| PeerCacheSpec.FoundPeerHasTheAddress | idprovider/local/cache.go:71-83 | a peer found by address has that address in canonical text, and one is found exactly if some peer has it |
| PeerCacheSpec.WrittenPeerFoundIffCanonical | idprovider/local/cache.go:71-106 | a written peer is found by its address exactly if it was written with the canonical text |
| PeerCacheSpec.WrittenPeerMissed | idprovider/local/cache.go:70-83 | a concrete backend reading two texts as one address, with which a written peer is not found by its address |
| PeerCache.IdProviderCache.New | idprovider/local/cache.go:40-55 | loading fails exactly if an address cannot be parsed; else, for every order of the map, the indices agree if peers are filed under their aliases |
| PeerCache.IdProviderCache.ReadByOffChainAddr | idprovider/local/cache.go:71-83 | the lookup through both indices |
| PeerCache.IdProviderCache.Write | idprovider/local/cache.go:87-106 | adds the peer to both indices, or says whether the same or another peer has the alias |
| Opening.SanitizeBalInfo | session/session.go:481-499 | the own alias and its column of amounts change places with the first ones, in place, and nothing else moves |
| Opening.SanitizedPairs | session/session.go:477-499 | every alias keeps its amount, and the own alias comes first |
| Opening.SanitizeTwice | session/session.go:481-499 | a second pass never changes the aliases, and leaves every row of amounts alone exactly if the own alias is not repeated |
| Opening.SanitizeTwiceWithRepeatedSelf | session/session.go:481-499 | with the own alias repeated the amounts are exchanged again |
| Opening.RetrievePartIDs | session/session.go:503-538 | succeeds exactly if all aliases are known, none is repeated and the own one is there; peers in the order of the aliases; which error comes first |
| Opening.MissingInOrder | session/session.go:503-538 | the aliases reported as missing are exactly the unknown ones, in order |
| Opening.MakeAllocation | session/session.go:562-597 | one asset, interpreter and parsed row per currency, or the first unusable entry is reported |
| Opening.GetCurrencies | session/session.go:697-709 | succeeds exactly if all assets are registered, with their interpreters in order |
| Opening.CurrenciesOfAllocation | session/session.go:697-709 | looking up an allocation's assets, also after more registrations, gives the currencies it was made with in the same order |
| Opening.MakeBalInfoFromRawBal | session/channel.go:611-626 | every raw balance printed at its place, with the symbols of the rows |
| Opening.RenderedRowReparsed | session/channel.go:617-623 | a row shown and entered again is the same exactly if every amount is a positive multiple of the printed unit |
| Opening.RenderedAllocationReparsed | session/session.go:562-597 | the same for a whole allocation |
| Opening.PrepareOpening | session/session.go:402-416 | if opening gets as far as the proposal, self is unique and first, and every peer and parsed amount stand where the caller paired them |

## Left out

- The state channel library, signatures, the chain, wallets, keystores, the network and persistence: only the contracts named above.
- The gRPC and command line front ends, logging and configuration; of the server only the lock that a close notifier takes.
- What a launched goroutine does and when: starting it is recorded at the point of the `go` statement, with the subscriber of that moment.
- The waits on the watcher and on the adjudicator's timeout, and the wait of `session/client.go:250` for the listener: they are assumed to return. The wait there for the handler is modelled.
- Decimal strings: an amount is a coefficient and an exponent, or invalid text.
- `Delete` in the cache of peers, which sessions do not call, and locks of that cache and of the registries as reader-writer locks: `Locks.dfy` treats readers like writers.
- ChannelRuns.NotificationsDescribeTheUpdates: leaves out app data, the names of the parts and the printing of balances, which is `Opening.MakeBalInfoFromRawBal`.
- Challenge durations, app data and the names of parts in update notifications, error texts and the sums in `session/timeout.go`.
- The node's table of sessions and the restoring of channels, except for the locks they take.
- LockFinishing.EveryRunFinishes: counts steps; that a thread which can step is run at all is the scheduler's part, and that calls into the library return is assumed. EveryThreadCanFinish chooses the outcomes of the operations together with the schedule.
- Payments.SendPayChUpdate: if every payment can be made, each payee has a neighbour, as on every channel of two; without one the update function would index past the balances.
- Opening.PrepareOpening: for rows of amounts that reach the own alias's place; on shorter ones the source indexes past the row.
- ChannelObject.Channel.SendChUpdateNotif: the subscriber is that of the `go` statement; the closure at `session/channel.go:384-387` reads it only when it runs.
- SessionObject.Session.HandleProposal: no app data or challenge duration, one clock reading for the whole call, and no registration between its two halves at that moment (`RegistrySpec.InterpreterFoundUnlessPending` says what happens otherwise); the asynchronous case is `ProposalSpec`.
- SessionObject.Session.RespondChProposal: the kinds of failure of the library's Accept (funding, chain, time) are one error.
- ProposalRuns.AnsweredAtMostOnce: after the handler of a proposal with an unregistered asset has stopped, the model lets the other threads go on, although the program would end.
