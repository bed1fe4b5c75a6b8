# A verified model of prov-go's protocols

prov-go is a Go client for the Provenance blockchain. Most of it is plumbing around
gRPC; what is hard in it is concurrent or stateful, and that is what is modelled and
proved here:

- **The paginated stream** (`PagedStream`, `SliceForm`, `SliceOutcomes`, `SliceLoop`). A
  producer goroutine walks a key cursor and sends items on a bounded channel; a consumer
  selects over the context, the data channel and a one-slot error channel. The five copies
  (balances, attributes, attributed accounts, validators, delegations) are one protocol
  that differs in the item type and the page limit.
- **The account value** (`AccountPricing`, `AccountProtocol`, `AccountInvariant`,
  `AccountValue`, `AccountOutcomes`, `AccountLoop`). `GetAccountValue` fans the NFT balances of a stream out
  to pool tasks and fans the prices in through a one-slot channel, a WaitGroup and a
  summing goroutine.
- **Adding attributes** (`AttributeJob`, `AttributePipeline`, `AttributeShipment`,
  `AddAttributes`, `AttributeLoop`, `AttributeLookup`). A filter goroutine feeds a batcher that submits
  transactions of 75.
- **The sequence protocol** (`Sequencing`, `Clients`, `RegistryLoader`, `Pipelining`,
  `Allocator`). Drawing, resetting, simulating, signing, broadcasting and waiting against a
  chain that holds the account's sequence; the loader on top of it; the same without
  waiting, as `AddAttributes` sends its batches; and the mutex that guards the sequence
  field.
- **Smaller parts that carry proofs** (`Grants`, `TxEvents`, `Events`, `ReceiveOutcome`,
  `Utf8`, `Base64`, `JsonText`, `Cw20Payload`, `Cw20Text`). Paged authorization grants, the two event searches,
  the outcome of a CW20 receive, and the nested CW20 payloads.

## How it is modelled

A concurrent function is a transition system: one state, one predicate per atomic action of
a goroutine, and a run is any interleaving of them. A `select` takes any of its enabled
cases. A send on or close of a closed channel, a negative WaitGroup and an addition of two
denominations set `panicked`. `Runs` holds what an inductive invariant and a measure give for
every run: the invariant everywhere, a bound on the length, and a path to a final state.

The same functions are also given as loops that update variables (`SliceLoop`,
`AccountLoop`, `AttributeLoop`): a scheduler chooses at every turn which goroutine moves and
what the outside answers. Under any scheduler, a turn that changes nothing being followed by
one that does, each loop ends, is a run of the transition system, and returns what the
theorems about runs say. The clients that submit transactions are classes whose methods
update their sequence; each method is tied to the value-level meaning of an attempt in
`Sequencing`.

The functions a specification is built from are themselves pinned down: beside them stand
relations that speak of positions, names and numbers only (which input a message asks for,
which event has which index, which poll is the least to find a transaction), and the results
of the operations are stated through those relations. Automatic induction is switched off on
every lemma; proofs by induction call themselves.

What the outside does is a parameter: the server's list and the sizes of its pages, which
calls fail, when a context is cancelled, what a simulation, a broadcast or a poll answers,
and the current time.

## What does not hold

- The slice forms document an error, or else all items. They do not keep that: after a
  failure both channels are closed, and the `select` may find the data channel closed before
  it reads the error. `SliceForm.SilentTruncation` gives a run that returns an empty list and
  a nil error; `SliceForm.AlwaysCompleteIffReliable` says exactly when the promise is kept;
  `SliceOutcomes.ExactlyThePossibleOutcomes` lists everything a caller can get.
- `GetAccountValue` returns a value when it finds the balance channel closed and drained, and
  takes that for "all balances received". After a failure or a cancellation the same holds of
  a list cut short, so a partial or empty total comes with a nil error
  (`AccountOutcomes.SilentEmptyValue`). A value covers the account on every schedule, and all
  schedules agree on it, exactly when nothing can fail or be cancelled or nothing is priced
  (`AccountOutcomes.CoversIffReliable`, `AccountOutcomes.AgreeIffReliable`).
- `GetAccountValue` does not test the value of the closed error channel for nil, so for every
  account some schedule returns no value and no error (`AccountValue.NoValueAndNoError`).
- `AddAttributes` takes an existing attribute for absent when its lookup returns an empty list
  and a nil error after a failure (`AttributeLookup.ExistingIsFoundIffReliable`).
- A failed simulation resets the client to the committed sequence, which is said to restore
  the alignment. It does exactly when no transaction is pending
  (`Pipelining.ResetRecoversIffNonePending`). `AddAttributes` does not wait between batches,
  and then one failure can cost any number of further ones
  (`Pipelining.OneFailureCostsAnyNumber`). This assumes that the chain simulates against the
  sequence after its pending transactions and answers account queries from its last block.
- The scan for a first attribute and the search by map differ on a key repeated with
  different first and last values (`Events.RepeatedKeyCanDiffer`), and on nothing else
  (`Events.AgreeIffFirstIsLast`).

## Model

| member | source | states |
|---|---|---|
| PagedStream.ProducerKeepsInv | pkg/provenance/bank.go:78-116 | every step of a stream's producer keeps: received, channel, rest of the page and what the cursor has not reached make up the server's list in order; at most one error is ever sent; the error channel is closed before the data channel; no buffer outgrows the limit |
| PagedStream.DrainedIsComplete | pkg/provenance/bank.go:79-115 | a reader that finds the data channel closed and drained has a prefix of the list, and the whole of it iff no error is left unread |
| PagedStream.ProducerStepLowersWork | pkg/provenance/bank.go:82-115 | no action of the producer can be repeated for ever |
| PagedStream.ProducerCanMove | pkg/provenance/bank.go:76-113 | the producer is never stuck, except on a full data channel with a live context; its one send of an error never waits |
| PagedStream.PagesNeededIsCeiling | pkg/provenance/bank.go:82-115 | the request count used below is 1, or the length over the limit rounded up |
| SliceForm.StepKeepsSafe | pkg/provenance/bank.go:28-44 | every step of either goroutine keeps the invariant and lowers the measure, re-reading the closed error channel excepted |
| SliceForm.EveryStateAccounted | pkg/provenance/bank.go:28-115 | in every reachable state nothing is lost, repeated or reordered; at most one error waits and the data channel is closed last; a returned list is a prefix of the server's; a returned error did happen |
| SliceForm.CompleteExactlyWhenNoErrorUnread | pkg/provenance/bank.go:33-41 | a list returned with a nil error is whole iff the error channel holds no unread value |
| SliceForm.FailureUnread | pkg/provenance/bank.go:33-41 | from any state about to report a failure, with the data channel drained, some schedule returns the list so far and a nil error |
| SliceForm.SilentTruncation | pkg/provenance/bank.go:22-44 | if anything can fail or be cancelled, some schedule returns an empty list and a nil error |
| SliceForm.AlwaysCompleteIffReliable | pkg/provenance/attribute.go:126-158 | all items or an error, on every schedule, iff nothing can fail or be cancelled, or there is nothing to list |
| SliceForm.RunsAreBounded | pkg/provenance/bank.go:28-115 | every run of a list of n items changes state at most 4n + 12 times |
| SliceForm.AlwaysFinishes | pkg/provenance/attribute.go:142-232 | no deadlock and no leaked producer: from every reachable state both goroutines can finish without outside help |
| SliceForm.RequestsOfACompleteList | pkg/provenance/bank.go:82-115 | against a server that fills its pages, a complete list costs max(1, ceil(n / limit)) requests |
| SliceForm.Lookahead | pkg/provenance/staking.go:70-111 | items fetched and not yet received never exceed twice the limit: 100 balances, 200 of the others |
| SliceOutcomes.LookaheadIsReached | pkg/provenance/bank.go:73-107 | and that many are reached: one page in the channel and one in hand |
| SliceOutcomes.ProducerStopsBetweenPages | pkg/provenance/bank.go:93-109 | without a cancellation the producer fails only with its page sent, at a page boundary |
| SliceOutcomes.FailsAt | pkg/provenance/bank.go:93-109 | for each cut that can happen there is a run that fails just there, with everything before it received |
| SliceOutcomes.ExactlyThePossibleOutcomes | pkg/provenance/bank.go:22-44 | the results over all schedules are exactly: the whole list; any proper prefix if the context can be cancelled; a prefix ending between two pages if the RPC can fail; a cancellation error, an RPC error, each iff it can happen |
| SliceLoop.CollectSlice | pkg/provenance/bank.go:25-119 | under any scheduler, a turn that changes nothing being followed by one that does, both loops end in a run of the protocol; the result is one of the possible outcomes, a prefix of the list, and the whole of it if nothing can go wrong |
| AttributeLookup.ExistingIsFoundIffReliable | pkg/provenance/attribute.go:91-100 | an existing attribute is never taken for absent, on any schedule, iff its lookup cannot fail |
| AttributeLookup.PossibleLookups | pkg/provenance/attribute.go:91-100 | a lookup can fail iff its RPC can, can find an attribute iff there is one, and can find none iff there is none or the RPC can fail |
| AccountPricing.SumOfPermutation | pkg/provenance/marker.go:77-80 | the order in which prices are added does not change the total |
| AccountPricing.PricedWithout | pkg/provenance/marker.go:123-156 | whichever task runs, it takes exactly its own price out of what is still to come |
| AccountPricing.ScopeOfIsExact | pkg/provenance/marker.go:112-115 | a denom names a scope iff it starts with nft and is a part, one slash and the scope id |
| AccountPricing.PricedCounts | pkg/provenance/marker.go:112-156 | each NFT is priced as often as a balance names its scope and its NAV is in usd or absent |
| AccountPricing.PlainScopes | pkg/provenance/marker.go:112-156 | for balances nft/id with usd NAVs the list is each id with its NAV's price and height, or zero usd |
| AccountPricing.SumOfOne | pkg/provenance/marker.go:75-80 | the total starts at zero and a single price adds itself |
| AccountInvariant.StepKeepsControl | pkg/provenance/marker.go:66-164 | every step keeps the discipline of the WaitGroup, the results channel and the total channel, and does not panic |
| AccountInvariant.StepKeepsStreaming | pkg/provenance/marker.go:92-163 | every step keeps the account of the balance stream and of why the caller stopped reading it |
| AccountInvariant.StepKeepsConserved | pkg/provenance/marker.go:77-156 | every step keeps: prices of the balances read = prices added + price in the channel + prices in flight, as multisets, and the total is the sum of those added |
| AccountInvariant.StepLowersWeight | pkg/provenance/marker.go:66-164 | every step of any goroutine lowers one measure |
| AccountValue.NeverPanics | pkg/provenance/marker.go:66-86 | on every schedule the results channel is closed once and not sent to afterwards, the WaitGroup is never negative, each addition is usd to usd, each channel holds at most one value and no more tasks run than the pool takes |
| AccountValue.ValueIsExact | pkg/provenance/marker.go:72-156 | a returned value lists each NFT as often as a balance read names its scope with a usd NAV or none, its total is the sum of the listed prices, and the balances read are all of them iff no stream error is left unread |
| AccountValue.Confluence | pkg/provenance/marker.go:99-156 | two schedules that read the same balances return the same total and the same NFTs, whatever the order of the tasks; when all schedules read the same is AccountOutcomes.AgreeIffReliable |
| AccountValue.NoValueIsExplained | pkg/provenance/marker.go:94-98 | no value means a cancelled context, a failed RPC, or no error at all with everything already sent |
| AccountValue.NoValueAndNoError | pkg/provenance/marker.go:159-163 | for every account some schedule returns no value and no error |
| AccountValue.RunsAreBounded | pkg/provenance/marker.go:66-164 | every run over n balances has at most 32n + 105 steps |
| AccountValue.AlwaysFinishes | pkg/provenance/marker.go:72-163 | from every reachable state the caller, the producer, the summing goroutine and every task can finish without outside help |
| AccountOutcomes.StepProjects | pkg/provenance/marker.go:93-163 | every step of GetAccountValue is a step of a slice form over the same stream, or leaves its projection unchanged |
| AccountOutcomes.SliceIsFollowed | pkg/provenance/marker.go:93-163 | for every run of a slice form some run of GetAccountValue reads the same balances and answers alike |
| AccountOutcomes.ExactlyTheReadableBalances | pkg/provenance/marker.go:99-109 | the balances behind a value are exactly the lists a slice form can return: all, or a list cut short where something can fail or be cancelled |
| AccountOutcomes.ExactlyTheErrors | pkg/provenance/marker.go:94-98 | the errors returned are exactly those of a slice form: a cancellation if the context can be cancelled, an RPC error if the RPC can fail |
| AccountOutcomes.SilentEmptyValue | pkg/provenance/marker.go:99-109 | whenever something can fail or be cancelled, some schedule reads no balance and returns zero usd, no NFTs and a nil error |
| AccountOutcomes.CoversIffReliable | pkg/provenance/marker.go:99-109 | on every schedule a value lists every priced NFT of the account and their sum, iff nothing can fail or be cancelled or nothing is priced |
| AccountOutcomes.AgreeIffReliable | pkg/provenance/marker.go:99-156 | all schedules that return a value agree on it, iff nothing can fail or be cancelled or nothing is priced |
| AccountLoop.ValueOf | pkg/provenance/marker.go:66-165 | under any scheduler, a turn that cannot move being followed by one that can, all loops end in a run of the protocol; a value lists exactly the NFTs the balances read price, and those balances or the error are among the possible ones |
| AttributeJob.EachInputOnce | pkg/provenance/attribute.go:87-120 | each input is turned down once or accepted once |
| AttributeJob.BatchesNeeded | pkg/provenance/attribute.go:56-57 | batches full but for the last, and none empty, are as few as the messages allow |
| AttributeJob.FeesAddUp | pkg/provenance/attribute.go:58-60 | the additional fees of all batches are 10^10 times the number of messages |
| AttributeJob.EachBatchOnce | pkg/provenance/attribute.go:65-77 | each finished batch is reported once as an error or answered once |
| AttributePipeline.StepKeepsControl | pkg/provenance/attribute.go:35-121 | every step keeps the channel and buffer discipline, does not panic, and lowers the measure |
| AttributePipeline.StepConserves | pkg/provenance/attribute.go:35-121 | every step keeps: messages in batches, buffer and add channel are the accepted inputs so far in order; reports and responses sent or about to be are those due |
| AttributeShipment.ShipsAll | pkg/provenance/attribute.go:56-120 | there is an increasing list of exactly the inputs whose lookup finds nothing; message j of transaction k has the name, account and owner asked for by entry 75k + j of it and its value, {} if empty; each transaction has 75 messages or all that are left, and 10^10 of fee for each |
| AttributeShipment.TellsAll | pkg/provenance/attribute.go:65-100 | there is one report for each failed lookup, each existing attribute, each unsigned and each unsent transaction, in order, one response for each sent one, in order, and nothing else |
| AddAttributes.EverythingIsAccountedFor | pkg/provenance/attribute.go:39-120 | at the end of every run the transactions ship exactly the inputs whose lookup finds nothing, field by field and in order, as AttributeShipment states it; the channels have told all; fees and counts add up |
| AddAttributes.ChannelsAreSafe | pkg/provenance/attribute.go:24-83 | in every reachable state nothing was sent on or closed a closed channel, the add channel has room for what the filter sends, and the buffer is below 75 at the loop head |
| AddAttributes.RunsAreBounded | pkg/provenance/attribute.go:35-121 | every run over n inputs has at most 12n + 27 steps |
| AddAttributes.AlwaysFinishes | pkg/provenance/attribute.go:35-121 | from every reachable state both goroutines can end, with both result channels closed |
| AttributeLoop.AddAll | pkg/provenance/attribute.go:22-124 | under any scheduler and any failures both loops end, everything is shipped field by field, and everything is told |
| Sequencing.PollsAreTen | pkg/provenance/prov.go:360-371 | the result of polling is the code at the least of the first ten polls that finds the transaction, and there is none iff none of the ten does |
| Sequencing.ResultIsExplained | pkg/demoprime/contract/base_client.go:85-113 | for each result, exactly when an attempt returns it, in terms of signer, sequences, failures, response and the first ten polls |
| Sequencing.SuccessMeansCommitted | pkg/demoprime/contract/base_client.go:85-113 | success means that the transaction is in a block under the client's sequence and executed, and that both ends advance by one |
| Sequencing.AttemptRecovers | pkg/provenance/prov.go:282-288 | unless a sequence is lost or a reset fails, a client with a signer agrees with the chain after the attempt |
| Sequencing.RejectionsAreBounded | pkg/provenance/prov.go:282-288 | over any run: sequence rejections <= (1 if initially out of step) + sequences consumed without inclusion and without reset + failed resets |
| Sequencing.BoundIsMet | pkg/provenance/prov.go:282-288 | that bound is reached from every state, for any number of losses and failed resets |
| Sequencing.LedgerIsConsecutive | pkg/demoprime/contract/base_client.go:89-101 | a step towards LockStep that holds of the chain as modelled: over any run the ledger grows by the included transactions, under consecutive sequences |
| Sequencing.LockStep | pkg/demoprime/contract/base_client.go:85-113 | over a run of successes started in step the sequences are s, s+1, s+2, ... (mod 2^64), each request is in the ledger in order, and both ends agree |
| Pipelining.ResetRecoversIffNonePending | pkg/provenance/prov.go:282-288 | a reset brings the client back in line with the chain iff no transaction is pending |
| Pipelining.RejectionsAreBounded | pkg/provenance/attribute.go:56-78 | without waiting between transactions: rejections <= (1 if initially out of line) + lost sequences + failed resets + resets while transactions are pending + drops of pending transactions |
| Pipelining.OneFailureCostsAnyNumber | pkg/provenance/attribute.go:56-78 | while a block is awaited one failed simulation costs any number of rejections, with every query answered and nothing lost |
| Pipelining.BlockThenResetRecovers | pkg/provenance/prov.go:282-288 | once a block has taken in what is pending, the next reset repairs the client |
| Pipelining.WaitingIsAnAttempt | pkg/demoprime/contract/base_client.go:85-113 | a sender that waits for a block after each submission is the one of Sequencing |
| Clients.ProvenanceClient.NextSequence | pkg/provenance/prov.go:59-67 | returns the sequence and adds one, from 2^64 - 1 to 0 |
| Clients.ProvenanceClient.ResetSequence | pkg/provenance/prov.go:69-83 | on success the client holds the chain's sequence; without an address or with a failed query nothing changes |
| Clients.ProvenanceClient.SignTx | pkg/provenance/prov.go:242-335 | signs under the drawn sequence with the simulated fee plus the additional one, iff building, simulation and signing succeed; only a failed simulation resets the sequence |
| Clients.ProvenanceClient.BroadcastTx | pkg/provenance/prov.go:337-349 | the chain advances exactly when it includes the transaction, whether or not the call reports it |
| Clients.ProvenanceClient.WaitOnTx | pkg/provenance/prov.go:352-372 | an error for an empty hash, else the code of the least of ten polls that finds the transaction, and an error iff none does |
| Clients.ProvenanceClient.RegistryBulkUpdate | pkg/provenance/registry.go:11-28 | both ends change as one attempt with the one bulk message, and a response is returned iff signing and broadcast succeed |
| Clients.BaseClient.BroadcastMsgs | pkg/demoprime/contract/base_client.go:85-113 | both ends change as one attempt, and for each result exactly when it is returned: success iff there is a signer, the ends are in step, nothing fails, a hash is answered and the first of ten polls to find the transaction has code 0 |
| Clients.PoolClient.BroadcastAndWait | pkg/demoprime/pool/client.go:133-165 | both ends change exactly as under BroadcastMsgs, and each result is returned exactly under the conditions of BroadcastMsgs, success being split by whether the block can be fetched |
| RegistryLoader.ChunkSizes | examples/registry/loader.go:179-185 | batches are non-empty and at most 15, all but the last have 15, and together they cover the entries |
| RegistryLoader.PrefixIsCommitted | examples/registry/loader.go:180-203 | k applied batches are exactly the first 15k entries, or all |
| RegistryLoader.SubmitBatch | examples/registry/loader.go:186-200 | for each way out of the loop body, exactly when it is taken; a batch that passes is in a block, executed, and both ends are in step |
| RegistryLoader.Load | examples/registry/loader.go:156-203 | at every exit transaction k carries entries 15k to 15k + 14 or all that are left, the first `done` are executed and hold the first 15 * done entries or all, at most one more transaction is in a block and it carries what comes next; a full run has ceil(n / 15); favourable answers lead to a full run |
| Allocator.StepKeepsSafe | pkg/provenance/prov.go:59-83 | every step of every thread keeps mutual exclusion and the order of the values drawn |
| Allocator.EpochsAreConsecutive | pkg/provenance/prov.go:59-83 | for any number of concurrent callers the values returned between two writes by resets run consecutively (mod 2^64) from the value written and are distinct |
| Allocator.LockIsReleased | pkg/provenance/prov.go:59-83 | from every reachable state some path leads to a free mutex, so no caller waits for it for ever |
| Grants.AllGrants | pkg/demoprime/contract/authz_query.go:35-51 | every grant once in order, or the first error; when the server fills pages of 100, the least number of requests, at least one |
| Grants.ValidOfIsExact | pkg/demoprime/contract/authz_query.go:68-73 | the filter keeps each unexpired grant as often as it occurs, and nothing else |
| Grants.ExecutionOfIsEmpty | pkg/demoprime/contract/authz_query.go:90-103 | no entry is collected iff no present, unexpired contract execution grant names the contract |
| Grants.ValidOfKeeps | pkg/demoprime/contract/authz_query.go:28-33 | the kept grants are those at an increasing list of exactly the positions of nil, never expiring and not yet expired grants |
| Grants.ExecutionOfCollects | pkg/demoprime/contract/authz_query.go:90-103 | the entries are those at a lexicographically increasing list of exactly the places (grant, entry) of unexpired execution grants that name the contract |
| Grants.NotFoundIsExact | pkg/demoprime/contract/authz_query.go:17-26 | an error counts as not found iff its text has "authorization not found" somewhere, in whatever case |
| Grants.ContractCommitmentGrants | pkg/demoprime/contract/authz_query.go:54-75 | exactly the unexpired grants in order; a not-found error counts as none, any other is returned |
| Grants.ContractExecutionGrants | pkg/demoprime/contract/authz_query.go:78-105 | exactly the entries for the contract from unexpired execution grants, each once and in order, or the error |
| Grants.HasContractExecutionGrant | pkg/demoprime/contract/authz_query.go:108-114 | true iff some unexpired grant lets the grantee execute the contract; an error iff the listing met one |
| Grants.HasContractCommitmentGrant | pkg/demoprime/contract/authz_query.go:117-123 | true iff some grant is unexpired; false for a not-found error; any other error is an error |
| Events.FlatIndex | pkg/demoprime/pool/events.go:30-46 | log j's event k stands at the number of own events plus those of earlier logs plus k |
| Events.AllEventsStand | pkg/demoprime/pool/events.go:30-46 | index i holds the transaction's own event i, or log j's event k where i counts the own events, those of earlier logs and k; there are no others |
| Events.MapOfIsExact | pkg/demoprime/pool/events.go:14-28 | the map of an event has exactly its keys, each with the value of the last attribute that carries it |
| Events.EventAttrs | pkg/demoprime/pool/events.go:14-28 | the map of an event, a repeated key keeping its last value |
| Events.FlatEventAttrs | pkg/demoprime/pool/events.go:32-46 | map i is that of own event i, map (own events + earlier logs + k) that of log j's event k, and there are no others |
| Events.FirstAction | pkg/demoprime/pool/events.go:48-56 | the least position whose map has the action, none iff there is none |
| Events.FindWasmActionEvent | pkg/demoprime/pool/events.go:48-56 | the least index whose event gives "action" the value asked for, with that event's map; an error iff no event does |
| Events.FirstValue | pkg/demoprime/contract/txattrs.go:30-37 | a value is found iff the event carries the key |
| Events.EventFind | pkg/demoprime/contract/txattrs.go:30-37 | the linear search finds that value |
| Events.TxResponseFirstAttribute | pkg/demoprime/contract/txattrs.go:9-28 | the value of the first attribute with the key in the event of least index that has it; not found iff no event has it |
| Events.ScanSucceeds | pkg/demoprime/contract/txattrs.go:9-28 | the scan succeeds iff some flattened map has the key |
| Events.ScanAndMaps | pkg/demoprime/contract/txattrs.go:9-37 | the scan picks from the first event whose map has the key, and agrees with that map unless the key is repeated there |
| Events.CarrierExists | pkg/demoprime/contract/txattrs.go:9-37 | when the scan succeeds there is a first event with the key, and in it a first and a last attribute with it |
| Events.FirstAndLastValues | pkg/demoprime/pool/events.go:14-28 | in one event the scan gives the first value of a key and the map the last |
| Events.AgreeIffFirstIsLast | pkg/demoprime/contract/txattrs.go:9-37 | the two searches agree on a transaction iff its first event with the key gives it the same value first and last |
| Events.RepeatedKeyCanDiffer | pkg/demoprime/pool/events.go:14-46 | a transaction that repeats a key with different first and last values, on which the searches differ |
| Events.SameWhenOnce | pkg/demoprime/contract/txattrs.go:30-37 | first and last value of a key agree when it occurs once |
| ReceiveOutcome.TrimIsUnique | pkg/demoprime/pool/events.go:63 | trimming leaves the one string that is the hash without the white space around it |
| ReceiveOutcome.SameUpper | pkg/demoprime/pool/events.go:65-66 | upper-casing both sides compares them up to the case of ASCII letters |
| ReceiveOutcome.TxIndexInBlock | pkg/demoprime/pool/events.go:58-71 | the first transaction whose digest has the length of the trimmed hash and agrees with it at each position up to case; none iff there is none |
| ReceiveOutcome.LocateSucceeds | pkg/demoprime/pool/responses.go:72-93 | metadata is found iff the block has a header and holds the transaction and the action occurs |
| ReceiveOutcome.OutcomeKind | pkg/demoprime/pool/responses.go:545-562 | the kind is the first of withdraw, withdraw_exact, transfer, transfer_exact that occurs anywhere, and there is none iff none occurs or the block does not hold the transaction |
| ReceiveOutcome.OutcomePlace | pkg/demoprime/pool/responses.go:453-525 | the outcome gives the least index of an event with its action, the first transaction with its hash, the block's height and time, and the values that event gives for each attribute |
| Utf8.RoundTrip | pkg/demoprime/pool/cw20_withdraw.go:22-24 | the bytes of a text decode to it |
| Base64.SymbolsAreTheTable | pkg/demoprime/pool/cw20_withdraw.go:32 | section 4 of RFC 4648: A to Z, a to z, 0 to 9, + and / by their character codes |
| Base64.EncodingWrites | pkg/demoprime/pool/cw20_withdraw.go:32 | section 4 of RFC 4648: the first four characters write the 24 bits of the first three bytes, padded where bytes are missing, and the rest is the encoding of the others |
| Base64.RoundTrip | pkg/demoprime/pool/cw20_withdraw.go:32 | section 4 of RFC 4648: decoding undoes encoding, for every byte string |
| JsonText.RoundTrip | pkg/demoprime/pool/cw20_withdraw.go:28-35 | section 7 of RFC 8259 and its neighbours: parsing undoes printing, for every object of strings, booleans and objects over every string |
| Cw20Text.ObjectIsJoined | pkg/demoprime/pool/cw20_withdraw.go:22-35 | section 4 of RFC 8259: an object is its members, each a quoted key, a colon and a value, with commas between them and braces around |
| Cw20Text.EscapedCharacters | pkg/demoprime/pool/cw20_withdraw.go:22-35 | section 7 of RFC 8259: the escapes by name, and the characters unsafe in HTML by number |
| Cw20Payload.DecimalRoundTrip | pkg/demoprime/pool/messages.go:169 | the text of an amount reads back as it, that of a nil amount as none |
| Cw20Payload.PackRoundTrip | pkg/demoprime/pool/messages.go:161-171 | Base64 of JSON unpacks to the same object |
| Cw20Payload.SendRoundTrip | pkg/demoprime/pool/cw20_withdraw.go:14-36 | a message is built iff the contract is named and the amount positive, and then both levels carry that contract and amount |
| Cw20Text.SendObject | pkg/demoprime/pool/cw20_withdraw.go:21-35 | the bytes built are those of {"send":{"amount","contract","msg"}} with msg the Base64 of {"withdraw":{"amount"}}, member by member |
| Cw20Payload.MessageRoundTrip | pkg/demoprime/pool/messages.go:129-152 | every combination of payloads survives, absent and false commit_funds kept apart |
| Cw20Payload.ReceiveRoundTrip | pkg/demoprime/pool/messages.go:162-226 | sender, amount and inner message survive the whole receive call |
| Cw20Text.ReceiveObject | pkg/demoprime/pool/messages.go:155-226 | the bytes of the receive call are those of {"receive":{"sender","amount","msg"}} with msg the Base64 of the message |
| Cw20Text.MessageHas | pkg/demoprime/pool/messages.go:129-134 | the message holds each payload that is present under its own key, in order, and nothing else |
| Cw20Text.PayloadsHave | pkg/demoprime/pool/messages.go:136-152 | the members of each payload, commit_funds being left out when absent |

## Left out

- gRPC, TLS, key derivation, signatures, protobuf and codec registration: each call is an abstract answer.
- AccountValue.NeverPanics: runs in which a pool task itself panics (a NAV query that fails, an id that is no scope) or in which `Submit` fails are left out, and so is the sharing of the pool with other callers; what the pool library does then is not part of this model.
- AccountValue.ValueIsExact: the NAV of a scope is fixed during a run, the UUID of an NFT is not modelled, and amounts have no width, so an overflow panic of the coin arithmetic is not captured.
- SliceForm.AlwaysFinishes: finishing is proved as an enabled path from every state together with a bound on the number of changes; a `select` that re-reads the closed error channel for ever is excluded by fairness, which is not modelled.
- SliceForm.RequestsOfACompleteList: a response without pagination, which the streams would dereference, is excluded by the model of the server.
- AddAttributes.AlwaysFinishes: a caller that serves only one of the two result channels is not modelled; the reader takes every value when it is sent.
- AddAttributes.EverythingIsAccountedFor: the results of the lookups are given (`AttributeLookup` connects them to the stream), and signing and broadcasting a batch are outcomes; the sequence numbers of its batches, which are sent without waiting, are the subject of `Pipelining` and not joined to this protocol.
- Sequencing.RejectionsAreBounded: one serial sender whose transaction is included or dropped before the next attempt (`Pipelining` drops that condition); the code a synchronous broadcast returns is not read by the source either.
- Clients.ProvenanceClient.SignTx: the fee is an unbounded integer, and which of the failing steps before or after the simulation failed is not told apart.
- Clients.ProvenanceClient.WaitOnTx: the pauses between polls.
- ReceiveOutcome.TxIndexInBlock: upper-casing touches ASCII letters only, which is all that can make a hexadecimal digit.
- Grants.ContractCommitmentGrants: lower-casing an error text is modelled as far as it can produce ASCII letters.
- JsonText.RoundTrip: numbers, arrays and null, and bytes that are not UTF-8, are not part of the fragment.
- Cw20Payload.ReceiveRoundTrip: the reader is the plain one for these types; a field of a wrong type reads as absent where a strict decoder reports an error, and Base64 text with line breaks is refused.
- The renderer, printing, command lines, file reading, configuration getters, lazily created query clients and single-call queries.
- The remaining parsers and execute builders, which copy fields.
