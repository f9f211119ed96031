# Mixin Safe: a verified model

Mixin Safe keeps Bitcoin, Litecoin, Ethereum and Polygon accounts that are held by a holder, a group of signers and an
observer. A group of keepers replays one ordered stream of outputs into a ledger; a group of signers runs a
multi-round message protocol to sign; observers watch the chains. This project models the parts of it that carry the
invariants, in Dafny, and proves them for every input, every run and every reachable state.

`dafny verify dfyconfig.toml` checks everything.

## How it is organised

Every component has a specification on values (functions from a state to a state, `None` where the program panics) and,
where the program updates things in place, classes and methods with the program's loops that are proved to do what the
specification says. The theorems are about the specifications, so they hold of the methods.

- **Base91** (`Options`, `Bits`, `Base91`, `Base91Codec`): options and bytes for all
  modules, a bit-string specification, the encoder and decoder loops over buffers.
- **Round handler** (`HandlerSpec`, `HandlerOrder`, `HandlerKinds`, `HandlerAgreement`, `HandlerLog`,
  `HandlerOutcome`, `Handler`): the message handler of the signing protocol, its delivery-order theorem, broadcast
  agreement, the order in which it stores messages and finalizes rounds, and why it stands where it stands, with what
  result and having sent what; class `MultiHandler`.
- **Keeper, Bitcoin and Litecoin** (`KeeperTypes`, `KeeperLedger`, `KeeperBitcoin`, `KeeperCoupling`, `KeeperInvariant`,
  `KeeperRuns`, `KeeperHistory`, `KeeperNode`, `KeeperSafety`, `Sums`, `KeeperSolvency`, `KeeperSolvent`, `KeeperReplay`,
  `KeeperProgress`, `KeeperExactly`, `KeeperStore`, `Keeper`): tables, store transactions, handlers, runs with crashes
  after any commit, the invariants over all runs, what each request that is in order does and that no other does
  anything; classes `Store` and `Keeper`.
- **Keeper, Ethereum and Polygon** (`EthereumLedger`, `KeeperEthereum`, `EthereumInvariant`, `EthereumRuns`,
  `EthereumSafety`, `EthereumReplay`, `EthereumClosing`, `EthereumProgress`, `EthereumExactly`, `EthereumStore`,
  `EthereumKeeper`): the same for balances and nonces, and what closing a safe pays.
- **Keys** (`KeeperKeys`, `KeeperProposals`): spare keys, the pair a holder is given, and proposing an account.
- **Signer sessions** (`SignerSessions`, `SignerAnswers`, `SignerNode`, `SignerRuns`, `SignerStore`): what the group
  agrees on, the same told from the outputs alone and what exactly it answers, one node that works on an output one
  store call at a time, its runs with steps of its own, crashes, panics and retries between any two of them, and the
  class `Signer`.
- **Witness script** (`Script`, `WitnessScript`, `WitnessBuilder`): a stack machine for the account script, its meaning,
  and the witnesses that are built for it. Relative locks follow the Summary section of BIP 112 and the Specification
  section of BIP 68, witness stacks the Specification section of BIP 141.
- **Codecs** (`BigEndian`, `MultiSend`, `SafeTransaction`, `SafeExecution`, `DepositExtra`, `CallTrace`): multi-send
  data, stored Ethereum transactions and what they do when executed, deposit notices, and numbering native transfers in
  a call tree.

## Modelling decisions

- A Go panic, a failed `execOne` or a failed `execMultiple` is "no transition" (`None`, `Stop`, or `ok == false`). What
  was committed before it stays.
- Answers from outside (RPC results, signature checks on messages from a holder, whether the group can pay for a
  transaction it wants to send, prices, JSON that parses) are fields of the request. Hashes, signature verification,
  derivation of keys and account addresses are abstract functions; a hash is injective only where a lemma says so.
- A signer action is one store call, a step of the node's own loops, the start of an output or a crash. An output that
  was stopped by a crash or a panic is taken again before any other.
- A keeper event is one attempt at an output, cut off after any commit. An interrupted output is taken up again before
  any other, possibly with other answers.
- Bitcoin and Ethereum safes share requests and results in the program; here each model has tables of its own.
- The theorems on single requests are about one that has not been seen: neither it nor anything derived from it is in the
  tables. What happens to one that was interrupted is told by the replay theorems.
- Request ids that the program derives by hashing are a datatype constructor, so they never collide.
- In the solvency theorem the chain is given by the mined transactions. It is assumed that nothing is spent twice and that
  an output recorded for the safe is spent on chain only by a transaction whose first input and outputs are those of the
  recorded transaction; further inputs for fees are allowed.
- `keyOf` in the Ethereum model is the signer key of a holder. That it never changes is proved in `KeeperKeys`.
- A round's kind (broadcast or not, direct messages expected or not) is a function of its number, Output and Abort are
  rounds numbered 0, and `out` is a sequence. The mutex makes each call one step.
- Addresses on Ethereum are their 20 bytes; the program keeps the checksummed spelling.
- The decimal text of an amount is not modelled; amounts are integers in the smallest unit.

## Where the code does something to note

- `common/base91.go` says that its alphabet leaves out the hyphen. The alphabet in the code has the hyphen and leaves
  out the double quote. The model follows the code.
- A message of a kind its round does not wait for makes delivery order matter. `HandlerKinds.KindMatters` gives the two
  messages; `HandlerOrder.DeliveryOrder` asks for messages of the kind their round waits for and nothing else.
- Three valid signatures on an input are rejected by the account script: exactly two must count
  (`WitnessBuilder.SignedIsAccepted` is an if-and-only-if, `WitnessBuilder.ThreeRejected` gives the input).
- A node's own report on a prepared session that is still in its initial state moves it to pending first, and the later
  update that expects the initial state then fails, so that the node panics. `SignerNode.OwnReport` gives the outputs,
  `SignerNode.ReportStops` the exact condition under which a finished session does not stop the node, and
  `SignerNode.RestartGoesOn` shows that taking the report again goes on if the signature verifies.
- `checkSignatureAppended` takes some bare messages for messages with a signature. `SignerNode.MistakenExactly` says
  which, and `SignerNode.MistakenMessage` gives one of 64 bytes.
- Closing an Ethereum safe compares the outputs with the balances one by one and counts them. Two outputs in one token
  pass against two balances (`EthereumClosing.SameTokenTwice`); `EthereumClosing.CloseExact` says when a close that
  passes pays exactly the balances.
- For a delegate call whose multi-send data does not parse, `ExtractOutputs` goes on to read a single transfer. The model
  follows it.
- A sign session whose first row is empty: Go may give `nil` or an empty slice for it, and the two are counted
  differently. With at most one row more than the threshold they lead to the same verdict, which is the one proved.
- `VerifyDeposit` passes hash and chain id to `LoopCalls` in the other order, so that they come back exchanged
  (`CallTrace.VerifyDeposit`).
- Approving an Ethereum transaction replaces the stored raw transaction by the one the holder signed, without comparing
  it to the proposal. Balances are therefore counted with what was signed.

## Model

| member | source | states |
|---|---|---|
| Base91Spec.RoundTrip | common/base91.go:62-162 | decoding the encoding of any byte string gives it back, whatever the length of the ragged tail |
| Base91Spec.EncodedBound | common/base91.go:103-114 | every two characters carry at least 13 bits, so an encoding is never longer than `EncodedLen` |
| Base91Spec.DecodedBound | common/base91.go:166-170 | no text decodes to more bytes than `DecodedLen` |
| Base91Spec.DecodeAppend | common/base91.go:119-162 | decoding may be cut after any pair, given the bits that still wait |
| Base91Spec.PairBound | common/base91.go:66-86 | a chunk of 13 or 14 bits always fits two base 91 digits, and its width can be told from its value |
| Base91Spec.EncodeArithmetic | common/base91.go:62-99 | the digits are those of the number the bytes are, first byte and first digit least significant, 13 bits at a time or 14 where the 13 spell at most 88 |
| Base91Codec.Encoding.constructor | common/base91.go:38-50 | alphabet and decode table are inverse to each other |
| Base91Codec.Encoding.Encode | common/base91.go:62-99 | the loop writes the specified digits, never past `EncodedLen`, and leaves the rest of the buffer alone |
| Base91Codec.Encoding.Decode | common/base91.go:119-162 | the loop writes what the text spells and never past `DecodedLen`; it stops at the first foreign character, with the pairs before it written |
| Base91Codec.Base91Encode | common/base91.go:21-25 | the text spells the bits of the input and is no longer than `EncodedLen` |
| Base91Codec.Base91Decode | common/base91.go:27-34 | succeeds exactly on texts in the alphabet, and then with the decoded bytes |
| Base91Codec.StoreAndLoad | common/base91.go:21-34 | bytes stored as text and read back are the same bytes |
| HandlerOrder.DeliveryOrder | signer/protocol/handler.go:124-317 | any two orders of the same well-formed messages end in the same rounds, stored messages, queues, hashes, sent messages, and the same result or abort |
| HandlerOrder.DeliverIsReplay | signer/protocol/handler.go:124-317 | taking messages one at a time ends where having had all of them queued from the start would have ended |
| HandlerOrder.ArriveBroadcast | signer/protocol/handler.go:160-189 | storing a broadcast that arrives now equals having drained it from the queue |
| HandlerOrder.ArriveDirect | signer/protocol/handler.go:192-222 | the same for a direct message, which in a broadcast round waits for its sender's broadcast |
| HandlerKinds.KindMatters | signer/protocol/handler.go:160-222 | two messages for which order matters, one of them of a kind its round does not wait for |
| HandlerAgreement.DeliverInv | signer/protocol/handler.go:224-391 | in every state that any messages can lead to, rounds were entered one after the other, recorded hashes are those of the queued broadcasts, everything sent carries them, and a round that was left was complete and echoed |
| HandlerAgreement.AcceptKept | signer/protocol/handler.go:393-421 | no queue slot is ever overwritten, and only the message and our own broadcasts are added |
| HandlerAgreement.BroadcastAgreement | signer/protocol/handler.go:350-377 | a party past the round after a broadcast round and every party whose messages reached it unforged hold the same broadcast from every party, for an injective hash |
| HandlerLog.ReceivedStored | signer/protocol/handler.go:350-391 | a round that counts as complete has every awaited broadcast and direct message stored |
| HandlerLog.MidwayBroadcast | signer/protocol/handler.go:289-313 | handling a queued broadcast stores it and then its sender's waiting direct message, each once, or aborts |
| HandlerOutcome.DeliverReason | signer/protocol/handler.go:224-317 | after any messages each round's state is what the protocol's finalizing of the round before gave, what a round holds was sent and approved, and the last round tells why the handler has its result, its error, or waits: for a missing message or because the round returned itself |
| HandlerOutcome.ResultExactly | signer/protocol/handler.go:224-287 | a handler without an error has a result if and only if its last round has all messages and the protocol puts that result out for it |
| HandlerOutcome.SentExactly | signer/protocol/handler.go:246-265 | exactly the contents the rounds handed over were sent, in order, with their receiver, data and kind and the session's header |
| HandlerOutcome.DeliverForUs | signer/protocol/handler.go:81-118 | nothing is held from another party but its messages of this session for us, each in the slot of its round and kind |
| HandlerOutcome.TakenIsKept | signer/protocol/handler.go:124-158 | a message that is taken is held in its slot from then on |
| ProtocolHandler.MultiHandler.constructor | signer/protocol/handler.go:44-56 | a new handler has finalized its first round as specified, and its log is in order |
| ProtocolHandler.MultiHandler.NewQueue | signer/protocol/handler.go:474-484 | an empty slot table for every round from 2 on |
| ProtocolHandler.MultiHandler.StoreMessage | signer/protocol/handler.go:410-421 | puts a message into its own slot and nothing else |
| ProtocolHandler.MultiHandler.IsDuplicate | signer/protocol/handler.go:393-408 | tells exactly the messages whose slot is taken or whose round has no table |
| ProtocolHandler.MultiHandler.VerifyBroadcastMessage | signer/protocol/handler.go:160-189 | stores a broadcast and the direct message that waited for it, with their events logged in that order |
| ProtocolHandler.MultiHandler.VerifyMessage | signer/protocol/handler.go:192-222 | stores a direct message, unless it must wait for a broadcast |
| ProtocolHandler.MultiHandler.ReceivedAll | signer/protocol/handler.go:350-391 | tells whether all awaited messages are there, and records the hash of a complete broadcast round |
| ProtocolHandler.MultiHandler.CheckBroadcastHash | signer/protocol/handler.go:453-472 | tells whether every message of the round echoes the recorded hash |
| ProtocolHandler.MultiHandler.HandleQueued | signer/protocol/handler.go:289-313 | handles what was queued for a new round, in any order of senders, as the specification drains it |
| ProtocolHandler.MultiHandler.Finalize | signer/protocol/handler.go:224-317 | does what the specification does, whose result and messages `HandlerOutcome` tells from the protocol alone; terminates, keeps the log in order: nothing stored twice, rounds ascending, broadcast before direct message, a round finalized only with all its messages stored |
| ProtocolHandler.MultiHandler.Accepts | signer/protocol/handler.go:81-118 | decides as `CanAccept` does |
| ProtocolHandler.MultiHandler.Accept | signer/protocol/handler.go:124-158 | one call does what the specification of `Accept` does; the log only grows and stays in order |
| KeeperCoupling.SpendExact | keeper/store/transaction.go:203-226 | the loop over inputs changes exactly those outputs, and fails exactly if one is missing |
| KeeperCoupling.ReleaseExact | keeper/store/transaction.go:228-277 | the loop gives back exactly the inputs, and fails exactly if one is not held by the transaction |
| KeeperCoupling.UnspentExact | keeper/store/bitcoin.go:62-80 | the list holds exactly the unspent outputs of the address |
| KeeperCoupling.Coupled | keeper/store/signature.go:167-179 | outputs held by an unfinished transaction are exactly its inputs, all pending; finishing finds the right number of rows and revoking finds every input |
| KeeperCoupling.UnspentHasNoSpender | keeper/store/bitcoin.go:62-80 | an output in its initial state has no spender |
| KeeperRuns.ProposeInv | keeper/bitcoin.go:457-650 | proposing keeps outputs, transactions and signatures coupled |
| KeeperRuns.ApproveInv | keeper/bitcoin.go:652-747 | so does asking for signatures |
| KeeperRuns.RespondInv | keeper/bitcoin.go:749-831 | so does every commit of a signature response |
| KeeperRuns.HandleRevokeInv | keeper/group.go:304-366 | so does revoking |
| KeeperRuns.DepositInv | keeper/deposit.go:128-207 | so does a deposit |
| KeeperRuns.CloseWithHolderInv | keeper/bitcoin.go:215-263 | so does closing with the holder key |
| KeeperRuns.CloseWithoutHolderInv | keeper/bitcoin.go:40-213 | so does closing with a recovery transaction |
| KeeperInvariant.ScanSigned | keeper/bitcoin.go:781-807 | a scan that passes has seen, for every input, a stored answer that verifies on the hash of that input |
| KeeperHistory.HandleMoves | keeper/group.go:165-214 | every commit moves transactions, outputs, safes, requests and signature requests only along their allowed edges, and a handling that returns has settled its request |
| KeeperNode.RunOk | keeper/group.go:26-79 | the coupling holds, and only an interrupted request is open, in every state a run can reach |
| KeeperSafety.FinalForever | keeper/store/signature.go:151-207 | a done transaction stays done and a failed one never becomes done |
| KeeperSafety.DoneOnce | keeper/store/signature.go:151-207 | a transaction becomes done in at most one step of a run |
| KeeperSafety.DoneIsSigned | keeper/bitcoin.go:749-831 | a proposed transaction that is done has a stored signature for every input that verifies on the input's own hash |
| KeeperSafety.CoupledAlways | keeper/store/transaction.go:181-277 | the coupling of every unfinished transaction in every reachable state, and that finishing and revoking succeed on it |
| KeeperSafety.UnspentAlways | keeper/store/bitcoin.go:62-80 | in every reachable state an unspent output has no spender |
| KeeperSafety.SpacedAlways | keeper/bitcoin.go:863-875 | two signature requests for one input are at least the timeout apart, in every reachable state |
| KeeperSafety.NoneAfterAnswer | keeper/bitcoin.go:863-875 | no request for an input is made after one was answered |
| KeeperSolvency.ProposeCover | keeper/bitcoin.go:594-645 | a proposal takes exactly its amount off what covers the bonds |
| KeeperSolvency.RevokeCover | keeper/group.go:304-366 | revoking puts at least the amount back |
| KeeperSolvency.SignCover | keeper/store/signature.go:151-207 | asking for signatures and finishing never lower what covers the bonds |
| KeeperSolvency.DepositCover | keeper/deposit.go:128-207 | a deposit raises the cover by its amount, change by nothing |
| KeeperSolvency.ChangeArrives | keeper/deposit.go:254-269 | what the keeper takes for change is the change output of the recorded transaction |
| KeeperSolvent.RunSound | keeper/group.go:26-79 | every run keeps the bonds of an open safe covered |
| KeeperSolvent.Solvency | keeper/deposit.go:128-207 | bonds in circulation never exceed unspent outputs plus unfinished surplus plus undeposited change by more than the dust limit per finished transaction, in every reachable state of an open safe |
| KeeperReplay.CrashReplay | keeper/group.go:26-79 | stopping after any commit and handling the output again gives the ledger and the reply of an uninterrupted handling |
| KeeperReplay.MidpointReplay | keeper/store/signature.go:128-149 | a response handled again finds its recorded answer and goes on as before |
| KeeperProgress.AccountOpens | keeper/bitcoin.go:373-455 | an account in order is open with nonce 0, and storage and notice are sent |
| KeeperProgress.DepositPays | keeper/deposit.go:128-207 | whenever a deposit adds an output, bonds for exactly its value go to the depositing holder and to nobody else, and none at all exactly if it is past the recipients of the recorded spender of the first input |
| KeeperProgress.DepositTaken | keeper/deposit.go:66-207 | a deposit in order is recorded unspent with its value, and the reply is those bonds |
| KeeperProgress.ProposalTaken | keeper/bitcoin.go:457-650 | a proposal in order spends every unspent output of the safe, pays the recipients, returns what is left above dust, and holds all its inputs |
| KeeperProgress.ApprovalTaken | keeper/bitcoin.go:652-747 | an approval in order adds and sends requests for exactly the inputs the holder signed that have no answer and no request in time, and the transaction waits |
| KeeperProgress.RespondExactly | keeper/bitcoin.go:749-831 | a good response is recorded, and the transaction with all its inputs and requests is done, with the nonce one higher and storage and notice sent, if and only if every input then has a latest answer to its own hash that verifies and the group can send |
| KeeperProgress.RespondAlways | keeper/bitcoin.go:749-831 | the same in every reachable state |
| KeeperProgress.RevokeTaken | keeper/group.go:304-366 | a revoke in order frees every input and pays exactly what the revoked transaction would have paid, to its holder alone |
| KeeperProgress.CloseTaken | keeper/bitcoin.go:215-263 | a close in order closes the safe, and everything unspent is spent by the recovery transaction |
| KeeperProgress.RecoveryTaken | keeper/bitcoin.go:40-213 | a recovery in order closes the safe and asks for exactly the inputs that need it |
| KeeperExactly.AccountRefused | keeper/bitcoin.go:373-455 | an account that is not in order changes nothing but its request and sends nothing |
| KeeperExactly.DepositRefused | keeper/deposit.go:66-207 | the same for a deposit |
| KeeperExactly.ProposalRefunded | keeper/common.go:43-54 | a proposal that cannot be priced, funded or sent is refunded in full, or asks for compaction, and changes nothing |
| KeeperExactly.ProposalRefused | keeper/bitcoin.go:457-650 | any other proposal that is not in order changes and sends nothing |
| KeeperExactly.ApprovalRefused | keeper/bitcoin.go:652-747 | so does an approval that is not in order |
| KeeperExactly.ResponseRefused | keeper/group.go:271-302 | so does a response that is not good |
| KeeperExactly.RevokeRefused | keeper/group.go:304-366 | so does a revoke that is not in order |
| KeeperExactly.CloseRefused | keeper/bitcoin.go:215-263 | a close that is not in order changes nothing but its request |
| KeeperExactly.RecoveryRefused | keeper/bitcoin.go:40-213 | a recovery that is not in order changes and sends nothing |
| KeeperStore.Store.WriteSafeWithRequest | keeper/store/safe.go:185-213 | a new safe, if holder, address and keys are unused |
| KeeperStore.Store.WriteBitcoinOutput | keeper/store/bitcoin.go:16-50 | a new unspent output and its deposit, once |
| KeeperStore.Store.ListAllBitcoinUTXOs | keeper/store/bitcoin.go:62-80 | the loop lists exactly the unspent outputs of the address in recorded order |
| KeeperStore.Store.SpendOutputs | keeper/store/transaction.go:203-226 | the loop hands every input to the transaction, or fails |
| KeeperStore.Store.WriteTransactionWithRequest | keeper/store/transaction.go:181-226 | a new transaction with its inputs pending and its request done, or no change at all |
| KeeperStore.Store.CloseAccountByTransaction | keeper/store/transaction.go:140-179 | the safe is closed and the transaction done in one step; a known transaction only settles the request |
| KeeperStore.Store.ReleaseOutputs | keeper/store/transaction.go:228-277 | the loop gives every input back, or fails |
| KeeperStore.Store.RevokeTransactionWithRequest | keeper/store/transaction.go:228-277 | an initial transaction fails and its inputs are free again, or no change |
| KeeperStore.Store.InsertSignatureRequests | keeper/store/signature.go:95-126 | the loop adds exactly the requests, or fails on a known one |
| KeeperStore.Store.WriteSignatureRequests | keeper/store/signature.go:65-126 | the requests are there and the transaction pending, or no change |
| KeeperStore.Store.CloseAccountBySignatureRequests | keeper/store/signature.go:29-63 | the same together with closing the safe; on failure the safe is open again |
| KeeperStore.Store.FinishSignatureRequest | keeper/store/signature.go:128-149 | an answer is recorded once; a repeated call changes nothing |
| KeeperStore.Store.FinishTransactionSignatures | keeper/store/signature.go:151-207 | transaction, signatures and outputs become done together, if the number of outputs is right |
| KeeperStore.Store.ReadPendingSignatureRequest | keeper/store/signature.go:209-218 | the row that comes first by state and then by time |
| KeeperStore.Store.CheckTransactionIndexSignaturePending | keeper/bitcoin.go:863-875 | looking at that one row decides whether any request was answered or is still within the timeout |
| KeeperStore.Store.ListAllSignatures | keeper/store/signature.go:231-256 | for each input the latest answer, and one for every input that has any |
| Keeper.Keeper.ApproveAccount | keeper/bitcoin.go:373-455 | ends as specified, with its commits and its reply |
| Keeper.Keeper.CreateHolderDeposit | keeper/deposit.go:66-207 | does what the specified handler does, whose effect and bonds `KeeperProgress.DepositTaken` and `DepositPays` state |
| Keeper.Keeper.ProposeTransaction | keeper/bitcoin.go:457-650 | ends as specified, with sums and outputs built in loops |
| Keeper.Keeper.NewRequests | keeper/bitcoin.go:698-735 | the loop makes a request for exactly the inputs that need one |
| Keeper.Keeper.ApproveTransaction | keeper/bitcoin.go:652-747 | ends as specified |
| Keeper.Keeper.ScanInputs | keeper/bitcoin.go:781-807 | the loop finds the first input without a signature or with a wrong one |
| Keeper.Keeper.SignatureResponse | keeper/group.go:271-302 | does what the specified handler does, the answer committed on its own; `KeeperProgress.RespondExactly` says when the transaction is then done |
| Keeper.Keeper.RevokeTransaction | keeper/group.go:304-366 | ends as specified |
| Keeper.Keeper.CloseAccountWithHolder | keeper/bitcoin.go:215-263 | ends as specified |
| Keeper.Keeper.CloseAccountWithoutHolder | keeper/bitcoin.go:40-213 | ends as specified |
| Keeper.Keeper.ProcessAction | keeper/group.go:26-79 | handles one output as specified and keeps the coupling and the spacing of signature requests |
| Keeper.OneLatest | keeper/store/signature.go:231-256 | there is never more than one latest answer for an input |
| EthereumInvariant.DebitExact | keeper/ethereum.go:1004-1034 | a loop that goes through has taken exactly the payments off the balances, and left those of others alone |
| EthereumInvariant.DebitSucceeds | keeper/ethereum.go:1004-1034 | the loop goes through if and only if the balance of every token paid in covers all its payments together |
| EthereumInvariant.CreditExact | keeper/ethereum.go:868-906 | the loop puts exactly the payments back |
| EthereumSafety.BalanceExact | keeper/store/ethereum.go:24-93 | in every reachable state a balance is deposits minus payments of done transactions, not counting a close with the holder key, which is not taken off; and it is not negative |
| EthereumSafety.NonceExact | keeper/store/signature.go:180-193 | the nonce is the number of done transactions, not counting a close with the holder key |
| EthereumSafety.OneAtATime | keeper/ethereum.go:518-522 | at most one transaction of a holder is unfinished |
| EthereumSafety.OneEachAlways | keeper/store/transaction.go:181-226 | in every reachable state a request has written at most one transaction |
| EthereumSafety.FailedForever | keeper/store/transaction.go:279-320 | a failed transaction stays failed |
| EthereumSafety.DoneOnce | keeper/ethereum.go:909-1040 | a transaction becomes done at most once, refunds included |
| EthereumReplay.CrashReplay | keeper/ethereum.go:454-500 | stopping after any commit and handling the output again gives the same books and reply |
| EthereumReplay.UnfinishedAgain | keeper/store/safe.go:160-183 | the unfinished safe, once written, is found again and nothing else changes |
| EthereumReplay.RespondReplay | keeper/ethereum.go:909-1040 | a response cut off after its answer goes on as before |
| EthereumClosing.CloseExact | keeper/ethereum.go:88-110 | a close that passes the comparison pays exactly the balances if and only if every token with a balance is paid in once |
| EthereumClosing.CloseEmpties | keeper/ethereum.go:88-110 | such a close can be taken off the balances and leaves none |
| EthereumClosing.SameTokenTwice | keeper/ethereum.go:93-110 | two outputs in one token pass against balances in two tokens, and one of them is not paid |
| EthereumProgress.AccountProposed | keeper/ethereum.go:257-382 | a proposal of an account in order is recorded with the transaction that sets the safe up |
| EthereumProgress.AccountApproved | keeper/ethereum.go:384-500 | approving makes the safe, not open yet, and asks for the signature of its setup if that can be asked for |
| EthereumProgress.DepositTaken | keeper/deposit.go:209-252 | a deposit in order adds exactly its amount to the balance and issues exactly that in bonds |
| EthereumProgress.ProposalTaken | keeper/ethereum.go:502-753 | a proposal in order is recorded as made |
| EthereumProgress.ProposalGivenBack | keeper/ethereum.go:502-753 | one that cannot be priced or sent is given back in full |
| EthereumProgress.ApprovalTaken | keeper/ethereum.go:755-827 | an approval in order asks for the signature of what the holder signed, which takes the place of what was proposed |
| EthereumProgress.RevokeTaken | keeper/group.go:304-366 | a revoke in order fails the transaction and pays back the amount of its request |
| EthereumProgress.RefundTaken | keeper/ethereum.go:829-907 | a refund in order fails the transaction, adds exactly its payments to the balances, sets the nonce back and pays the bonds |
| EthereumProgress.RespondExactly | keeper/ethereum.go:909-1040 | a good response is recorded, and the transaction is done, its payments off the balances and the nonce one higher, if and only if the latest answer verifies, the account can pay and the group can send |
| EthereumProgress.ClosePaysExactly | keeper/ethereum.go:88-110 | the comparison of a closing transaction passes exactly if it has as many payments as the holder has balances, to one destination, each of the balance of its token |
| EthereumProgress.CloseTaken | keeper/ethereum.go:185-255 | a close in order closes the safe and records the transaction as done |
| EthereumProgress.RecoveryTaken | keeper/ethereum.go:23-183 | a recovery in order closes the safe and asks for its signature |
| EthereumExactly.AccountGivenBack | keeper/ethereum.go:257-382 | a proposal of an account that cannot be priced, given keys or sent is given back in full |
| EthereumExactly.AccountRefused | keeper/ethereum.go:257-382 | any other that is not in order changes nothing but its request and sends nothing |
| EthereumExactly.ApproveAccountRefused | keeper/ethereum.go:384-500 | the same for approving an account |
| EthereumExactly.DepositRefused | keeper/deposit.go:209-252 | the same for a deposit |
| EthereumExactly.ProposalRefused | keeper/ethereum.go:502-753 | the same for a proposal that is not given back |
| EthereumExactly.ApprovalRefused | keeper/ethereum.go:755-827 | the same for an approval |
| EthereumExactly.RevokeRefused | keeper/group.go:304-366 | the same for a revoke |
| EthereumExactly.RefundRefused | keeper/ethereum.go:829-907 | the same for a refund |
| EthereumExactly.ResponseRefused | keeper/group.go:271-302 | the same for a response that is not good |
| EthereumExactly.CloseRefused | keeper/ethereum.go:185-255 | a close that is not in order changes nothing but its request |
| EthereumExactly.RecoveryRefused | keeper/ethereum.go:23-183 | a recovery that is not in order changes and sends nothing |
| EthereumStore.Store.CreateBalanceDeposit | keeper/store/ethereum.go:40-93 | the balance grows by the deposit, once per transfer |
| EthereumStore.Store.DebitAll | keeper/ethereum.go:1004-1034 | the loop over payments is the specified debit |
| EthereumStore.Store.CreditAll | keeper/ethereum.go:868-906 | the loop over payments is the specified credit |
| EthereumStore.Store.CompareOutputs | keeper/ethereum.go:88-110 | the loop compares the outputs of a close with the balances as specified: one destination, each amount the balance of its token, as many as there are balances |
| EthereumStore.Store.WriteTransactionWithRequest | keeper/store/transaction.go:181-226 | a new transaction, one per request |
| EthereumStore.Store.CloseAccountByTransaction | keeper/store/transaction.go:140-179 | the safe is closed with the transaction; on failure it is open again |
| EthereumStore.Store.RevokeTransactionWithRequest | keeper/store/transaction.go:228-277 | only an initial transaction is revoked |
| EthereumStore.Store.WriteSignatureRequest | keeper/store/signature.go:95-126 | the request is there, the transaction pending with the signed raw data, or no change |
| EthereumStore.Store.FinishTransactionSignatures | keeper/store/signature.go:151-207 | transaction, answers, balances and nonce move together |
| EthereumStore.Store.FailTransactionWithRequest | keeper/store/transaction.go:279-320 | a done transaction of an open safe fails, with balances and nonce set back |
| EthereumStore.Store.LatestSignature | keeper/store/signature.go:231-256 | the latest answer, ties broken by request id |
| EthereumKeeper.Keeper.ProposeAccount | keeper/ethereum.go:257-382 | ends as specified |
| EthereumKeeper.Keeper.ApproveAccount | keeper/ethereum.go:384-500 | ends as specified, the unfinished safe committed on its own |
| EthereumKeeper.Keeper.CreateHolderDeposit | keeper/deposit.go:209-252 | ends as specified |
| EthereumKeeper.Keeper.ProposeTransaction | keeper/ethereum.go:502-753 | ends as specified |
| EthereumKeeper.Keeper.ApproveTransaction | keeper/ethereum.go:755-827 | ends as specified |
| EthereumKeeper.Keeper.RefundTransaction | keeper/ethereum.go:829-907 | ends as specified |
| EthereumKeeper.Keeper.FinishTransaction | keeper/ethereum.go:909-1040 | ends as specified |
| EthereumKeeper.Keeper.CloseAccountWithHolder | keeper/ethereum.go:185-255 | ends as specified |
| EthereumKeeper.Keeper.CloseAccountWithoutHolder | keeper/ethereum.go:23-183 | ends as specified |
| EthereumKeeper.Keeper.ProcessAction | keeper/group.go:26-79 | handles one output as specified and keeps balances, nonces and the single unfinished transaction |
| KeeperKeys.KeyStore.WriteKey | keeper/store/key.go:56-86 | a known key is refused |
| KeeperKeys.KeyStore.ReadSpare | keeper/store/key.go:149-163 | the oldest mature spare key, or the preferred one |
| KeeperKeys.KeyStore.Assign | keeper/store/key.go:88-137 | one signer and one observer key, the same pair again, or none; it never panics |
| KeeperKeys.AlwaysPaired | keeper/store/key.go:88-137 | in every reachable state a holder has no keys or exactly one of each role |
| KeeperKeys.NeverPanics | keeper/store/key.go:107-112 | the panic on a half-assigned holder cannot be reached |
| KeeperKeys.HolderForever | keeper/store/key.go:125-134 | no key ever changes its holder |
| KeeperKeys.AskAgain | keeper/store/key.go:88-109 | asking again returns the pair that was given first and changes nothing |
| KeeperKeys.AssignDetermined | keeper/store/key.go:149-163 | table, clock and preference determine the keys |
| KeeperKeys.AssignExactly | keeper/store/key.go:88-163 | a pair is given exactly if the holder has one or a spare key of each role is there, the oldest of each, and no other key changes |
| KeeperProposals.ProposeReplay | keeper/bitcoin.go:265-371 | proposing an account again after a stop ends with the same pair, proposal and reply |
| KeeperProposals.ProposesExactly | keeper/bitcoin.go:265-371 | a new request in order is recorded with the holder's pair; one that fails for want of a price, keys or means to send is refunded in full; any other records and sends nothing |
| SignerSessions.FinishedExactly | signer/group.go:447-477 | with at most threshold plus one rows, a session is finished exactly when all of them report one non-empty signature |
| SignerSessions.AlwaysOk | signer/group.go:166-193 | rows never exceed threshold plus one, a session is prepared exactly when it has that many, and has at most one answer, after any outputs |
| SignerSessions.FrozenForever | signer/group.go:166-193 | the members of a prepared session never change |
| SignerSessions.AnsweredExactly | signer/group.go:447-477 | the exact condition for a verdict in every reachable state |
| SignerSessions.AnsweredOnce | signer/store.go:557-594 | at most one output of a session has a result that is not empty |
| SignerSessions.SameAgain | signer/group.go:101-112 | an output that comes again gets its recorded result and nothing changes |
| SignerAnswers.AlwaysTold | signer/group.go:114-301 | after any outputs the tables hold the session of the first output that began it, rows of exactly the first members to prepare, one more than the threshold, and of each the last report since |
| SignerAnswers.AnswerExactly | signer/group.go:195-301 | the reply to a new report of a member is the answer with the session's curve, holder and signature if and only if with it all participants have said that signature, the group can pay, and no earlier output of the session was answered; compaction if it cannot pay; silence otherwise |
| SignerAnswers.OtherwiseSilent | signer/group.go:114-164 | every other new output is met with silence |
| SignerAnswers.ResultsExactly | signer/store.go:557-594 | the recorded result of an output is its session and the reply that was given when it first came |
| SignerNode.AppendedExactly | signer/group.go:372-392 | an appended signature is recognised and read back exactly if it is longer than 28 bytes |
| SignerNode.MistakenExactly | signer/group.go:383-392 | exactly which messages are taken for messages with a signature |
| SignerNode.MistakenMessage | signer/group.go:383-392 | a message of 64 bytes that is |
| SignerNode.ReportStops | signer/group.go:195-301 | a report is handled to the end if and only if, when it finishes the session, it is not an own early one and the signature verifies here |
| SignerNode.ReportVerifies | signer/group.go:372-445 | for a message that is not mistaken and not too long, exactly a valid signature of more than 28 bytes verifies |
| SignerNode.RestartGoesOn | signer/group.go:195-301 | a node that was stopped by its own early report handles it to the end the next time if and only if the signature verifies |
| SignerNode.OwnReport | signer/group.go:204-270 | three outputs, the last the node's own report, at which it stops |
| SignerRuns.AdvanceOk | signer/group.go:101-301 | after every single store call the shared tables are where the group has them before, within or after the output, and the reply at the end is the group's |
| SignerRuns.Follows | signer/group.go:90-112 | in every run, whatever the node's own steps between any two store calls, and however often it crashes or panics and takes an output again, its replies are the group's, and so are its tables between outputs |
| SignerRuns.Replicas | signer/group.go:166-301 | two nodes that have finished the same outputs gave the same replies and hold the same sessions, prepared flags, rows and results, however their own steps and stops fell |
| SignerRuns.CompleteOk | signer/group.go:101-112 | an output handled without interruption does to the shared tables what it does to the group, or stops on the way |
| SignerStore.Signer.VerifySessionSignerResults | signer/group.go:447-477 | the counting loop gives the specified verdict |
| SignerStore.Signer.CheckActionResultsBySessionId | signer/store.go:557-594 | the loop finds an answer exactly if there is one |
| SignerStore.Signer.ProcessSignerPrepare | signer/group.go:166-193 | rows and prepared flag as specified, also after a panic |
| SignerStore.Signer.ProcessSignerResult | signer/group.go:195-301 | tables and reply as specified, the reply being the one `SignerAnswers.AnswerExactly` states; after a panic, the tables as the store calls before it left them |
| SignerStore.Signer.ProcessActionWithPersistence | signer/group.go:101-112 | the node does to its tables, and replies, what the group does; after a panic its shared tables are the group's before, within or after the output |
| Script.ParseAssembled | apps/bitcoin/account.go:128-147 | the bytes of an assembled script mean the instructions it was assembled from |
| WitnessScript.ParseSequence | apps/bitcoin/common.go:79-96 | as many whole blocks as fit into the lock, between 6 and 65535 |
| WitnessScript.BlocksOfHours | apps/bitcoin/common.go:79-96 | an hour is six blocks, on Litecoin twenty-four, up to 65535 |
| WitnessScript.ScriptRun | apps/bitcoin/account.go:106-147 | what the whole script does to any stack |
| WitnessScript.ScriptMeaning | apps/bitcoin/account.go:106-147 | the script accepts a stack if and only if it has three elements of which two count, an observer's only if it verifies and the relative lock is met |
| WitnessBuilder.BuildWitnessScriptAccount | apps/bitcoin/account.go:114-165 | an account exactly for locks in range, with the script whose meaning is proved |
| WitnessBuilder.AddInputs | apps/bitcoin/transaction.go:341-417 | inputs are taken exactly if each can be spent and all are at one address; sum and sequences |
| WitnessBuilder.SignedTransaction | apps/bitcoin/transaction.go:100-150 | witnesses for all inputs if and only if every partial signature is well formed and every input has those of holder and signer or, on the recovery route, of the observer and one of them; elements in script order |
| WitnessBuilder.CollectedExactly | apps/bitcoin/transaction.go:105-115 | the signatures are collected exactly if all are well formed, and of each key it is the canonical form of its last one |
| WitnessBuilder.SignableExactly | apps/bitcoin/transaction.go:100-150 | the same for one input, from its partial signatures |
| WitnessBuilder.SignedIsAccepted | apps/bitcoin/transaction.go:100-150 | for valid signatures, time locks in range and either route, the returned witness is accepted if and only if exactly two of the keys signed |
| WitnessBuilder.TwoAccepted | apps/bitcoin/transaction.go:100-150 | an input that exactly the two keys of its route have signed is given a witness and the witness is accepted |
| WitnessBuilder.AccountSpendable | apps/bitcoin/transaction.go:360-417 | an output of an account can be spent by either route, with the sequence of that route |
| WitnessBuilder.ThreeRejected | apps/bitcoin/transaction.go:100-150 | three right signatures, taken by signing on either route and rejected by the script |
| MultiSend.BuildMultiSendData | apps/ethereum/transaction.go:497-535 | the loop packs the calls in order, and they parse back to the outputs |
| MultiSend.ParseMultiSendData | apps/ethereum/transaction.go:370-434 | the walk by offset reads the calls as specified |
| MultiSend.PackedParses | apps/ethereum/transaction.go:370-434 | packed outputs with amounts in range are read back in order |
| SafeExecution.PackedExecutes | apps/ethereum/transaction.go:497-535 | executed as the multi-send contract unpacks them, the packed calls make exactly the payments they were packed from, in order, each by a plain call |
| SafeExecution.CreateExecutes | apps/ethereum/transaction.go:48-122 | every non-empty list of outputs gives a transaction of this safe, chain and nonce that, when executed, pays exactly them |
| SafeTransaction.CreateExtract | apps/ethereum/transaction.go:48-122 | every non-empty list of outputs gives a transaction of the type the keeper picks, from which the same list is extracted |
| SafeTransaction.SignaturesRoundTrip | apps/ethereum/transaction.go:157-251 | three signature slots survive hex text and commas |
| SafeTransaction.MarshalRoundTrip | apps/ethereum/transaction.go:157-251 | unmarshalling undoes marshalling |
| SafeTransaction.MarshalLayout | apps/ethereum/transaction.go:157-180 | chain and operation in 8 bytes each, then the eight fields with their lengths, in this order |
| SafeTransaction.OutputsSurvive | apps/ethereum/transaction.go:331-434 | outputs survive making, marshalling, unmarshalling and extracting, in order |
| SafeTransaction.ProposalFits | keeper/ethereum.go:646-718 | up to 256 outputs always fit the stored form |
| SafeTransaction.WriteSignatures | apps/ethereum/transaction.go:168-174 | the loop writes the specified text |
| SafeTransaction.ReadSignatures | apps/ethereum/transaction.go:219-231 | the loop fills the slots as specified, or fails |
| DepositExtra.RoundTrip | keeper/deposit.go:33-64 | the keeper reads exactly the deposit the observer wrote, unless a Bitcoin or Litecoin amount exceeds 63 bits |
| DepositExtra.Layout | observer/holder.go:302-319 | chain, asset, transaction, contract, index and amount at their places, the index in 8 bytes and the amount without leading zero |
| DepositExtra.Injective | observer/holder.go:302-319 | no two deposits are written the same way |
| CallTrace.LoopCalls | apps/ethereum/common.go:158-187 | the recursion numbers the calls in preorder and returns the payments and the end of the range |
| CallTrace.Numbered | apps/ethereum/common.go:158-187 | numbers strictly increase and lie in the returned range |
| CallTrace.CallOrder | apps/ethereum/common.go:158-187 | the calls are all those with nothing failed or static on the way to them, each before those it makes and those made after it |
| CallTrace.PaidExactly | apps/ethereum/common.go:158-187 | a call has a payment under its number, with its sender, receiver and value, exactly if it did not fail, is not static and carries a value |
| CallTrace.LoopBlockTraces | apps/ethereum/common.go:137-156 | the transfers of a block are those of its traced transactions |
| CallTrace.FindTransfer | apps/ethereum/common.go:208-214 | the first transfer that matches, or none matches |
| CallTrace.VerifyDeposit | apps/ethereum/common.go:189-215 | a recorded native transfer is found again, it and no other |

## Left out

- RPC clients, HTTP handlers, command line, configuration, messenger, monitoring and schema migrations.
- Elliptic curves, multi-party computation, AES, BIP 32 derivation, Keccak and contract bindings are abstract functions.
- Partially signed transaction and contract call encodings are assumed to be inverse pairs.
- Key generation sessions of the signers, encryption of messages and the work counters.
- `Stop` of the round handler, which acts only on a finished handler; culprits and the message sent on an abort.
- The size estimate of a Bitcoin transaction, the dust rule of the node software, and the observer's pool of fee outputs.
- Bond conservation for Ethereum refunds, whose amount is scaled by the decimals of the asset.
- Agreement between keepers on the choice of keys, which depends on each keeper's clock.
- Parsing multi-send bytes that were not built here, beyond what the offsets say; offsets larger than 63 bits.
- Decimal text of amounts, JSON of recipients, and the checksummed spelling of addresses.
- The Bitcoin `ProposeAccount` handler is modelled on values in `KeeperProposals`, not inside the class `Keeper`.
- Script instructions that the account script does not use; policy rules that consensus does not have.
