# walletExample in Dafny

A model of the decision logic of `walletExample`, a small testnet wallet
program built on bitcoinj. It has two parts.

- **SimpleWalletKit** (module `WalletKit`, file `wallet_kit.dfy`) is an idle
  service. It owns one wallet with its SPV block store, block chain and peer
  group. It creates a new wallet or loads one from a file, and derives the
  block-store file from the wallet file's name. Its accessors work only while
  the service is STARTING or RUNNING. It reports transactions with a fee
  figure. It forwards coins by spending the wallet's first unspent output.
  When money is short, it registers a balance callback that retries the
  forward.
- **ExamplleWallet** (module `ExampleWallet`, file `example_wallet.dfy`) is the
  program. Its first argument chooses the wallet: none loads
  `testnet_.wallet`, `-new` creates one, anything else is a file path. A
  second argument `-loop` turns on loop mode. A static flag makes the first
  depth-1 confirmation of an incoming transaction forward 546 satoshi to a
  fixed address. Later confirmations forward only in loop mode. Outgoing
  transactions are only reported.

The name arithmetic is in module `FileNames` (file `file_names.dfy`). It covers
`Long.toString`, `File.getName` and `String.split("\\.")[0]`. `Outcomes`
(file `outcomes.dfy`) holds the `Option` type.

How the model is built:

- The bitcoinj wallet is a value: its key material, the seed's creation time,
  the values of its unspent outputs (satoshi, in bitcoinj's order), and its
  available and estimated balances. bitcoinj changes it (`ApplyWalletChange`).
  The kit never computes it.
- Some calls into bitcoinj or the file system that can fail take their outcome
  as a parameter: `completeTx`, saving and loading the wallet, and opening and
  closing the block store. The random key material of a new wallet is a
  parameter too. The other bitcoinj calls are taken to succeed; "## Left out"
  names them.
- Every call with an effect outside the kit is appended, in order, to the
  kit's effect `log`. The program's console output is the `out` sequence of
  `App`.
- The service is a class whose methods change its fields. `StartAsync` and
  `StopAsync` run the service's state changes one after another: NEW to
  STARTING to RUNNING or FAILED, and RUNNING to STOPPING to TERMINATED or
  FAILED. `StartUp` and `ShutDown` are the overridden hooks.
- `StartUp`, `StartAsync`, `ForwardCoins`, `FireRetry`, `OnIncomingConfirmed`
  and `LaunchApp` are proved against pure functions (`StartUpRun`, `Forward`,
  `Decide`), and the properties are proved about those functions. `ShutDown`,
  `StopAsync`, `OnCoinsSent`, `OnOutgoingConfirmed` and `ApplyWalletChange`
  state their new state directly in their postconditions.
- The flag policy over a stream of confirmations is the fold `Replay` of
  `Decide`.

The code departs from a fuller design of such a service in several ways. The
model follows the code:

- Inputs are not chosen largest-first. The fee is not re-estimated.
- The retry threshold is the amount alone, not the amount plus the fee.
- A forward with no unspent outputs fails with an index error, not an
  insufficient-funds error, and no retry is scheduled.
- Accessors also work while STARTING.
- There is no sync timeout and no rollback after a failed broadcast.
- Confirmations are not de-duplicated by transaction id.
- A single flag, not a per-transaction record, decides the first forward.

## Model

| member | source | states |
|---|---|---|
| `FileNames.NatDigits` | src/main/java/wallet/example/SimpleWalletKit.java:54 | the decimal digits of a clock reading are non-empty, digits only, with no leading zero |
| `FileNames.DigitsRoundTrip` | src/main/java/wallet/example/SimpleWalletKit.java:54 | reading the digits back gives the number, so the default wallet name identifies the creation time |
| `FileNames.DecimalString` | src/main/java/wallet/example/SimpleWalletKit.java:54 | `Long.toString`: a non-negative reading gives a non-empty digit string without a leading zero that denotes the reading; a negative one gives a minus sign followed by such a string for its magnitude |
| `FileNames.DecimalStringPlain` | src/main/java/wallet/example/SimpleWalletKit.java:54 | the decimal form of the creation time contains no dot and no path separator |
| `FileNames.TrimTrailingSlashesSpec` | src/main/java/wallet/example/SimpleWalletKit.java:73 | the path with its trailing separators dropped is a prefix of it and does not end in a separator |
| `FileNames.AfterLastSlashSpec` | src/main/java/wallet/example/SimpleWalletKit.java:73 | the result is a separator-free suffix of the path, preceded by a separator unless it is the whole path |
| `FileNames.FileName` | src/main/java/wallet/example/SimpleWalletKit.java:73 | `getName()` is never longer than the path |
| `FileNames.AfterLastSlashIsSuffix` | src/main/java/wallet/example/SimpleWalletKit.java:73 | what follows the last separator is exactly the path's tail of that length |
| `FileNames.FileNameSpec` | src/main/java/wallet/example/SimpleWalletKit.java:73 | `getName()` contains no separator, and a path without one is its own name; it is the tail of the trimmed path that follows its last separator |
| `FileNames.BeforeFirstDotSpec` | src/main/java/wallet/example/SimpleWalletKit.java:73 | the result is a dot-free prefix that ends at the first dot or at the end |
| `FileNames.FirstDotField` | src/main/java/wallet/example/SimpleWalletKit.java:73 | `split("\\.")[0]` can fail only on a non-empty name, and the field it gives is never longer than the name |
| `FileNames.FirstDotFieldSpec` | src/main/java/wallet/example/SimpleWalletKit.java:73 | `split("\\.")[0]` fails exactly when the name is non-empty and made only of dots; otherwise it is the dot-free prefix that ends at the first dot |
| `FileNames.StoreFileName` | src/main/java/wallet/example/SimpleWalletKit.java:73 | deriving the block-store name can fail only for a non-empty wallet path; the name is at least the suffix long and at most the path plus the suffix |
| `FileNames.StoreFileNameSpec` | src/main/java/wallet/example/SimpleWalletKit.java:73 | the block-store name is the wallet file's name up to its first dot, followed by `.spvchain`; there is none exactly for an all-dots name |
| `FileNames.BeforeFirstDotOfStem` | src/main/java/wallet/example/SimpleWalletKit.java:73 | a dot-free stem followed by a dot is cut back to the stem |
| `FileNames.StoreFileNameOfStem` | src/main/java/wallet/example/SimpleWalletKit.java:73 | a wallet file `stem.rest` with a plain non-empty stem has the block store `stem.spvchain` |
| `FileNames.NewWalletStoreFileName` | src/main/java/wallet/example/SimpleWalletKit.java:54-73 | a new wallet's file `creationTime.wallet` gives the block store `creationTime.spvchain` |
| `WalletKit.Checked` | src/main/java/wallet/example/SimpleWalletKit.java:164-182 | an accessor returns its field exactly when the state is STARTING or RUNNING, and otherwise fails with an illegal-state error |
| `WalletKit.UsableWallet` | src/main/java/wallet/example/SimpleWalletKit.java:174-177 | using `wallet()` succeeds exactly when the state allows it and the field is set; an illegal-state error comes first |
| `WalletKit.ReportedFee` | src/main/java/wallet/example/SimpleWalletKit.java:186 | with a positive input sum, fee plus outputs equals inputs; otherwise the fee is 0; it is negative exactly when the outputs exceed a positive input sum |
| `WalletKit.ForwardRequest` | src/main/java/wallet/example/SimpleWalletKit.java:111-117 | the request has exactly one explicit input, the first unspent output, and exactly one output, the amount to the destination, at 3 times the reference fee rate |
| `WalletKit.Forward` | src/main/java/wallet/example/SimpleWalletKit.java:108-142 | outside STARTING and RUNNING nothing happens and the error escapes; it broadcasts, fails the save, or registers a retry, each exactly under its conditions |
| `WalletKit.ForwardWithoutUnspents` | src/main/java/wallet/example/SimpleWalletKit.java:112 | with no unspent output the index error escapes, with no effect and no retry |
| `WalletKit.ForwardSpendsFirstUnspent` | src/main/java/wallet/example/SimpleWalletKit.java:111-117 | every request handed to `completeTx` spends the first unspent output and pays exactly the amount to the destination |
| `WalletKit.ForwardEffectOrder` | src/main/java/wallet/example/SimpleWalletKit.java:119-138 | a broadcast follows complete, commit and save, in that order; a failed save leaves a commit without a broadcast; missing money commits nothing and registers exactly one callback, whose threshold is the amount without the fee |
| `WalletKit.SeedCreationTimeSeconds` | src/main/java/wallet/example/SimpleWalletKit.java:153 | the seed's creation time in seconds is the millisecond reading truncated toward zero |
| `WalletKit.NewWallet` | src/main/java/wallet/example/SimpleWalletKit.java:149-158 | as written, a created wallet has the new key material, no outputs, zero balances, and a seed dated with the kit's millisecond clock reading |
| `WalletKit.NewWalletIntended` | src/main/java/wallet/example/SimpleWalletKit.java:149-158 | as intended, the same wallet with the seed dated in seconds: the reading truncated toward zero |
| `WalletKit.NewWalletSeedInMillis` | src/main/java/wallet/example/SimpleWalletKit.java:153 | past the first second, the wallet created as written differs from the intended one only in its seed date, which is at least 1000 times too large |
| `WalletKit.NewWalletSeedExample` | src/main/java/wallet/example/SimpleWalletKit.java:153 | a kit made at 1600000000000 ms dates its seed 1600000000000, where 1600000000 is meant |
| `WalletKit.StartUpRun` | src/main/java/wallet/example/SimpleWalletKit.java:64-88 | the wallet is the one `createWallet` builds as written exactly for a new kit, and the loaded one otherwise; startUp returns exactly when a wallet was obtained, the store name exists and the store opens, and then the store is the one named after the wallet file |
| `WalletKit.StartUpEffects` | src/main/java/wallet/example/SimpleWalletKit.java:64-88 | a fresh wallet is created exactly when the kit is new, and otherwise its file is loaded, once and first; the store opened is named after the wallet file; the chain download comes last, exactly when startUp returns |
| `WalletKit.NewKitBlockStore` | src/main/java/wallet/example/SimpleWalletKit.java:54-73 | a new kit that starts up opens the block store `creationTime.spvchain` |
| `WalletKit.SimpleWalletKit.ForNewWallet` | src/main/java/wallet/example/SimpleWalletKit.java:51-55 | a new-wallet kit has `isWalletNew` set and the wallet file `creationTime.wallet` |
| `WalletKit.SimpleWalletKit.ForWalletFile` | src/main/java/wallet/example/SimpleWalletKit.java:57-62 | a file kit has `isWalletNew` cleared and the given wallet file |
| `WalletKit.SimpleWalletKit.GetWallet` | src/main/java/wallet/example/SimpleWalletKit.java:174-177 | `wallet()` returns the field exactly in STARTING or RUNNING |
| `WalletKit.SimpleWalletKit.GetChain` | src/main/java/wallet/example/SimpleWalletKit.java:164-167 | `chain()` returns the field exactly in STARTING or RUNNING |
| `WalletKit.SimpleWalletKit.GetStore` | src/main/java/wallet/example/SimpleWalletKit.java:169-172 | `store()` returns the field exactly in STARTING or RUNNING |
| `WalletKit.SimpleWalletKit.GetPeerGroup` | src/main/java/wallet/example/SimpleWalletKit.java:179-182 | `peerGroup()` returns the field exactly in STARTING or RUNNING |
| `WalletKit.SimpleWalletKit.GetBalance` | src/main/java/wallet/example/SimpleWalletKit.java:144-147 | the balance is the wallet's estimated balance, and it fails outside STARTING and RUNNING |
| `WalletKit.SimpleWalletKit.GetTxInfo` | src/main/java/wallet/example/SimpleWalletKit.java:184-198 | the report carries the transaction's id, depth, the values to and from the wallet, and the unclamped fee; it fails outside STARTING and RUNNING |
| `WalletKit.SimpleWalletKit.GetShortWalletInfo` | src/main/java/wallet/example/SimpleWalletKit.java:200-214 | the summary is the wallet's mnemonic, seed creation time and receive address; it fails outside STARTING and RUNNING |
| `WalletKit.SimpleWalletKit.StartUp` | src/main/java/wallet/example/SimpleWalletKit.java:64-88 | the log grows by the startUp effects, and the fields become those startUp assigns; on success all four subsystems are set and wired together |
| `WalletKit.SimpleWalletKit.ShutDown` | src/main/java/wallet/example/SimpleWalletKit.java:90-106 | stop the peers, close the store, save the wallet; on success all four fields are null; on a failure the error escapes with the fields untouched |
| `WalletKit.SimpleWalletKit.StartAsync` | src/main/java/wallet/example/SimpleWalletKit.java:64-88 | only a NEW kit starts; it ends RUNNING with the startUp effects logged when startUp returns, and FAILED otherwise, with no store, chain or peer group; starting a kit in any other state fails and changes nothing |
| `WalletKit.SimpleWalletKit.StopAsync` | src/main/java/wallet/example/SimpleWalletKit.java:216-228 | a RUNNING kit runs shutDown and ends TERMINATED with all fields null, or FAILED with all four fields as they were; a NEW kit terminates at once; other states do not change |
| `WalletKit.SimpleWalletKit.ForwardCoins` | src/main/java/wallet/example/SimpleWalletKit.java:108-142 | the outcome and new log are those of `Forward`; exactly one callback for the same destination and amount is added on missing money, and none otherwise |
| `WalletKit.SimpleWalletKit.FireRetry` | src/main/java/wallet/example/SimpleWalletKit.java:128-138 | a callback fires only when the wallet's available balance has reached its threshold; it is removed and calls forwardCoins again with its own destination and amount |
| `ExampleWallet.SelectSource` | src/main/java/wallet/example/ExamplleWallet.java:24-33 | no argument loads `testnet_.wallet`; a first argument exactly `-new` creates a wallet; any other first argument, `-loop` included, is a file path |
| `ExampleWallet.LoopMode` | src/main/java/wallet/example/ExamplleWallet.java:50 | loop mode is on only with at least two arguments, and then exactly when the second is `-loop` |
| `ExampleWallet.Decide` | src/main/java/wallet/example/ExamplleWallet.java:44-52 | a confirmation forwards exactly when its report succeeds and the flag is set or loop mode is on; the flag is cleared exactly by a forward that returns normally |
| `ExampleWallet.Replay` | src/main/java/wallet/example/ExamplleWallet.java:40-52 | over a stream of confirmations, forwards that return are at most the forwards, which are at most the confirmations; a cleared flag stays cleared |
| `ExampleWallet.ReplayQuietOnceCleared` | src/main/java/wallet/example/ExamplleWallet.java:47-52 | with the flag cleared and loop mode off, no confirmation forwards |
| `ExampleWallet.ReplayOnceWithoutLoop` | src/main/java/wallet/example/ExamplleWallet.java:47-52 | loop mode off: over n >= 1 confirmations that go well, exactly one forward happens, and the flag ends cleared |
| `ExampleWallet.ReplayEveryWithLoop` | src/main/java/wallet/example/ExamplleWallet.java:47-52 | loop mode on: every confirmation whose report succeeds forwards, whatever the flag |
| `ExampleWallet.ReplayNWithLoop` | src/main/java/wallet/example/ExamplleWallet.java:47-52 | loop mode on: over n confirmations that go well, exactly n forwards happen |
| `ExampleWallet.ReplayAtMostOneWithoutLoop` | src/main/java/wallet/example/ExamplleWallet.java:47-52 | loop mode off: however the stream goes, at most one forward returns normally |
| `ExampleWallet.ReplayFlagCleared` | src/main/java/wallet/example/ExamplleWallet.java:47-49 | the flag stays set exactly while no forward has returned normally, so after a forward that throws the next confirmation is again the first |
| `ExampleWallet.App.constructor` | src/main/java/wallet/example/ExamplleWallet.java:15 | the forwarding flag starts set |
| `ExampleWallet.App.OnIncomingConfirmed` | src/main/java/wallet/example/ExamplleWallet.java:40-60 | the handler prints, reports, and forwards 546 satoshi to the fixed address exactly as `Decide` says; the flag afterwards is `Decide`'s; a forward that meets missing money adds exactly one callback for 546 satoshi to the fixed address; without a forward the kit's log and callbacks do not change |
| `ExampleWallet.App.OnCoinsSent` | src/main/java/wallet/example/ExamplleWallet.java:62-77 | an outgoing transaction is only reported; the watch is set exactly when the report succeeds; no forward, and the flag is untouched |
| `ExampleWallet.App.OnOutgoingConfirmed` | src/main/java/wallet/example/ExamplleWallet.java:66-70 | the confirmation of an outgoing transaction only prints its id |
| `ExampleWallet.LaunchApp` | src/main/java/wallet/example/ExamplleWallet.java:17-38 | the kit is new exactly for `-new`, loads the chosen file otherwise, and the program goes on exactly when startUp returns; the kit is then RUNNING with the clock reading it was made at, the wallet and block store startUp produced, no callbacks, and the flag set; the first line printed is that wallet's summary |

## Left out

- Mnemonic and seed generation from `SecureRandom` are not modelled. They are randomness and cryptography inside bitcoinj. The key material of a new wallet is a parameter (`newKeys`).
- Reading and writing wallet files, and opening and closing the block store, are file I/O. Each is an entry in the effect log, and its success is a parameter.
- Coin selection, change, signing and fee computation inside `completeTx` are bitcoinj's; its outcome is a parameter. Changes bitcoinj makes to the wallet come in through `ApplyWalletChange`.
- `Forward`: `commitTx` and `broadcastTransaction` are taken to succeed; they are log entries only. An unchecked exception from `commitTx` would escape `forwardCoins` after `completeTx` and leave the program's forwarding flag set; the model has no such path.
- `StartUpRun`: the `BlockChain` and `PeerGroup` constructors are taken to succeed. `new BlockChain` declares `BlockStoreException`. If it threw, startUp would end there and the service would be FAILED, with the block store assigned and open and the chain and peer group still null. The model has no such path.
- The peer group's network calls are taken to return. `peerGroup.startAsync()` is logged as `StartPeerGroup` and `downloadBlockChain` as `DownloadChain`. `addPeerDiscovery` with DNS discovery, `waitForPeers(1)`, `chain.addWallet` and `peerGroup.addWallet` are not modelled: they have no effect on the modelled decisions.
- `GetShortWalletInfo`: reading the seed and its mnemonic is taken to succeed; every modelled wallet carries its mnemonic. A loaded wallet without a seed (a watching wallet) makes `getKeyChainSeed()` throw, and one whose seed is encrypted has no mnemonic, so joining the words throws. Either would end `main` at line 38 of `ExamplleWallet.java` with the kit already RUNNING and before the listeners are added, so no confirmation would ever forward. `LaunchApp` has no such path.
- `LaunchApp`: the program is taken to go on exactly when startUp returns; the seed read at line 38 of `ExamplleWallet.java` is taken to succeed, as under `GetShortWalletInfo` above.
- Guava's service threads, futures and executors, and the shutdown-hook thread, are concurrency. Callbacks are delivered one at a time. Exceptions thrown inside a callback end that callback only.
- `FireRetry`: bitcoinj completes a balance future at once when the balance already reaches the threshold. The callback then re-enters `forwardCoins` immediately on the same thread. The model leaves that firing to the next `FireRetry` call. So it does not capture what follows when the available balance is at least 546 satoshi but below 546 plus the fee: `completeTx` reports missing money again, the new balance future is already complete, and `forwardCoins` re-enters itself without end, so the program's forwarding flag is never cleared. The callback's `onFailure` branch only prints, so it is not modelled.
- The balance printer thread and `Thread.sleep` are I/O and timing.
- The kit's own console messages are not modelled: "Send to", "There are not enough coins", "Syncing chain..." and the IO stack trace. The string formatting of the reports is presentation. Only the values reported are modelled.
- The unused second `getUnspents()` call in `forwardCoins` repeats a guard that has already passed, so it is not modelled.
- `Context.propagate`, `params()` and the network parameters have no effect on the modelled decisions.
- `FileNames.FileNameSpec`: only Unix paths with `/` are modelled. Separator collapsing inside a path does not change the last name, so it is left out.
- The `walletFile != null` test in `shutDown` is not modelled: the file constructor stores whatever it is given, but every caller in the program passes a non-null file, and the other constructor always makes one.
- The depth futures' `onFailure` branches rethrow. The model never fails a depth future.
- Java `long` overflow is not modelled: satoshi amounts and clock readings stay far inside its range.

## Findings

| source | as written | input that shows it | evidently intended | confidence | as-written member | corrected member |
|---|---|---|---|---|---|---|
| src/main/java/wallet/example/SimpleWalletKit.java:153 | `createWallet` gives the seed `creationTime`, the millisecond clock reading from line 47. `DeterministicSeed` takes seconds there, and line 203 of the same file reads the value back with `getCreationTimeSeconds()` | a kit made at 1600000000000 ms (September 2020) dates its seed 1600000000000 s, about fifty thousand years later, and `getShortWalletInfo` prints that value | the creation time in seconds, `creationTime / 1000` | high for the unit mismatch; not executed | `WalletKit.NewWallet` (used by `StartUpRun`), `WalletKit.NewWalletSeedInMillis`, `WalletKit.NewWalletSeedExample` | `WalletKit.NewWalletIntended`, `WalletKit.SeedCreationTimeSeconds` |
