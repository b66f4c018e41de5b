/** SimpleWalletKit: an idle service that owns one bitcoinj wallet together with
    its SPV block store, block chain and peer group, guards access to them by
    the service state, and forwards coins from the wallet's first unspent
    output, retrying once the balance suffices when money is short.

    The bitcoinj wallet is abstract here: its unspent-output values, its
    balances and its key material, changed by bitcoinj itself. Calls into
    bitcoinj that can fail take their outcome as a parameter, and every call
    with an effect outside the kit is appended to the kit's effect log. */
module WalletKit {

  import opened Outcomes
  import opened FileNames

  /** The states of the service the kit extends (Guava's Service.State). */
  datatype ServiceState = New | Starting | Running | Stopping | Terminated | Failed

  /** The exceptions that end a kit operation. */
  datatype Failure =
    | IllegalState        // the state guard of the accessors, or startAsync when not New
    | NullPointer         // a field dereferenced while still null
    | IndexOutOfBounds    // get(0) on no unspent outputs, or split(...)[0] on no field
    | UnreadableWallet    // Wallet.loadFromFile
    | BlockStoreFailure   // opening the SPV block store
    | CompletionFailure   // completeTx failing for a reason other than missing money
    | IOFailure           // saving the wallet, or closing the block store

  datatype Result<+T> = Ok(value: T) | Err(failure: Failure)

  /** The end of an operation that returns nothing. */
  datatype Status = Done | Threw(failure: Failure)

  type Address = string

  /** Key material bitcoinj derives from the seed: the mnemonic words and the current receive address. */
  datatype Keys = Keys(mnemonic: seq<string>, receiveAddress: Address)

  /** The bitcoinj wallet as this kit sees it; values in satoshi. */
  datatype Wallet = Wallet(keys: Keys, seedCreationSecs: int, unspents: seq<nat>, available: nat, estimated: nat)

  datatype BlockStore = SpvBlockStore(file: string)
  datatype Chain = BlockChain(store: BlockStore)
  datatype PeerGroup = PeerGroup(chain: Chain)

  datatype Payment = Payment(to: Address, amount: int)

  /** A send request before completion: explicit inputs (values of the spent
      outputs), outputs and the fee rate in satoshi per kilobyte. */
  datatype SendRequest = SendRequest(inputs: seq<nat>, outputs: seq<Payment>, feePerKb: nat)

  /** A balance callback: when the available balance reaches `threshold`, forward `amount` to `to` again. */
  datatype Retry = Retry(to: Address, amount: int, threshold: int)

  datatype Effect =
    | CreateWallet(seedCreationSecs: int)
    | LoadWallet(file: string)
    | OpenBlockStore(file: string)
    | StartPeerGroup
    | InstallShutdownHook
    | DownloadChain
    | StopPeerGroup
    | CloseBlockStore
    | SaveWallet(file: string)
    | CompleteTx(request: SendRequest)
    | CommitTx
    | BroadcastTx
    | RegisterRetry(retry: Retry)

  /** What bitcoinj's completeTx does with a request. */
  datatype Completion = Completes | InsufficientMoney | CompletionFails

  datatype ForwardOutcome = Broadcast | SaveFailed | RetryRegistered | Escaped(failure: Failure)

  datatype ForwardRun = ForwardRun(effects: seq<Effect>, outcome: ForwardOutcome)

  datatype StartRun = StartRun(effects: seq<Effect>, wallet: Option<Wallet>, store: Option<BlockStore>, status: Status)

  datatype TxView = TxView(id: nat, inputSum: int, outputSum: int, sentToMe: int, sentFromMe: int, depth: nat)

  datatype TxInfo = TxInfo(id: nat, sentToMe: int, sentFromMe: int, fee: int, depth: nat)

  datatype ShortInfo = ShortInfo(mnemonic: seq<string>, creationSecs: int, address: Address)

  /** bitcoinj's Transaction.REFERENCE_DEFAULT_MIN_TX_FEE, in satoshi. */
  const ReferenceDefaultMinTxFee: nat := 1000

  /** The fee rate forwardCoins sets on its request: three times the reference minimum. */
  const ForwardFeePerKb: nat := 3 * ReferenceDefaultMinTxFee

  const WalletSuffix := ".wallet"

  /** The accessors return their field only while the service is starting or running. */
  predicate AccessAllowed(s: ServiceState) {
    s == Starting || s == Running
  }

  /** An accessor: the field when the state allows it, an illegal-state error otherwise. */
  function Checked<T>(s: ServiceState, field: T): (r: Result<T>)
    ensures r.Ok? <==> AccessAllowed(s)
    ensures r.Ok? ==> r.value == field
    ensures r.Err? ==> r.failure == IllegalState
  {
    if AccessAllowed(s) then Ok(field) else Err(IllegalState)
  }

  /** `wallet()` followed by a dereference: it also fails while the field is still null. */
  function UsableWallet(s: ServiceState, w: Option<Wallet>): (r: Result<Wallet>)
    ensures r.Ok? <==> AccessAllowed(s) && w.Some?
    ensures r.Ok? ==> w == Some(r.value)
    ensures !AccessAllowed(s) ==> r == Err(IllegalState)
  {
    var field := Checked(s, w);
    if field.Err? then Err(field.failure)
    else if field.value.None? then Err(NullPointer)
    else Ok(field.value.value)
  }

  /** The fee getTxInfo reports: inputs minus outputs when the known input sum is
      positive, otherwise 0. Not clamped, so it is negative when the outputs exceed
      the known inputs. Satoshi amounts stay far inside Java's long range. */
  function ReportedFee(inputSum: int, outputSum: int): (fee: int)
    ensures inputSum > 0 ==> fee + outputSum == inputSum
    ensures inputSum <= 0 ==> fee == 0
    ensures fee < 0 <==> inputSum > 0 && outputSum > inputSum
  {
    if inputSum > 0 then inputSum - outputSum else 0
  }

  /** The send request forwardCoins builds: the first unspent output as its only
      explicit input and one output of `amount` to `to`, at the forwarding fee rate. */
  function ForwardRequest(first: nat, to: Address, amount: int): (req: SendRequest)
    ensures |req.inputs| == 1 && req.inputs[0] == first
    ensures |req.outputs| == 1 && req.outputs[0] == Payment(to, amount)
    ensures req.feePerKb == 3 * ReferenceDefaultMinTxFee
  {
    SendRequest([first], [Payment(to, amount)], ForwardFeePerKb)
  }

  /** forwardCoins on a kit in state `s` with wallet `w`, given what completeTx and the save do. */
  function Forward(s: ServiceState, w: Option<Wallet>, walletFile: string, to: Address, amount: int,
                   completion: Completion, saveOk: bool): (run: ForwardRun)
    // outside STARTING and RUNNING nothing happens and the illegal-state error escapes
    ensures !AccessAllowed(s) ==> run == ForwardRun([], Escaped(IllegalState))
    // a broadcast needs a usable wallet with an unspent output, a completed request and a saved wallet
    ensures run.outcome == Broadcast <==>
              UsableWallet(s, w).Ok? && w.value.unspents != [] && completion == Completes && saveOk
    ensures run.outcome == SaveFailed <==>
              UsableWallet(s, w).Ok? && w.value.unspents != [] && completion == Completes && !saveOk
    // a retry is registered exactly when completeTx reports missing money
    ensures run.outcome == RetryRegistered <==>
              UsableWallet(s, w).Ok? && w.value.unspents != [] && completion == InsufficientMoney
  {
    match UsableWallet(s, w)
    case Err(e) => ForwardRun([], Escaped(e))
    case Ok(wallet) =>
      if wallet.unspents == [] then ForwardRun([], Escaped(IndexOutOfBounds))
      else
        var complete := CompleteTx(ForwardRequest(wallet.unspents[0], to, amount));
        match completion
        case CompletionFails => ForwardRun([complete], Escaped(CompletionFailure))
        case InsufficientMoney => ForwardRun([complete, RegisterRetry(Retry(to, amount, amount))], RetryRegistered)
        case Completes =>
          if saveOk then ForwardRun([complete, CommitTx, SaveWallet(walletFile), BroadcastTx], Broadcast)
          else ForwardRun([complete, CommitTx, SaveWallet(walletFile)], SaveFailed)
  }

  /** With no unspent output, get(0) throws; the error escapes, nothing is done and no retry is scheduled. */
  lemma ForwardWithoutUnspents(s: ServiceState, w: Option<Wallet>, walletFile: string, to: Address, amount: int,
                               completion: Completion, saveOk: bool)
    requires UsableWallet(s, w).Ok? && w.value.unspents == []
    ensures Forward(s, w, walletFile, to, amount, completion, saveOk) == ForwardRun([], Escaped(IndexOutOfBounds))
  {
  }

  /** Every request forwardCoins hands to completeTx spends the wallet's first
      unspent output, pays exactly `amount` to `to` and nothing else, at three
      times the reference fee rate. */
  lemma ForwardSpendsFirstUnspent(s: ServiceState, w: Option<Wallet>, walletFile: string, to: Address, amount: int,
                                  completion: Completion, saveOk: bool)
    ensures var run := Forward(s, w, walletFile, to, amount, completion, saveOk);
            forall i :: 0 <= i < |run.effects| && run.effects[i].CompleteTx? ==>
              w.Some? && |w.value.unspents| > 0 && run.effects[i].request == ForwardRequest(w.value.unspents[0], to, amount)
  {
  }

  /** The order of forwardCoins' effects: a broadcast only after complete, commit
      and save, in that order; a failed save after the commit, with no broadcast;
      on missing money nothing committed, saved or broadcast and one callback,
      whose threshold is the amount without any fee. */
  lemma ForwardEffectOrder(s: ServiceState, w: Option<Wallet>, walletFile: string, to: Address, amount: int,
                           completion: Completion, saveOk: bool)
    ensures var run := Forward(s, w, walletFile, to, amount, completion, saveOk);
            (run.outcome == Broadcast <==> BroadcastTx in run.effects) &&
            (CommitTx in run.effects <==> run.outcome == Broadcast || run.outcome == SaveFailed) &&
            (run.outcome == Broadcast ==>
               |run.effects| == 4 && run.effects[0].CompleteTx? &&
               run.effects[1..] == [CommitTx, SaveWallet(walletFile), BroadcastTx]) &&
            (run.outcome == SaveFailed ==>
               |run.effects| == 3 && run.effects[0].CompleteTx? && run.effects[1..] == [CommitTx, SaveWallet(walletFile)]) &&
            (run.outcome == RetryRegistered ==>
               |run.effects| == 2 && run.effects[0].CompleteTx? && run.effects[1] == RegisterRetry(Retry(to, amount, amount))) &&
            ((exists i :: 0 <= i < |run.effects| && run.effects[i].RegisterRetry?) <==> run.outcome == RetryRegistered)
  {
  }

  /** The seed creation time in seconds for a clock reading in milliseconds
      (Java's long division, which truncates toward zero). */
  function SeedCreationTimeSeconds(creationTimeMillis: int): (secs: int)
    ensures creationTimeMillis >= 0 ==> 0 <= creationTimeMillis - secs * 1000 < 1000
    ensures creationTimeMillis < 0 ==> -1000 < creationTimeMillis - secs * 1000 <= 0
  {
    if creationTimeMillis >= 0 then creationTimeMillis / 1000 else -((-creationTimeMillis) / 1000)
  }

  /** The wallet createWallet builds from new key material, as the source writes
      it: no outputs yet, and the seed dated with the millisecond clock reading. */
  function NewWallet(keys: Keys, creationTimeMillis: int): (w: Wallet)
    ensures w.keys == keys && w.unspents == [] && w.available == 0 && w.estimated == 0
    ensures w.seedCreationSecs == creationTimeMillis
  {
    Wallet(keys, creationTimeMillis, [], 0, 0)
  }

  /** The wallet createWallet evidently means to build: the same, with the seed
      dated in seconds. */
  function NewWalletIntended(keys: Keys, creationTimeMillis: int): (w: Wallet)
    ensures w.keys == keys && w.unspents == [] && w.available == 0 && w.estimated == 0
    ensures creationTimeMillis >= 0 ==> 0 <= creationTimeMillis - w.seedCreationSecs * 1000 < 1000
    ensures creationTimeMillis < 0 ==> -1000 < creationTimeMillis - w.seedCreationSecs * 1000 <= 0
  {
    Wallet(keys, SeedCreationTimeSeconds(creationTimeMillis), [], 0, 0)
  }

  /** The wallet created as written differs from the intended one only in its
      seed date, which is off by a factor of at least 1000 on every clock reading
      past the first second: 1600000000000 ms (September 2020) would be read as
      a date some fifty thousand years later. */
  lemma NewWalletSeedInMillis(keys: Keys, creationTimeMillis: int)
    requires creationTimeMillis >= 1000
    ensures NewWallet(keys, creationTimeMillis) ==
            NewWalletIntended(keys, creationTimeMillis).(seedCreationSecs := creationTimeMillis)
    ensures NewWallet(keys, creationTimeMillis).seedCreationSecs >=
            1000 * NewWalletIntended(keys, creationTimeMillis).seedCreationSecs > 0
  {
    var secs := SeedCreationTimeSeconds(creationTimeMillis);
    assert 0 <= creationTimeMillis - secs * 1000 < 1000;
  }

  /** A kit made on 13 September 2020 (1600000000000 ms) dates its seed
      1600000000000, which `getShortWalletInfo` reports as seconds. */
  lemma NewWalletSeedExample(keys: Keys)
    ensures NewWallet(keys, 1600000000000).seedCreationSecs == 1600000000000
    ensures NewWalletIntended(keys, 1600000000000).seedCreationSecs == 1600000000
  {
  }

  /** startUp: create or load the wallet, open the block store named after the wallet
      file, then build the chain and the peer group and synchronise. `newKeys` is the
      random key material a new wallet gets; `loaded` is what loading the file yields. */
  function StartUpRun(isWalletNew: bool, walletFile: string, creationTime: int,
                      newKeys: Keys, loaded: Option<Wallet>, storeOk: bool): (run: StartRun)
    ensures isWalletNew ==> run.wallet == Some(NewWallet(newKeys, creationTime))
    ensures !isWalletNew ==> run.wallet == loaded
    ensures run.status == Done <==> run.wallet.Some? && StoreFileName(walletFile).Some? && storeOk
    ensures run.status == Done ==> run.store == Some(SpvBlockStore(StoreFileName(walletFile).value))
    ensures run.status != Done ==> run.store.None?
    ensures !isWalletNew && loaded.None? ==> run.status == Threw(UnreadableWallet)
  {
    var first := if isWalletNew then CreateWallet(NewWallet(newKeys, creationTime).seedCreationSecs) else LoadWallet(walletFile);
    var obtained := if isWalletNew then Some(NewWallet(newKeys, creationTime)) else loaded;
    var name := StoreFileName(walletFile);
    if obtained.None? then StartRun([first], None, None, Threw(UnreadableWallet))
    else if name.None? then StartRun([first], obtained, None, Threw(IndexOutOfBounds))
    else if !storeOk then StartRun([first, OpenBlockStore(name.value)], obtained, None, Threw(BlockStoreFailure))
    else StartRun([first, OpenBlockStore(name.value), StartPeerGroup, InstallShutdownHook, DownloadChain],
                  obtained, Some(SpvBlockStore(name.value)), Done)
  }

  /** The effects of startUp: a fresh wallet is created exactly when the kit is for
      a new wallet, and otherwise its file is loaded, once, first; the block store
      opened is the one named after the wallet file; the chain is downloaded last,
      and only when startUp returns. */
  lemma StartUpEffects(isWalletNew: bool, walletFile: string, creationTime: int,
                       newKeys: Keys, loaded: Option<Wallet>, storeOk: bool)
    ensures var run := StartUpRun(isWalletNew, walletFile, creationTime, newKeys, loaded, storeOk);
            |run.effects| > 0 &&
            (run.effects[0].CreateWallet? <==> isWalletNew) &&
            (run.effects[0] == LoadWallet(walletFile) <==> !isWalletNew) &&
            (forall i :: 0 < i < |run.effects| ==> !run.effects[i].CreateWallet? && !run.effects[i].LoadWallet?) &&
            (forall i :: 0 <= i < |run.effects| && run.effects[i].OpenBlockStore? ==>
               StoreFileName(walletFile) == Some(run.effects[i].file)) &&
            (DownloadChain in run.effects <==> run.status == Done) &&
            (run.status == Done ==> run.effects[|run.effects| - 1] == DownloadChain)
  {
    var run := StartUpRun(isWalletNew, walletFile, creationTime, newKeys, loaded, storeOk);
    var first := if isWalletNew then CreateWallet(NewWallet(newKeys, creationTime).seedCreationSecs) else LoadWallet(walletFile);
    var name := StoreFileName(walletFile);
    assert run.effects[0] == first;
    if run.status == Done {
      assert run.effects == [first, OpenBlockStore(name.value), StartPeerGroup, InstallShutdownHook, DownloadChain];
    } else {
      assert run.effects == [first] || run.effects == [first, OpenBlockStore(name.value)];
    }
  }

  /** A kit for a new wallet (file `creationTime + ".wallet"`) that starts up opens
      the block store `creationTime + ".spvchain"`. */
  lemma NewKitBlockStore(creationTime: int, newKeys: Keys, loaded: Option<Wallet>)
    ensures var run := StartUpRun(true, DecimalString(creationTime) + WalletSuffix, creationTime, newKeys, loaded, true);
            run.status == Done && run.store == Some(SpvBlockStore(DecimalString(creationTime) + StoreSuffix))
  {
    NewWalletStoreFileName(creationTime);
  }

  class SimpleWalletKit {
    const walletFile: string
    const isWalletNew: bool
    /** The wall-clock reading in milliseconds when the kit was made. */
    const creationTime: int

    var state: ServiceState
    var wallet: Option<Wallet>
    var blockStore: Option<BlockStore>
    var chain: Option<Chain>
    var peerGroup: Option<PeerGroup>
    /** Calls the kit made with an effect outside itself, oldest first. */
    var log: seq<Effect>
    /** Balance callbacks registered and not yet fired. */
    var retries: seq<Retry>

    /** All four subsystems are present and wired together. */
    predicate Open()
      reads this
    {
      wallet.Some? && blockStore.Some? && chain == Some(BlockChain(blockStore.value)) &&
      peerGroup == Some(PeerGroup(chain.value))
    }

    /** All four subsystem fields are null. */
    predicate Closed()
      reads this
    {
      wallet.None? && blockStore.None? && chain.None? && peerGroup.None?
    }

    ghost predicate Valid()
      reads this
    {
      (state == New ==> Closed() && log == [] && retries == []) &&
      (state == Running || state == Stopping ==> Open()) &&
      (state == Terminated ==> Closed())
    }

    /** The kit for a new wallet, whose file is named after the creation time. */
    constructor ForNewWallet(creationTime: int)
      ensures Valid() && state == New
      ensures isWalletNew && this.creationTime == creationTime
      ensures walletFile == DecimalString(creationTime) + WalletSuffix
    {
      this.creationTime := creationTime;
      walletFile := DecimalString(creationTime) + WalletSuffix;
      isWalletNew := true;
      state := New;
      wallet, blockStore, chain, peerGroup := None, None, None, None;
      log, retries := [], [];
    }

    /** The kit for an existing wallet file. */
    constructor ForWalletFile(walletFile: string, creationTime: int)
      ensures Valid() && state == New
      ensures !isWalletNew && this.walletFile == walletFile && this.creationTime == creationTime
    {
      this.creationTime := creationTime;
      this.walletFile := walletFile;
      isWalletNew := false;
      state := New;
      wallet, blockStore, chain, peerGroup := None, None, None, None;
      log, retries := [], [];
    }

    /** The accessor wallet(). */
    function GetWallet(): (r: Result<Option<Wallet>>)
      reads this
      ensures r.Ok? <==> state == Starting || state == Running
      ensures r.Ok? ==> r.value == wallet
    {
      Checked(state, wallet)
    }

    /** The accessor chain(). */
    function GetChain(): (r: Result<Option<Chain>>)
      reads this
      ensures r.Ok? <==> state == Starting || state == Running
      ensures r.Ok? ==> r.value == chain
    {
      Checked(state, chain)
    }

    /** The accessor store(). */
    function GetStore(): (r: Result<Option<BlockStore>>)
      reads this
      ensures r.Ok? <==> state == Starting || state == Running
      ensures r.Ok? ==> r.value == blockStore
    {
      Checked(state, blockStore)
    }

    /** The accessor peerGroup(). */
    function GetPeerGroup(): (r: Result<Option<PeerGroup>>)
      reads this
      ensures r.Ok? <==> state == Starting || state == Running
      ensures r.Ok? ==> r.value == peerGroup
    {
      Checked(state, peerGroup)
    }

    /** getBalance: the wallet's estimated balance. */
    function GetBalance(): (r: Result<int>)
      reads this
      ensures r.Ok? <==> AccessAllowed(state) && wallet.Some?
      ensures !AccessAllowed(state) ==> r == Err(IllegalState)
      ensures r.Ok? ==> r.value == wallet.value.estimated
    {
      match UsableWallet(state, wallet)
      case Err(e) => Err(e)
      case Ok(w) => Ok(w.estimated)
    }

    /** getTxInfo: what is reported about a transaction, the fee among it. */
    function GetTxInfo(tx: TxView): (r: Result<TxInfo>)
      reads this
      ensures r.Ok? <==> AccessAllowed(state) && wallet.Some?
      ensures !AccessAllowed(state) ==> r == Err(IllegalState)
      ensures r.Ok? ==> r.value.id == tx.id && r.value.depth == tx.depth &&
                        r.value.sentToMe == tx.sentToMe && r.value.sentFromMe == tx.sentFromMe
      ensures r.Ok? && tx.inputSum > 0 ==> r.value.fee == tx.inputSum - tx.outputSum
      ensures r.Ok? && tx.inputSum <= 0 ==> r.value.fee == 0
    {
      var fee := ReportedFee(tx.inputSum, tx.outputSum);
      match UsableWallet(state, wallet)
      case Err(e) => Err(e)
      case Ok(_) => Ok(TxInfo(tx.id, tx.sentToMe, tx.sentFromMe, fee, tx.depth))
    }

    /** getShortWalletInfo: mnemonic, seed creation time and current receive address. */
    function GetShortWalletInfo(): (r: Result<ShortInfo>)
      reads this
      ensures r.Ok? <==> AccessAllowed(state) && wallet.Some?
      ensures !AccessAllowed(state) ==> r == Err(IllegalState)
      ensures r.Ok? ==> r.value == ShortInfo(wallet.value.keys.mnemonic, wallet.value.seedCreationSecs,
                                             wallet.value.keys.receiveAddress)
    {
      match UsableWallet(state, wallet)
      case Err(e) => Err(e)
      case Ok(w) => Ok(ShortInfo(w.keys.mnemonic, w.seedCreationSecs, w.keys.receiveAddress))
    }

    /** startUp, run by the service while STARTING. A failure leaves the fields
        assigned so far in place. */
    method StartUp(newKeys: Keys, loaded: Option<Wallet>, storeOk: bool) returns (status: Status)
      requires Valid() && state == Starting
      modifies this`wallet, this`blockStore, this`chain, this`peerGroup, this`log
      ensures Valid()
      ensures var run := StartUpRun(isWalletNew, walletFile, creationTime, newKeys, loaded, storeOk);
              status == run.status && log == old(log) + run.effects &&
              wallet == (if run.wallet.Some? then run.wallet else old(wallet)) &&
              (status == Done ==> Open() && blockStore == run.store)
      ensures status != Done ==> blockStore == old(blockStore) && chain == old(chain) && peerGroup == old(peerGroup)
    {
      // The calls made so far, in order; they join the log when startUp ends.
      var steps: seq<Effect>;
      if isWalletNew {
        var w := NewWallet(newKeys, creationTime);
        steps := [CreateWallet(w.seedCreationSecs)];
        wallet := Some(w);
      } else {
        steps := [LoadWallet(walletFile)];
        if loaded.None? {
          log := log + steps;
          return Threw(UnreadableWallet);
        }
        wallet := loaded;
      }
      var name := StoreFileName(walletFile);
      if name.None? {
        log := log + steps;
        return Threw(IndexOutOfBounds);
      }
      steps := steps + [OpenBlockStore(name.value)];
      if !storeOk {
        log := log + steps;
        return Threw(BlockStoreFailure);
      }
      blockStore := Some(SpvBlockStore(name.value));
      chain := Some(BlockChain(blockStore.value));
      peerGroup := Some(PeerGroup(chain.value));
      steps := steps + [StartPeerGroup, InstallShutdownHook, DownloadChain];
      log := log + steps;
      status := Done;
    }

    /** shutDown, run by the service while STOPPING: stop the peers, close the
        store, save the wallet, then null all four fields. A failure escapes with
        the fields untouched. */
    method ShutDown(closeOk: bool, saveOk: bool) returns (status: Status)
      requires Valid() && state == Stopping
      modifies this`wallet, this`blockStore, this`chain, this`peerGroup, this`log
      ensures status == Done <==> closeOk && saveOk
      ensures status == Done ==> Closed() && log == old(log) + [StopPeerGroup, CloseBlockStore, SaveWallet(walletFile)]
      ensures !closeOk ==> status == Threw(IOFailure) && log == old(log) + [StopPeerGroup, CloseBlockStore]
      ensures closeOk && !saveOk ==>
                status == Threw(IOFailure) && log == old(log) + [StopPeerGroup, CloseBlockStore, SaveWallet(walletFile)]
      ensures status != Done ==> Open() && wallet == old(wallet) && blockStore == old(blockStore) &&
                                 chain == old(chain) && peerGroup == old(peerGroup)
    {
      log := log + [StopPeerGroup];
      log := log + [CloseBlockStore];
      if !closeOk {
        return Threw(IOFailure);
      }
      log := log + [SaveWallet(walletFile)];
      if !saveOk {
        return Threw(IOFailure);
      }
      peerGroup := None;
      wallet := None;
      blockStore := None;
      chain := None;
      status := Done;
    }

    /** startAsync followed by the service running startUp: RUNNING when startUp
        returns, FAILED when it throws. Only a NEW service can be started. */
    method StartAsync(newKeys: Keys, loaded: Option<Wallet>, storeOk: bool) returns (status: Status)
      requires Valid()
      modifies this
      ensures Valid()
      ensures old(state) != New ==> status == Threw(IllegalState) && state == old(state) && log == old(log) &&
                                    wallet == old(wallet) && blockStore == old(blockStore) &&
                                    chain == old(chain) && peerGroup == old(peerGroup)
      ensures old(state) == New ==>
                var run := StartUpRun(isWalletNew, walletFile, creationTime, newKeys, loaded, storeOk);
                status == Done && log == run.effects && wallet == run.wallet &&
                state == (if run.status == Done then Running else Failed) &&
                (state == Running ==> Open() && blockStore == run.store) &&
                (state == Failed ==> blockStore.None? && chain.None? && peerGroup.None?)
      ensures retries == old(retries)
    {
      if state != New {
        return Threw(IllegalState);
      }
      state := Starting;
      var started := StartUp(newKeys, loaded, storeOk);
      state := if started == Done then Running else Failed;
      status := Done;
    }

    /** stopAsync followed by the service stopping: a NEW service terminates at
        once; a RUNNING one runs shutDown and ends TERMINATED, or FAILED when
        shutDown throws; in any other state nothing happens. */
    method StopAsync(closeOk: bool, saveOk: bool)
      requires Valid()
      modifies this
      ensures Valid()
      ensures old(state) == New ==> state == Terminated && Closed() && log == old(log)
      ensures old(state) == Running ==>
                log == old(log) + (if closeOk then [StopPeerGroup, CloseBlockStore, SaveWallet(walletFile)]
                                   else [StopPeerGroup, CloseBlockStore]) &&
                (closeOk && saveOk ==> state == Terminated && Closed()) &&
                (!(closeOk && saveOk) ==> state == Failed && Open() && wallet == old(wallet) &&
                                          blockStore == old(blockStore) && chain == old(chain) &&
                                          peerGroup == old(peerGroup))
      ensures old(state) != New && old(state) != Running ==>
                state == old(state) && log == old(log) && wallet == old(wallet) && blockStore == old(blockStore) &&
                chain == old(chain) && peerGroup == old(peerGroup)
      ensures retries == old(retries)
    {
      if state == New {
        state := Terminated;
      } else if state == Running {
        state := Stopping;
        var stopped := ShutDown(closeOk, saveOk);
        state := if stopped == Done then Terminated else Failed;
      }
    }

    /** forwardCoins: spend the first unspent output to `to`, or register a
        callback that tries again once money arrives. */
    method ForwardCoins(to: Address, amount: int, completion: Completion, saveOk: bool) returns (outcome: ForwardOutcome)
      requires Valid()
      modifies this`log, this`retries
      ensures Valid()
      ensures var run := Forward(state, wallet, walletFile, to, amount, completion, saveOk);
              outcome == run.outcome && log == old(log) + run.effects
      ensures retries == old(retries) + (if outcome == RetryRegistered then [Retry(to, amount, amount)] else [])
    {
      var w := GetWallet();
      if w.Err? {
        return Escaped(w.failure);
      }
      if w.value.None? {
        return Escaped(NullPointer);
      }
      var unspents := w.value.value.unspents;
      if |unspents| == 0 {
        return Escaped(IndexOutOfBounds);
      }
      var request := SendRequest([unspents[0]], [], 0);
      request := request.(outputs := request.outputs + [Payment(to, amount)]);
      request := request.(feePerKb := 3 * ReferenceDefaultMinTxFee);
      assert request == ForwardRequest(unspents[0], to, amount);
      // Each exit below logs, in order, the calls made on its path.
      match completion {
        case CompletionFails =>
          log := log + [CompleteTx(request)];
          return Escaped(CompletionFailure);
        case InsufficientMoney =>
          var retry := Retry(to, amount, amount);
          log := log + [CompleteTx(request), RegisterRetry(retry)];
          retries := retries + [retry];
          return RetryRegistered;
        case Completes =>
      }
      if !saveOk {
        log := log + [CompleteTx(request), CommitTx, SaveWallet(walletFile)];
        return SaveFailed;
      }
      log := log + [CompleteTx(request), CommitTx, SaveWallet(walletFile), BroadcastTx];
      outcome := Broadcast;
    }

    /** The balance callback `retries[k]` firing: bitcoinj completes it once the
        wallet's available balance has reached its threshold, and it calls
        forwardCoins again with the same arguments. A callback fires once and is gone. */
    method FireRetry(k: nat, completion: Completion, saveOk: bool) returns (outcome: ForwardOutcome)
      requires Valid() && k < |retries| && wallet.Some? && wallet.value.available >= retries[k].threshold
      modifies this`log, this`retries
      ensures Valid()
      ensures var r := old(retries[k]);
              var run := Forward(state, wallet, walletFile, r.to, r.amount, completion, saveOk);
              outcome == run.outcome && log == old(log) + run.effects &&
              retries == old(retries[..k] + retries[k + 1..]) +
                         (if outcome == RetryRegistered then [Retry(r.to, r.amount, r.amount)] else [])
    {
      var r := retries[k];
      retries := retries[..k] + retries[k + 1..];
      outcome := ForwardCoins(r.to, r.amount, completion, saveOk);
    }

    /** bitcoinj changing the wallet object the kit holds (coins received, a
        transaction committed, confidence changes). */
    method ApplyWalletChange(w: Wallet)
      requires Valid() && wallet.Some?
      modifies this`wallet
      ensures Valid() && wallet == Some(w)
    {
      wallet := Some(w);
    }
  }
}
