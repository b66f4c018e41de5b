/** The example program: it picks the wallet from its command line, starts a
    SimpleWalletKit, and from then on reacts to the wallet's events. The first
    depth-1 confirmation of an incoming transaction forwards 546 satoshi to a
    fixed address; later ones forward again only in loop mode. Confirmations of
    outgoing transactions are only reported. */
module ExampleWallet {

  import opened Outcomes
  import opened FileNames
  import opened WalletKit

  const TestWalletFile := "testnet_.wallet"
  const NewFlag := "-new"
  const LoopFlag := "-loop"

  /** The single destination of every forward (a testnet address). */
  const ForwardingAddress: Address := "tb1qerzrlxcfu24davlur5sqmgzzgsal6wusda40er"

  /** The amount of every forward, in satoshi. */
  const AmountToSend := 546

  /** Where the kit gets its wallet from. */
  datatype WalletSource = LoadFile(path: string) | CreateNew

  /** The first argument: none loads the test wallet file, exactly "-new" creates
      a new wallet, anything else (even "-loop") is a wallet file path. */
  function SelectSource(args: seq<string>): (src: WalletSource)
    ensures src == CreateNew <==> |args| > 0 && args[0] == NewFlag
    ensures |args| == 0 ==> src == LoadFile(TestWalletFile)
    ensures |args| > 0 && args[0] != NewFlag ==> src == LoadFile(args[0])
  {
    if |args| == 0 then LoadFile(TestWalletFile)
    else if args[0] == NewFlag then CreateNew
    else LoadFile(args[0])
  }

  /** Loop mode: a second argument exactly equal to "-loop". */
  function LoopMode(args: seq<string>): (on: bool)
    ensures on ==> |args| >= 2
    ensures |args| >= 2 ==> (on <==> args[1] == LoopFlag)
  {
    |args| > 1 && args[1] == LoopFlag
  }

  /** One depth-1 confirmation of an incoming transaction, as the handler meets it:
      whether reporting the transaction succeeded, and whether a forwardCoins call
      made for it would return normally. */
  datatype Confirmation = Confirmation(infoOk: bool, forwardReturns: bool)

  /** The handler's reaction: whether it calls forwardCoins, and the flag afterwards. */
  datatype Decision = Decision(forwards: bool, needToSend: bool)

  /** The forwarding policy for one confirmation. The flag is cleared only after a
      forward returns normally; a report that throws ends the handler first. */
  function Decide(needToSend: bool, loop: bool, c: Confirmation): (d: Decision)
    ensures d.forwards <==> c.infoOk && (needToSend || loop)
    ensures d.needToSend <==> needToSend && !(c.infoOk && c.forwardReturns)
  {
    if !c.infoOk then Decision(false, needToSend)
    else if needToSend then Decision(true, !c.forwardReturns)
    else Decision(loop, false)
  }

  /** Totals over a stream of confirmations: forwardCoins calls, calls that
      returned normally, and the flag at the end. */
  datatype Tally = Tally(forwards: nat, returned: nat, needToSend: bool)

  /** The policy applied to confirmations delivered one at a time. */
  function Replay(needToSend: bool, loop: bool, cs: seq<Confirmation>): (t: Tally)
    ensures t.returned <= t.forwards <= |cs|
    ensures !needToSend ==> !t.needToSend
    decreases |cs|
  {
    if cs == [] then Tally(0, 0, needToSend)
    else
      var d := Decide(needToSend, loop, cs[0]);
      var rest := Replay(d.needToSend, loop, cs[1..]);
      Tally(rest.forwards + (if d.forwards then 1 else 0),
            rest.returned + (if d.forwards && cs[0].forwardReturns then 1 else 0),
            rest.needToSend)
  }

  /** The number of confirmations whose report succeeded. */
  function Reported(cs: seq<Confirmation>): (n: nat)
    ensures n <= |cs|
    decreases |cs|
  {
    if cs == [] then 0 else (if cs[0].infoOk then 1 else 0) + Reported(cs[1..])
  }

  predicate Nominal(cs: seq<Confirmation>) {
    forall i :: 0 <= i < |cs| ==> cs[i].infoOk && cs[i].forwardReturns
  }

  /** Once the flag is clear and loop mode is off, nothing is forwarded again. */
  lemma {:induction false} ReplayQuietOnceCleared(cs: seq<Confirmation>)
    ensures Replay(false, false, cs) == Tally(0, 0, false)
    decreases |cs|
  {
    if cs != [] {
      ReplayQuietOnceCleared(cs[1..]);
    }
  }

  /** Loop mode off: of n >= 1 confirmations that all go well, exactly one forwards. */
  lemma ReplayOnceWithoutLoop(cs: seq<Confirmation>)
    requires |cs| >= 1 && Nominal(cs)
    ensures Replay(true, false, cs) == Tally(1, 1, false)
  {
    ReplayQuietOnceCleared(cs[1..]);
  }

  /** Loop mode on: every confirmation whose report succeeds forwards, whatever the flag. */
  lemma {:induction false} ReplayEveryWithLoop(needToSend: bool, cs: seq<Confirmation>)
    ensures Replay(needToSend, true, cs).forwards == Reported(cs)
    decreases |cs|
  {
    if cs != [] {
      var d := Decide(needToSend, true, cs[0]);
      ReplayEveryWithLoop(d.needToSend, cs[1..]);
    }
  }

  /** Loop mode on: of n confirmations that all go well, all n forward. */
  lemma {:induction false} ReplayNWithLoop(cs: seq<Confirmation>)
    requires Nominal(cs)
    ensures Replay(true, true, cs).forwards == |cs|
    decreases |cs|
  {
    ReplayEveryWithLoop(true, cs);
    ReportedAll(cs);
  }

  lemma {:induction false} ReportedAll(cs: seq<Confirmation>)
    requires Nominal(cs)
    ensures Reported(cs) == |cs|
    decreases |cs|
  {
    if cs != [] {
      ReportedAll(cs[1..]);
    }
  }

  /** Loop mode off: at most one forward returns normally, however the stream goes. */
  lemma {:induction false} ReplayAtMostOneWithoutLoop(needToSend: bool, cs: seq<Confirmation>)
    ensures Replay(needToSend, false, cs).returned <= (if needToSend then 1 else 0)
    decreases |cs|
  {
    if cs != [] {
      var d := Decide(needToSend, false, cs[0]);
      ReplayAtMostOneWithoutLoop(d.needToSend, cs[1..]);
    }
  }

  /** The flag is still set at the end exactly when it was set at the start and no
      forward returned normally; so after a forward that throws, the next
      confirmation is again handled as the first. */
  lemma {:induction false} ReplayFlagCleared(needToSend: bool, loop: bool, cs: seq<Confirmation>)
    ensures Replay(needToSend, loop, cs).needToSend <==>
            needToSend && forall i :: 0 <= i < |cs| ==> !(cs[i].infoOk && cs[i].forwardReturns)
    decreases |cs|
  {
    if cs != [] {
      var d := Decide(needToSend, loop, cs[0]);
      ReplayFlagCleared(d.needToSend, loop, cs[1..]);
      assert forall i :: 1 <= i < |cs| ==> cs[i] == cs[1..][i - 1];
    }
  }

  /** What the program prints, line by line, in its own terms. */
  datatype Line =
    | WalletInfo(summary: ShortInfo)
    | ConfirmationReceived
    | TxReport(info: TxInfo)
    | WaitingForConfirm
    | Confirmed(id: nat)

  /** The running program: the kit, the arguments the callbacks consult, and the
      forwarding flag (a static field of the program, set at class load). */
  class App {
    const args: seq<string>
    const kit: SimpleWalletKit
    var needToSend: bool
    var out: seq<Line>

    ghost predicate Valid()
      reads this, kit
    {
      kit.Valid()
    }

    constructor (args: seq<string>, kit: SimpleWalletKit, out: seq<Line>)
      requires kit.Valid()
      ensures Valid() && this.args == args && this.kit == kit && needToSend && this.out == out
    {
      this.args := args;
      this.kit := kit;
      needToSend := true;
      this.out := out;
    }

    /** The depth-1 callback of an incoming transaction: report it, then forward
        if this is the first forward still owed, or in loop mode. `completion` and
        `saveOk` say what bitcoinj does inside a forward. */
    method OnIncomingConfirmed(tx: TxView, completion: Completion, saveOk: bool) returns (forwarded: Option<ForwardOutcome>)
      requires Valid()
      modifies this`needToSend, this`out, kit`log, kit`retries
      ensures Valid()
      ensures var run := Forward(kit.state, kit.wallet, kit.walletFile, ForwardingAddress, AmountToSend, completion, saveOk);
              var c := Confirmation(old(kit.GetTxInfo(tx)).Ok?, !run.outcome.Escaped?);
              var d := Decide(old(needToSend), LoopMode(args), c);
              needToSend == d.needToSend &&
              (forwarded.Some? <==> d.forwards) &&
              (d.forwards ==> forwarded == Some(run.outcome) && kit.log == old(kit.log) + run.effects) &&
              (!d.forwards ==> kit.log == old(kit.log) && kit.retries == old(kit.retries))
      ensures kit.retries == old(kit.retries) +
                (if forwarded == Some(RetryRegistered) then [Retry(ForwardingAddress, AmountToSend, AmountToSend)] else [])
      ensures old(kit.GetTxInfo(tx)).Ok? ==> out == old(out) + [ConfirmationReceived, TxReport(old(kit.GetTxInfo(tx)).value)]
      ensures old(kit.GetTxInfo(tx)).Err? ==> out == old(out) + [ConfirmationReceived]
    {
      out := out + [ConfirmationReceived];
      var info := kit.GetTxInfo(tx);
      if info.Err? {
        return None;
      }
      out := out + [TxReport(info.value)];
      if needToSend {
        var outcome := kit.ForwardCoins(ForwardingAddress, AmountToSend, completion, saveOk);
        forwarded := Some(outcome);
        if !outcome.Escaped? {
          needToSend := false;
        }
      } else if |args| > 1 && args[1] == LoopFlag {
        var outcome := kit.ForwardCoins(ForwardingAddress, AmountToSend, completion, saveOk);
        forwarded := Some(outcome);
      } else {
        forwarded := None;
      }
    }

    /** The coins-sent listener: report the transaction and watch for its first
        confirmation. It never forwards and leaves the flag alone; when the report
        throws, no watch is registered. */
    method OnCoinsSent(tx: TxView) returns (watching: bool)
      requires Valid()
      modifies this`out
      ensures Valid()
      ensures watching <==> kit.GetTxInfo(tx).Ok?
      ensures watching ==> out == old(out) + [WaitingForConfirm, TxReport(kit.GetTxInfo(tx).value)]
      ensures !watching ==> out == old(out) + [WaitingForConfirm]
    {
      out := out + [WaitingForConfirm];
      var info := kit.GetTxInfo(tx);
      watching := info.Ok?;
      if watching {
        out := out + [TxReport(info.value)];
      }
    }

    /** The depth-1 callback of an outgoing transaction: it only reports. */
    method OnOutgoingConfirmed(tx: TxView)
      requires Valid()
      modifies this`out
      ensures Valid()
      ensures out == old(out) + [Confirmed(tx.id)]
    {
      out := out + [Confirmed(tx.id)];
    }
  }

  /** The program's start: choose the wallet from the arguments, start the kit and
      wait until it runs, print the wallet summary and install the callbacks. No
      app results (null) when the kit fails to start, where awaitRunning throws.
      `creationTime` is the clock reading, `newKeys` the random key material of a
      new wallet, `loaded` what reading a wallet file gives, `storeOk` whether the
      block store opens. */
  method LaunchApp(args: seq<string>, creationTime: int, newKeys: Keys, loaded: Option<Wallet>, storeOk: bool)
    returns (app: App?)
    ensures app != null ==> fresh(app) && fresh(app.kit) && app.Valid() && app.args == args && app.needToSend
    ensures app != null ==>
              var kit := app.kit;
              (kit.isWalletNew <==> SelectSource(args) == CreateNew) &&
              (kit.isWalletNew ==> kit.walletFile == DecimalString(creationTime) + WalletSuffix) &&
              (!kit.isWalletNew ==> kit.walletFile == SelectSource(args).path) &&
              var run := StartUpRun(kit.isWalletNew, kit.walletFile, creationTime, newKeys, loaded, storeOk);
              kit.creationTime == creationTime && kit.state == Running && kit.Open() &&
              kit.log == run.effects && kit.wallet == run.wallet && kit.blockStore == run.store && kit.retries == [] &&
              app.out == [WalletInfo(kit.GetShortWalletInfo().value)]
    ensures app == null <==>
              var src := SelectSource(args);
              var file := if src == CreateNew then DecimalString(creationTime) + WalletSuffix else src.path;
              StartUpRun(src == CreateNew, file, creationTime, newKeys, loaded, storeOk).status != Done
  {
    var src := SelectSource(args);
    var kit: SimpleWalletKit;
    if src == CreateNew {
      kit := new SimpleWalletKit.ForNewWallet(creationTime);
    } else {
      kit := new SimpleWalletKit.ForWalletFile(src.path, creationTime);
    }
    var _ := kit.StartAsync(newKeys, loaded, storeOk);
    if kit.state != Running {
      return null;
    }
    var info := kit.GetShortWalletInfo();
    app := new App(args, kit, [WalletInfo(info.value)]);
  }
}
