/** One shop item's card (src/components/TrainerCard.tsx): the mint handler steps the
    minting status idle -> processing (10, 30, 80) -> completed (100) or failed (0), and the
    reset button brings it back to idle. The wallet session is read, not changed. */
module TrainerCard {
  import opened JsBuiltins
  import opened Types
  import opened Wallet
  import opened WalletContext
  import opened MintingService

  const PreparingText := "Preparing delegate inscription..."
  const CreatingText := "Creating inscription via UniSat API..."
  const ConfirmedText := "Payment confirmed! Waiting for inscription..."
  const MintedText := "Successfully minted!"
  const MintFailedText := "Minting failed"

  function IdleStatus(): MintingStatus
  {
    MintingStatus(Idle, 0, None, None, None, None, None)
  }

  function ProcessingStatus(progress: int, message: string): MintingStatus
  {
    MintingStatus(Processing, progress, None, None, None, Some(message), None)
  }

  /** The status after the service returned. */
  function CompletedStatus(result: MintResult): (s: MintingStatus)
    ensures s.status == Completed && s.progress == 100 && s.error.None?
    ensures s.inscriptionId == Some(result.inscriptionId) && s.txid == result.txid
            && s.paymentTxid == Some(result.paymentTxid)
  {
    MintingStatus(Completed, 100, Some(result.inscriptionId), result.txid, Some(result.paymentTxid), Some(MintedText), None)
  }

  /** The status after anything in the attempt threw. */
  function FailedStatus(message: string): (s: MintingStatus)
    ensures s.status == Failed && s.progress == 0 && s.error.Some? && s.error.value != ""
    ensures message != "" ==> s.error == Some(message)
  {
    MintingStatus(Failed, 0, None, None, None, None, Some(if message != "" then message else MintFailedText))
  }

  function FinalStatus(outcome: Result<MintResult>): MintingStatus
  {
    if outcome.Ok? then CompletedStatus(outcome.value) else FailedStatus(outcome.message)
  }

  /** What the card shows and whether it is minting, after each state write. */
  datatype Snapshot = Snapshot(status: MintingStatus, isMinting: bool)

  /** The successive writes of one mint attempt that passed the guard. */
  function MintTrace(prev: MintingStatus, outcome: Result<MintResult>): (t: seq<Snapshot>)
    ensures |t| == if outcome.Ok? then 6 else 5
    ensures t[0] == Snapshot(prev, true)
    ensures forall i :: 0 <= i < |t| - 1 ==> t[i].isMinting
    ensures t[|t| - 1] == Snapshot(FinalStatus(outcome), false)
    ensures t[|t| - 2].status == FinalStatus(outcome)
  {
    StartTrace(prev) + EndTrace(outcome)
  }

  /** The writes before the service is called. */
  function StartTrace(prev: MintingStatus): seq<Snapshot>
  {
    [Snapshot(prev, true), Snapshot(ProcessingStatus(10, PreparingText), true),
     Snapshot(ProcessingStatus(30, CreatingText), true)]
  }

  /** The writes after the service returned or threw. */
  function EndTrace(outcome: Result<MintResult>): seq<Snapshot>
  {
    (if outcome.Ok? then [Snapshot(ProcessingStatus(80, ConfirmedText), true)] else [])
    + [Snapshot(FinalStatus(outcome), true), Snapshot(FinalStatus(outcome), false)]
  }

  ghost predicate NeverPending(log: seq<Snapshot>)
  {
    forall i :: 0 <= i < |log| ==> log[i].status.status != Pending
  }

  /** An attempt that starts from a shown status never shows 'pending', and neither does a
      history extended by it. */
  lemma TraceNeverPending(history: seq<Snapshot>, prev: MintingStatus, outcome: Result<MintResult>)
    requires NeverPending(history) && prev.status != Pending
    ensures NeverPending(history + MintTrace(prev, outcome))
  {
  }

  /** handleMint's guard: no connection, or no first account. */
  function MintBlocked(wallet: WalletState): (blocked: bool)
    ensures Coherent(wallet) ==> (blocked <==> !wallet.connected)
    ensures !wallet.connected ==> blocked
  {
    !wallet.connected || |wallet.accounts| == 0
  }

  /** `walletState.walletType as 'unisat' | 'xverse'`: anything but 'xverse' takes the UniSat path. */
  function PaymentWallet(wallet: WalletState): WalletKind
  {
    if wallet.walletType == Some(Xverse) then Xverse else Unisat
  }

  /** The first account whose purpose is 'ordinals'. */
  function FindOrdinals(accounts: seq<WalletAccount>): (r: Option<WalletAccount>)
    ensures r.None? <==> forall i :: 0 <= i < |accounts| ==> accounts[i].purpose != Some(Ordinals)
    ensures r.Some? ==> exists i :: 0 <= i < |accounts| && accounts[i] == r.value && accounts[i].purpose == Some(Ordinals)
                          && forall j :: 0 <= j < i ==> accounts[j].purpose != Some(Ordinals)
  {
    if |accounts| == 0 then None
    else if accounts[0].purpose == Some(Ordinals) then Some(accounts[0])
    else
      var r := FindOrdinals(accounts[1..]);
      assert forall i :: 1 <= i < |accounts| ==> accounts[i] == accounts[1..][i - 1];
      r
  }

  /** The inscription goes to the first ordinals account's address, else to the first account. */
  function RecipientOf(accounts: seq<WalletAccount>): (r: string)
    requires |accounts| > 0
    ensures var o := FindOrdinals(accounts);
            r == if o.Some? && o.value.address != "" then o.value.address else accounts[0].address
  {
    var ordinalsAccount := FindOrdinals(accounts);
    if ordinalsAccount.Some? && ordinalsAccount.value.address != "" then ordinalsAccount.value.address
    else accounts[0].address
  }

  /** The mint button's `disabled`. */
  function MintDisabled(isMinting: bool, connected: bool): (disabled: bool)
    ensures isMinting ==> disabled
    ensures !isMinting ==> (disabled <==> !connected)
  {
    isMinting || !connected
  }

  /** The reset button replaces the action buttons exactly when the attempt has ended. */
  predicate ResetOffered(status: MintingStatus)
  {
    status.status == Completed || status.status == Failed
  }

  class TrainerCard {
    var feeRate: int
    var isMinting: bool
    var mintingStatus: MintingStatus
    var showMintPanel: bool
    /** Every state the card has shown, oldest first. */
    ghost var log: seq<Snapshot>

    /** Between handler runs the card is not minting, and 'pending' is never shown. */
    ghost predicate Valid()
      reads this
    {
      && !isMinting
      && mintingStatus.status != Pending
      && NeverPending(log)
    }

    constructor ()
      ensures feeRate == 10 && !isMinting && mintingStatus == IdleStatus() && !showMintPanel && log == []
      ensures Valid()
    {
      feeRate := 10;
      isMinting := false;
      mintingStatus := IdleStatus();
      showMintPanel := false;
      log := [];
    }

    /** handleMint. Returns the form uploaded to the backend (None when the guard stops the
        attempt) and the wallet calls made. */
    method HandleMint(wallet: WalletState, trainer: TrainerItem, now: nat, response: InscribeResponse,
                      unisat: UnisatPayEnv, xverse: XverseTransferReply)
      returns (form: Option<InscribeForm>, calls: seq<WalletCall>)
      requires Valid()
      modifies this
      ensures Valid()
      ensures feeRate == old(feeRate) && showMintPanel == old(showMintPanel)
      ensures MintBlocked(wallet) ==>
                mintingStatus == old(mintingStatus) && log == old(log) && form.None? && calls == []
      ensures !MintBlocked(wallet) ==>
                var (outcome, paid) := MintOutcome(trainer.price, PaymentWallet(wallet), response, unisat, xverse);
                && form == Some(Form(trainer.name, RecipientOf(wallet.accounts), feeRate, now))
                && calls == paid
                && mintingStatus == FinalStatus(outcome)
                && log == old(log) + MintTrace(old(mintingStatus), outcome)
    {
      if !wallet.connected || |wallet.accounts| == 0 {
        return None, [];
      }
      ghost var before := mintingStatus;
      var recipientAddress := StartAttempt(wallet.accounts);
      var uploaded, result;
      uploaded, result, calls := MintTrainerDelegate(trainer.inscriptionId, trainer.name, recipientAddress, feeRate,
                                                     PaymentWallet(wallet), trainer.price, now, response, unisat, xverse);
      form := Some(uploaded);
      EndAttempt(result);
      TraceNeverPending(old(log), before, result);
    }

    /** The synchronous part of handleMint after the guard: minting starts, the status moves
        to 10 and then 30, and the recipient is chosen. */
    method StartAttempt(accounts: seq<WalletAccount>) returns (recipientAddress: string)
      requires |accounts| > 0
      modifies this
      ensures recipientAddress == RecipientOf(accounts)
      ensures isMinting && mintingStatus == ProcessingStatus(30, CreatingText)
      ensures log == old(log) + StartTrace(old(mintingStatus))
      ensures feeRate == old(feeRate) && showMintPanel == old(showMintPanel)
    {
      isMinting := true;
      log := log + [Snapshot(mintingStatus, isMinting)];
      mintingStatus := ProcessingStatus(10, PreparingText);
      log := log + [Snapshot(mintingStatus, isMinting)];

      recipientAddress := RecipientOf(accounts);
      mintingStatus := ProcessingStatus(30, CreatingText);
      log := log + [Snapshot(mintingStatus, isMinting)];
    }

    /** The rest of handleMint once the service has answered: 80 then completed, or failed;
        minting stops in both cases. */
    method EndAttempt(result: Result<MintResult>)
      requires isMinting
      modifies this
      ensures !isMinting && mintingStatus == FinalStatus(result)
      ensures log == old(log) + EndTrace(result)
      ensures feeRate == old(feeRate) && showMintPanel == old(showMintPanel)
    {
      if result.Ok? {
        mintingStatus := ProcessingStatus(80, ConfirmedText);
        log := log + [Snapshot(mintingStatus, isMinting)];
        mintingStatus := CompletedStatus(result.value);
        log := log + [Snapshot(mintingStatus, isMinting)];
      } else {
        mintingStatus := FailedStatus(result.message);
        log := log + [Snapshot(mintingStatus, isMinting)];
      }
      isMinting := false;
      log := log + [Snapshot(mintingStatus, isMinting)];
    }

    /** resetMintingStatus */
    method Reset()
      requires Valid()
      modifies this
      ensures Valid()
      ensures mintingStatus == IdleStatus() && !showMintPanel
      ensures feeRate == old(feeRate) && log == old(log) + [Snapshot(IdleStatus(), false)]
    {
      mintingStatus := IdleStatus();
      log := log + [Snapshot(mintingStatus, isMinting)];
      showMintPanel := false;
    }

    /** The 'MINT NOW' button. */
    method OpenMintPanel()
      requires Valid()
      modifies this
      ensures Valid() && showMintPanel
      ensures feeRate == old(feeRate) && mintingStatus == old(mintingStatus) && log == old(log)
    {
      showMintPanel := true;
    }

    /** The 'Cancel' button, disabled while minting. */
    method CancelMintPanel()
      requires Valid()
      modifies this
      ensures Valid() && !showMintPanel
      ensures feeRate == old(feeRate) && mintingStatus == old(mintingStatus) && log == old(log)
    {
      showMintPanel := false;
    }

    /** The fee selector's onFeeRateChange. */
    method SetFeeRate(rate: int)
      requires Valid()
      modifies this
      ensures Valid() && feeRate == rate
      ensures mintingStatus == old(mintingStatus) && showMintPanel == old(showMintPanel) && log == old(log)
    {
      feeRate := rate;
    }
  }

  // ---------------------------------------------------------------- what the card promises

  /** A successful attempt shows progress 10, 30, 80 and 100, ends completed with the
      service's ids, and is minting up to its last write. */
  lemma {:induction false} SuccessfulTrace(prev: MintingStatus, result: MintResult)
    ensures var t := MintTrace(prev, Ok(result));
            && |t| == 6
            && t[1].status.progress == 10 && t[2].status.progress == 30 && t[3].status.progress == 80
            && t[4].status.progress == 100 && t[5].status == t[4].status
            && (forall i :: 1 <= i < 4 ==> t[i].status.status == Processing)
            && t[5].status.status == Completed
            && t[5].status.inscriptionId == Some(result.inscriptionId)
            && t[5].status.txid == result.txid && t[5].status.paymentTxid == Some(result.paymentTxid)
            && (forall i :: 0 <= i < 5 ==> t[i].isMinting) && !t[5].isMinting
  {
  }

  /** A failed attempt ends failed at progress 0 with the thrown message, or 'Minting
      failed' when it had none, and is minting up to its last write. */
  lemma {:induction false} FailedTrace(prev: MintingStatus, message: string)
    ensures var t := MintTrace(prev, Err(message));
            && |t| == 5
            && t[1].status.progress == 10 && t[2].status.progress == 30
            && t[4].status.status == Failed && t[4].status.progress == 0
            && t[4].status.error == Some(if message != "" then message else MintFailedText)
            && (forall i :: 0 <= i < 4 ==> t[i].isMinting) && !t[4].isMinting
  {
  }

  /** When the mint button is enabled on a coherent session, the handler's guard lets the
      attempt through; a disconnected session keeps the button disabled. */
  lemma EnabledMintPassesGuard(wallet: WalletState, isMinting: bool)
    requires Coherent(wallet)
    ensures !MintDisabled(isMinting, wallet.connected) ==> !MintBlocked(wallet)
    ensures !wallet.connected ==> MintDisabled(isMinting, wallet.connected) && MintBlocked(wallet)
  {
  }

  /** Every attempt that passed the guard ends where the reset button is offered, and the
      reset leaves a state where it is not. */
  lemma AttemptEndsResettable(outcome: Result<MintResult>)
    ensures ResetOffered(FinalStatus(outcome))
    ensures !ResetOffered(IdleStatus())
  {
  }

  /** An Xverse session lists its ordinals account first, so that is where the item goes. */
  lemma RecipientIsOrdinalsAccount(ordinals: XverseAddress, rest: seq<WalletAccount>)
    requires ordinals.address != ""
    ensures RecipientOf([AccountFor(ordinals, Ordinals)] + rest) == ordinals.address
  {
  }

  /** A UniSat session has no purposes, so the item goes to its first account. */
  lemma RecipientOfBareAccounts(addresses: seq<string>)
    requires |addresses| > 0
    ensures RecipientOf(BareAccounts(addresses)) == addresses[0]
  {
    assert FindOrdinals(BareAccounts(addresses)).None?;
  }
}
