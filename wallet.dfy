/** The wallet adapter (src/utils/wallet.ts): connecting UniSat and Xverse, reading UniSat's
    accounts, and paying several recipients. The browser extensions and the `sats-connect`
    module are not modelled; what they answer is an input. */
module Wallet {
  import opened JsBuiltins
  import opened Types

  const RejectedText := "Connection " + "rejected" + ". Please approve the connection request."
  const PaymentCancelledText := "Payment was cancelled. Please approve the transaction."
  const SatsPerBtc: real := 100000000.0

  const UnisatApiMissingText := "UniSat Wallet is detected but the connection API is not available."
  const NoAccountsText := "No accounts returned. Please unlock your UniSat Wallet and try again."
  const SwitchNetworkText := "Please switch to Bitcoin Mainnet in your UniSat Wallet."
  const LoadFailedPrefix := "Failed to load sats-connect: "
  const SatsConnectMissingText := "sats-connect could not be loaded."
  const XverseCancelledText := "Connection cancelled by user."
  const XverseConnectFailedText := "Failed to connect to Xverse Wallet"
  const NoAddressesText := "No addresses returned from Xverse Wallet"
  const NoValidAddressesText := "No valid addresses found."

  // ================================================================ UniSat connect

  datatype UnisatNetworkAnswer = AnswerLivenet | AnswerTestnet | NetworkThrew(message: string)

  /** What `window.unisat` does when asked to connect. */
  datatype UnisatConnectReply =
    | UnisatAbsent                                          // window.unisat undefined
    | RequestAccountsMissing                                // requestAccounts is not a function
    | RequestAccountsThrew(message: string)                 // e.g. the user closed the prompt
    | AccountsGranted(addresses: seq<string>, network: UnisatNetworkAnswer)

  /** The catch block of connectUnisat: only 'User rejected' is rewritten. */
  function UnisatConnectError(message: string): (r: string)
    ensures r != ""
    ensures Contains(message, "User rejected") ==> r == RejectedText
    ensures !Contains(message, "User rejected") && message != "" ==> r == message
  {
    if Contains(message, "User rejected") then RejectedText
    else if message != "" then message
    else "Error connecting to UniSat Wallet."
  }

  /** `accounts.map(addr => ({ address: addr }))`: bare accounts, one per address, in order. */
  function BareAccounts(addresses: seq<string>): (r: seq<WalletAccount>)
    ensures |r| == |addresses|
    ensures forall i :: 0 <= i < |r| ==> r[i] == WalletAccount(addresses[i], None, None)
  {
    seq(|addresses|, i requires 0 <= i < |addresses| => WalletAccount(addresses[i], None, None))
  }

  function ConnectUnisat(reply: UnisatConnectReply): (r: Result<seq<WalletAccount>>)
    ensures r.Ok? <==> reply.AccountsGranted? && |reply.addresses| > 0 && reply.network == AnswerLivenet
    ensures r.Ok? ==> |r.value| == |reply.addresses| && |r.value| > 0
    ensures r.Ok? ==> forall i :: 0 <= i < |r.value| ==>
              r.value[i].address == reply.addresses[i] && r.value[i].publicKey.None? && r.value[i].purpose.None?
    ensures r.Err? ==> r.message != ""
  {
    match reply
    case UnisatAbsent =>
      Err("UniSat Wallet is not installed. Please install the UniSat browser extension.")
    case RequestAccountsMissing =>
      Err(UnisatConnectError(UnisatApiMissingText))
    case RequestAccountsThrew(m) =>
      Err(UnisatConnectError(m))
    case AccountsGranted(addresses, network) =>
      if |addresses| == 0 then
        Err(UnisatConnectError(NoAccountsText))
      else if network.NetworkThrew? then
        Err(UnisatConnectError(network.message))
      else if network != AnswerLivenet then
        Err(UnisatConnectError(SwitchNetworkText))
      else
        Ok(BareAccounts(addresses))
  }

  // ================================================================ Xverse connect

  /** One entry of `response.result.addresses`; the purpose is whatever string Xverse sent. */
  datatype XverseAddress = XverseAddress(address: string, publicKey: Option<string>, purpose: string)

  /** What `sats-connect`'s `request('wallet_connect')` does. */
  datatype XverseConnectReply =
    | XverseAbsent                                          // window.BitcoinProvider undefined
    | SatsConnectImportFailed(message: string)
    | SatsConnectWithoutRequest
    | ConnectRequestThrew(message: string)
    | ConnectSucceeded(addresses: seq<XverseAddress>)       // status 'success'
    | ConnectRefused(code: string, message: string)         // any other status

  /** The catch block of connectXverse: anything mentioning 'rejected' is rewritten. */
  function XverseConnectError(message: string): (r: string)
    ensures r != ""
  {
    if Contains(message, "User rejected") || Contains(message, "rejected") then RejectedText
    else if message != "" then message
    else "Error connecting to Xverse Wallet."
  }

  /** `addresses.find(addr => addr.purpose === purpose)` */
  function FindPurpose(addresses: seq<XverseAddress>, purpose: string): (r: Option<XverseAddress>)
    ensures r.None? <==> forall i :: 0 <= i < |addresses| ==> addresses[i].purpose != purpose
    ensures r.Some? ==> exists i :: 0 <= i < |addresses| && addresses[i] == r.value && addresses[i].purpose == purpose
                          && forall j :: 0 <= j < i ==> addresses[j].purpose != purpose
  {
    if |addresses| == 0 then None
    else if addresses[0].purpose == purpose then Some(addresses[0])
    else
      var r := FindPurpose(addresses[1..], purpose);
      assert forall i :: 1 <= i < |addresses| ==> addresses[i] == addresses[1..][i - 1];
      r
  }

  /** A found entry is pushed only when its address is non-empty. */
  predicate Usable(found: Option<XverseAddress>)
  {
    found.Some? && found.value.address != ""
  }

  function AccountFor(entry: XverseAddress, purpose: Purpose): WalletAccount
  {
    WalletAccount(entry.address, entry.publicKey, Some(purpose))
  }

  /** The accounts pushed after a successful request: the ordinals one, then the payment one,
      each only when found with a non-empty address. */
  function XverseAccounts(addresses: seq<XverseAddress>): (accounts: seq<WalletAccount>)
    ensures |accounts| <= 2
    ensures |accounts| == 0 <==> !Usable(FindPurpose(addresses, "ordinals")) && !Usable(FindPurpose(addresses, "payment"))
    ensures forall i :: 0 <= i < |accounts| ==> accounts[i].address != ""
  {
    var ord := FindPurpose(addresses, "ordinals");
    var pay := FindPurpose(addresses, "payment");
    (if Usable(ord) then [AccountFor(ord.value, Ordinals)] else [])
    + (if Usable(pay) then [AccountFor(pay.value, Payment)] else [])
  }

  /** What connectXverse returns or throws, given what the extension and `sats-connect` do. */
  function XverseConnectOutcome(reply: XverseConnectReply): (r: Result<seq<WalletAccount>>)
    ensures r.Ok? <==> (reply.ConnectSucceeded? && |reply.addresses| > 0
                        && (Usable(FindPurpose(reply.addresses, "ordinals")) || Usable(FindPurpose(reply.addresses, "payment"))))
    ensures r.Ok? ==> 1 <= |r.value| <= 2
    ensures r.Ok? ==>
              var ord := FindPurpose(reply.addresses, "ordinals");
              var pay := FindPurpose(reply.addresses, "payment");
              r.value == (if Usable(ord) then [AccountFor(ord.value, Ordinals)] else [])
                         + (if Usable(pay) then [AccountFor(pay.value, Payment)] else [])
    ensures r.Err? ==> r.message != ""
    ensures reply.XverseAbsent? ==> r == Err("Xverse Wallet is not installed. Please install the Xverse browser extension.")
    ensures reply.SatsConnectImportFailed? ==> r == Err(XverseConnectError(LoadFailedPrefix + reply.message))
    ensures reply.SatsConnectWithoutRequest? ==> r == Err(XverseConnectError(SatsConnectMissingText))
    ensures reply.ConnectRequestThrew? ==> r == Err(XverseConnectError(reply.message))
    ensures reply.ConnectRefused? ==>
              r == Err(XverseConnectError(
                     if reply.code == "USER_REJECTION" then XverseCancelledText
                     else if reply.message != "" then reply.message
                     else XverseConnectFailedText))
    ensures reply.ConnectSucceeded? && |reply.addresses| == 0 ==>
              r == Err(XverseConnectError(NoAddressesText))
    ensures reply.ConnectSucceeded? && |reply.addresses| > 0 && !r.Ok? ==>
              r == Err(XverseConnectError(NoValidAddressesText))
  {
    match reply
    case XverseAbsent =>
      Err("Xverse Wallet is not installed. Please install the Xverse browser extension.")
    case SatsConnectImportFailed(m) =>
      Err(XverseConnectError(LoadFailedPrefix + m))
    case SatsConnectWithoutRequest =>
      Err(XverseConnectError(SatsConnectMissingText))
    case ConnectRequestThrew(m) =>
      Err(XverseConnectError(m))
    case ConnectRefused(code, m) =>
      Err(XverseConnectError(if code == "USER_REJECTION" then XverseCancelledText
                             else if m != "" then m else XverseConnectFailedText))
    case ConnectSucceeded(addresses) =>
      if |addresses| == 0 then Err(XverseConnectError(NoAddressesText))
      else
        var accounts := XverseAccounts(addresses);
        if |accounts| == 0 then Err(XverseConnectError(NoValidAddressesText)) else Ok(accounts)
  }

  /** connectXverse: finds the two roles and pushes an account for each usable one. */
  method ConnectXverse(reply: XverseConnectReply) returns (r: Result<seq<WalletAccount>>)
    ensures r == XverseConnectOutcome(reply)
  {
    match reply
    case XverseAbsent =>
      return Err("Xverse Wallet is not installed. Please install the Xverse browser extension.");
    case SatsConnectImportFailed(m) =>
      return Err(XverseConnectError(LoadFailedPrefix + m));
    case SatsConnectWithoutRequest =>
      return Err(XverseConnectError(SatsConnectMissingText));
    case ConnectRequestThrew(m) =>
      return Err(XverseConnectError(m));
    case ConnectRefused(code, m) =>
      if code == "USER_REJECTION" {
        return Err(XverseConnectError(XverseCancelledText));
      }
      return Err(XverseConnectError(if m != "" then m else XverseConnectFailedText));
    case ConnectSucceeded(addresses) =>
      if |addresses| == 0 {
        return Err(XverseConnectError(NoAddressesText));
      }
      var accounts: seq<WalletAccount> := [];
      var ordinalsAddress := FindPurpose(addresses, "ordinals");
      var paymentAddress := FindPurpose(addresses, "payment");
      if ordinalsAddress.Some? && ordinalsAddress.value.address != "" {
        accounts := accounts + [AccountFor(ordinalsAddress.value, Ordinals)];
      }
      if paymentAddress.Some? && paymentAddress.value.address != "" {
        accounts := accounts + [AccountFor(paymentAddress.value, Payment)];
      }
      assert accounts == XverseAccounts(addresses);
      if |accounts| == 0 {
        return Err(XverseConnectError(NoValidAddressesText));
      }
      return Ok(accounts);
  }

  /** No two entries of the list carry the purpose. */
  predicate AtMostOne(addresses: seq<XverseAddress>, purpose: string)
  {
    forall i, j ::
      (0 <= i < |addresses| && 0 <= j < |addresses| && addresses[i].purpose == purpose && addresses[j].purpose == purpose)
      ==> i == j
  }

  /** When at most one entry carries the purpose, `find` gives the same answer for any
      reordering of the list. */
  lemma FindPurposeIgnoresOrder(a: seq<XverseAddress>, b: seq<XverseAddress>, purpose: string)
    requires multiset(a) == multiset(b)
    requires AtMostOne(a, purpose)
    ensures FindPurpose(a, purpose) == FindPurpose(b, purpose)
  {
    forall j | 0 <= j < |b| && b[j].purpose == purpose
      ensures exists i :: 0 <= i < |a| && a[i] == b[j]
    {
      assert b[j] in multiset(a);
    }
    var found := FindPurpose(a, purpose);
    if found.Some? {
      var i0 :| 0 <= i0 < |a| && a[i0] == found.value && a[i0].purpose == purpose;
      assert a[i0] in multiset(b);
      var k :| 0 <= k < |b| && b[k] == a[i0];
      assert b[k].purpose == purpose;
      var other := FindPurpose(b, purpose);
      var j :| 0 <= j < |b| && b[j] == other.value && b[j].purpose == purpose;
      var i :| 0 <= i < |a| && a[i] == b[j];
      assert i == i0;
    } else {
      assert forall j :: 0 <= j < |b| ==> b[j].purpose != purpose;
    }
  }

  /** The roles, and so the accounts and the whole connect outcome, do not depend on the
      order in which Xverse lists its addresses, as long as it sends at most one address per
      purpose. */
  lemma XverseRolesIgnoreOrder(a: seq<XverseAddress>, b: seq<XverseAddress>)
    requires multiset(a) == multiset(b)
    requires AtMostOne(a, "ordinals") && AtMostOne(a, "payment")
    ensures FindPurpose(a, "ordinals") == FindPurpose(b, "ordinals")
    ensures FindPurpose(a, "payment") == FindPurpose(b, "payment")
    ensures XverseConnectOutcome(ConnectSucceeded(a)) == XverseConnectOutcome(ConnectSucceeded(b))
  {
    FindPurposeIgnoresOrder(a, b, "ordinals");
    FindPurposeIgnoresOrder(a, b, "payment");
    assert |a| == |multiset(a)| == |multiset(b)| == |b|;
  }

  /** With two different entries of the same purpose the first listed one wins, so there the
      order does matter. */
  lemma DuplicatePurposeFirstWins(x: XverseAddress, y: XverseAddress)
    requires x.purpose == "ordinals" && y.purpose == "ordinals" && x != y
    ensures FindPurpose([x, y], "ordinals") == Some(x)
    ensures FindPurpose([y, x], "ordinals") == Some(y)
  {
  }

  /** A message mentioning 'User rejected' mentions 'rejected'. */
  lemma UserRejectedMentionsRejected(message: string)
    requires Contains(message, "User rejected")
    ensures Contains(message, "rejected")
  {
    var i := ContainsWitness(message, "User rejected");
    assert message[i + 5..i + 13] == message[i..i + 13][5..13];
    ContainsAt(message, "rejected", i + 5);
  }

  lemma RejectedTextMentionsRejected()
    ensures Contains(RejectedText, "rejected")
  {
    var head, word, tail := "Connection ", "rejected", ". Please approve the connection request.";
    assert (head + word + tail)[|head|..|head| + |word|] == word;
    ContainsAt(RejectedText, "rejected", 11);
  }

  /** Xverse's rewrite turns exactly the messages that mention 'rejected' into RejectedText;
      every other non-empty message is rethrown as it is. */
  lemma XverseRejectionMapping(message: string)
    ensures XverseConnectError(message) == RejectedText <==> Contains(message, "rejected")
    ensures !Contains(message, "rejected") && message != "" ==> XverseConnectError(message) == message
  {
    if Contains(message, "User rejected") {
      UserRejectedMentionsRejected(message);
    }
    RejectedTextMentionsRejected();
  }

  /** Xverse's own cancellation text passes both rewrites untouched: it says 'cancelled',
      not 'rejected'. */
  lemma CancelledTextRethrown(message: string)
    requires message == XverseCancelledText
    ensures XverseConnectError(message) == message
    ensures UnisatConnectError(message) == message
  {
    if Contains(message, "rejected") {
      ContainedCharOccurs(message, "rejected", 2);
      assert false;
    }
    if Contains(message, "User rejected") {
      UserRejectedMentionsRejected(message);
      assert false;
    }
  }

  // ================================================================ getUnisatAccounts

  datatype UnisatAccountsReply = UnisatAccountsAbsent | GetAccountsThrew | AccountsListed(addresses: seq<string>)

  /** Never throws: an absent extension or a failing call give the empty list. */
  function GetUnisatAccounts(reply: UnisatAccountsReply): (r: seq<WalletAccount>)
    ensures !reply.AccountsListed? ==> r == []
    ensures reply.AccountsListed? ==> r == BareAccounts(reply.addresses) && |r| == |reply.addresses|
  {
    match reply
    case UnisatAccountsAbsent => []
    case GetAccountsThrew => []
    case AccountsListed(addresses) => BareAccounts(addresses)
  }

  // ================================================================ payments

  datatype Recipient = Recipient(address: string, amount: real)

  /** A request the adapter put to a wallet extension. */
  datatype WalletCall = SendBitcoin(to: string, amountSats: real) | SendTransfer(recipients: seq<Recipient>)

  /** The heuristic of sendMultipleBitcoinPayments: below 1 is BTC, converted with Math.round. */
  function NormalizeAmount(amount: real): (r: real)
    ensures amount >= 1.0 ==> r == amount
    ensures amount < 1.0 ==> r == r.Floor as real && r - 0.5 <= amount * SatsPerBtc < r + 0.5
  {
    if amount < 1.0 then RoundHalfUp(amount * SatsPerBtc) as real else amount
  }

  function NormalizeAmounts(recipients: seq<Recipient>): (r: seq<Recipient>)
    ensures |r| == |recipients|
    ensures forall i :: 0 <= i < |r| ==>
              r[i].address == recipients[i].address && r[i].amount == NormalizeAmount(recipients[i].amount)
  {
    seq(|recipients|, i requires 0 <= i < |recipients| =>
      Recipient(recipients[i].address, NormalizeAmount(recipients[i].amount)))
  }

  lemma NormalizeExamples()
    ensures NormalizeAmount(0.5) == 50000000.0
    ensures NormalizeAmount(50000.0) == 50000.0
    ensures NormalizeAmount(1.0) == 1.0
  {
  }

  // ---------------------------------------------------------------- UniSat, one recipient at a time

  datatype UnisatSendReply = Sent(txid: string) | SendThrew(message: string, code: Option<int>)

  /** The UniSat extension as the payment loop sees it; `reply(k)` answers the k-th sendBitcoin call. */
  datatype UnisatPayEnv = UnisatPayEnv(installed: bool, hasSendBitcoin: bool, reply: nat -> UnisatSendReply)

  /** The catch block of sendBitcoinViaUnisat. */
  function UnisatPaymentError(message: string, code: Option<int>): (r: string)
    ensures r != ""
    ensures (Contains(message, "User rejected") || code == Some(4001)) ==> r == PaymentCancelledText
    ensures !(Contains(message, "User rejected") || code == Some(4001)) && message != "" ==> r == message
  {
    if Contains(message, "User rejected") || code == Some(4001) then PaymentCancelledText
    else if message != "" then message
    else "Error sending Bitcoin via UniSat"
  }

  /** sendBitcoinViaUnisat as the k-th call of a payment run. */
  function SendBitcoinViaUnisat(env: UnisatPayEnv, k: nat): (r: Result<string>)
    ensures r.Err? ==> r.message != ""
    ensures env.installed && env.hasSendBitcoin ==> (r.Ok? <==> env.reply(k).Sent?)
  {
    if !env.installed then Err("UniSat Wallet not found")
    else if !env.hasSendBitcoin then Err("UniSat sendBitcoin function is not available.")
    else match env.reply(k)
      case Sent(txid) => Ok(txid)
      case SendThrew(m, code) => Err(UnisatPaymentError(m, code))
  }

  function SendCalls(payments: seq<Recipient>): (r: seq<WalletCall>)
    ensures |r| == |payments|
    ensures forall i :: 0 <= i < |r| ==> r[i] == SendBitcoin(payments[i].address, payments[i].amount)
  {
    seq(|payments|, i requires 0 <= i < |payments| => SendBitcoin(payments[i].address, payments[i].amount))
  }

  /** The index of the first call at or after `from` that the wallet refuses, or `n`. */
  function FirstRefused(reply: nat -> UnisatSendReply, from: nat, n: nat): (k: nat)
    requires from <= n
    ensures from <= k <= n
    ensures forall i :: from <= i < k ==> reply(i).Sent?
    ensures k < n ==> reply(k).SendThrew?
    decreases n - from
  {
    if from == n then n
    else if reply(from).SendThrew? then from
    else FirstRefused(reply, from + 1, n)
  }

  /** FirstRefused is the only index with its defining property. */
  lemma {:induction false} FirstRefusedIs(reply: nat -> UnisatSendReply, from: nat, n: nat, k: nat)
    requires from <= k <= n
    requires forall i :: from <= i < k ==> reply(i).Sent?
    requires k < n ==> reply(k).SendThrew?
    ensures FirstRefused(reply, from, n) == k
    decreases k - from
  {
    if from < k {
      FirstRefusedIs(reply, from + 1, n, k);
    }
  }

  /** The UniSat branch in closed form: every call up to and including the first refused one
      is made; success returns the last txid. */
  function UnisatRun(env: UnisatPayEnv, sats: seq<Recipient>): (out: (Result<string>, seq<WalletCall>))
    requires |sats| > 0
    ensures |out.1| <= |sats|
    ensures forall i :: 0 <= i < |out.1| ==> out.1[i] == SendBitcoin(sats[i].address, sats[i].amount)
    ensures forall i :: 0 <= i < |out.1| - 1 ==> env.reply(i).Sent?
    ensures out.0.Ok? ==> |out.1| == |sats| && env.reply(|sats| - 1).Sent? && out.0.value == env.reply(|sats| - 1).txid
    ensures out.0.Err? && env.installed && env.hasSendBitcoin ==> |out.1| > 0 && env.reply(|out.1| - 1).SendThrew?
    ensures out.0.Err? ==> out.0.message != ""
  {
    if !env.installed || !env.hasSendBitcoin then (SendBitcoinViaUnisat(env, 0), [])
    else
      var k := FirstRefused(env.reply, 0, |sats|);
      if k == |sats| then (Ok(env.reply(k - 1).txid), SendCalls(sats))
      else (SendBitcoinViaUnisat(env, k), SendCalls(sats[..k + 1]))
  }

  // ---------------------------------------------------------------- Xverse, one request

  /** What `sats-connect`'s `request('sendTransfer')` does. */
  datatype XverseTransferReply =
    | TransferXverseAbsent
    | TransferImportThrew(message: string)
    | TransferWithoutRequest
    | TransferRequestThrew(message: string)
    | TransferAnswered(success: bool, txid: string, txId: string, error: Option<string>)

  /** The catch block of the Xverse branch: only 'User rejected' is rewritten, the rest rethrown. */
  function XverseTransferError(message: string): (r: string)
    ensures Contains(message, "User rejected") ==> r == PaymentCancelledText
    ensures !Contains(message, "User rejected") ==> r == message
  {
    if Contains(message, "User rejected") then PaymentCancelledText else message
  }

  /** The Xverse branch: one request carrying the whole normalised list. */
  function XverseRun(reply: XverseTransferReply, sats: seq<Recipient>): (r: (Result<string>, seq<WalletCall>))
    ensures r.1 == [] || r.1 == [SendTransfer(sats)]
    ensures r.0.Ok? <==> reply.TransferAnswered? && reply.success && (reply.txid != "" || reply.txId != "")
    ensures r.0.Ok? ==> r.0.value == (if reply.txid != "" then reply.txid else reply.txId)
  {
    match reply
    case TransferXverseAbsent => (Err("Xverse Wallet not found"), [])
    case TransferImportThrew(m) => (Err(XverseTransferError(m)), [])
    case TransferWithoutRequest => (Err(XverseTransferError("Failed to send via Xverse")), [])
    case TransferRequestThrew(m) => (Err(XverseTransferError(m)), [SendTransfer(sats)])
    case TransferAnswered(success, txid, txId, error) =>
      var id := if txid != "" then txid else txId;
      if success && id != "" then (Ok(id), [SendTransfer(sats)])
      else if error.Some? then
        (Err(XverseTransferError(if error.value != "" then error.value else "Xverse payment failed")), [SendTransfer(sats)])
      else (Err(XverseTransferError("Failed to send via Xverse")), [SendTransfer(sats)])
  }

  // ---------------------------------------------------------------- sendMultipleBitcoinPayments

  /** What sendMultipleBitcoinPayments returns or throws, and the wallet calls it makes. */
  function PaymentOutcome(recipients: seq<Recipient>, walletType: WalletKind, unisat: UnisatPayEnv,
                          xverse: XverseTransferReply): (out: (Result<string>, seq<WalletCall>))
    ensures |recipients| == 0 ==> out == (Err("No recipients provided"), [])
    ensures walletType == Xverse && |recipients| > 0 ==> out.1 == [] || out.1 == [SendTransfer(NormalizeAmounts(recipients))]
    ensures walletType == Unisat ==> |out.1| <= |recipients|
    ensures walletType == Unisat ==> forall i :: 0 <= i < |out.1| ==>
              out.1[i] == SendBitcoin(recipients[i].address, NormalizeAmount(recipients[i].amount))
    ensures walletType == Unisat && out.0.Ok? ==> |out.1| == |recipients|
  {
    if |recipients| == 0 then (Err("No recipients provided"), [])
    else if walletType == Xverse then XverseRun(xverse, NormalizeAmounts(recipients))
    else UnisatRun(unisat, NormalizeAmounts(recipients))
  }

  method SendMultipleBitcoinPayments(recipients: seq<Recipient>, walletType: WalletKind, unisat: UnisatPayEnv,
                                     xverse: XverseTransferReply)
    returns (r: Result<string>, calls: seq<WalletCall>)
    ensures (r, calls) == PaymentOutcome(recipients, walletType, unisat, xverse)
  {
    if |recipients| == 0 {
      return Err("No recipients provided"), [];
    }
    var recipientsInSats := NormalizeAmounts(recipients);
    if walletType == Xverse {
      var outcome := XverseRun(xverse, recipientsInSats);
      r, calls := outcome.0, outcome.1;
      return;
    }
    // UniSat: one sendBitcoin per recipient, in order; not atomic.
    var lastTxid := "";
    var i := 0;
    calls := [];
    while i < |recipientsInSats|
      invariant 0 <= i <= |recipientsInSats|
      invariant unisat.installed && unisat.hasSendBitcoin ==> calls == SendCalls(recipientsInSats[..i])
      invariant !(unisat.installed && unisat.hasSendBitcoin) ==> i == 0 && calls == []
      invariant forall j :: 0 <= j < i ==> unisat.reply(j).Sent?
      invariant i > 0 ==> lastTxid == unisat.reply(i - 1).txid
    {
      var recipient := recipientsInSats[i];
      var sent := SendBitcoinViaUnisat(unisat, i);
      if unisat.installed && unisat.hasSendBitcoin {
        calls := calls + [SendBitcoin(recipient.address, recipient.amount)];
        assert recipientsInSats[..i + 1] == recipientsInSats[..i] + [recipient];
        assert calls == SendCalls(recipientsInSats[..i + 1]);
      }
      if sent.Err? {
        if unisat.installed && unisat.hasSendBitcoin {
          FirstRefusedIs(unisat.reply, 0, |recipientsInSats|, i);
        }
        r := sent;
        return;
      }
      lastTxid := sent.value;
      i := i + 1;
    }
    assert recipientsInSats[..i] == recipientsInSats;
    FirstRefusedIs(unisat.reply, 0, |recipientsInSats|, i);
    r := Ok(lastTxid);
  }

  // ---------------------------------------------------------------- what the payment promises

  /** An empty list is refused before any wallet call. */
  lemma EmptyRecipientsRefused(walletType: WalletKind, unisat: UnisatPayEnv, xverse: XverseTransferReply)
    ensures PaymentOutcome([], walletType, unisat, xverse) == (Err("No recipients provided"), [])
  {
  }

  /** UniSat pays recipient by recipient: when recipient k is refused, the k earlier sends were
      made and accepted, the run fails with that refusal, and nothing after k is attempted.
      When nobody refuses, every recipient is paid in order and the last txid is returned. */
  lemma {:induction false} UnisatRunIsSequential(recipients: seq<Recipient>, unisat: UnisatPayEnv, xverse: XverseTransferReply, k: nat)
    requires unisat.installed && unisat.hasSendBitcoin
    requires 0 < |recipients| && k <= |recipients|
    requires forall i :: 0 <= i < k ==> unisat.reply(i).Sent?
    requires k < |recipients| ==> unisat.reply(k).SendThrew?
    ensures var (r, calls) := PaymentOutcome(recipients, Unisat, unisat, xverse);
            var sats := NormalizeAmounts(recipients);
            && (k == |recipients| ==> r == Ok(unisat.reply(|recipients| - 1).txid) && calls == SendCalls(sats))
            && (k < |recipients| ==>
                  r == Err(UnisatPaymentError(unisat.reply(k).message, unisat.reply(k).code))
                  && |calls| == k + 1
                  && (forall i :: 0 <= i <= k ==> calls[i] == SendBitcoin(recipients[i].address, sats[i].amount)))
  {
    FirstRefusedIs(unisat.reply, 0, |recipients|, k);
  }

  /** Xverse makes exactly one request, for the whole normalised list, once the module is loaded. */
  lemma XverseSingleRequest(recipients: seq<Recipient>, unisat: UnisatPayEnv, xverse: XverseTransferReply)
    requires |recipients| > 0
    requires xverse.TransferAnswered? || xverse.TransferRequestThrew?
    ensures PaymentOutcome(recipients, Xverse, unisat, xverse).1 == [SendTransfer(NormalizeAmounts(recipients))]
  {
  }
}
