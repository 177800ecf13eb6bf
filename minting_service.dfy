/** The mint workflow's service (src/services/mintingService.ts): upload the delegate file to
    the inscription backend, check its answer, pay the item price and the inscription fee
    through the wallet adapter, and report what was minted. The backend's answer and the
    wallet's answers are inputs; the HTML template of the delegate is not modelled. */
module MintingService {
  import opened JsBuiltins
  import opened Types
  import opened Wallet

  /** Receives the item price. */
  const AdminPaymentAddress := "3PxmhPTh8p7K7xhJeb2Hf8QbMnsagrJxcG"
  /** The dust limit sent as the inscription's postage. */
  const Postage := "546"

  const UnknownErrorText := "Unknown error"
  const InscriptionFailedText := "Failed to create inscription"
  const UnexpectedFormatText := "UniSat API returned unexpected format"
  const NoResultText := "No result data in API response"
  const NoPaymentDetailsText := "UniSat API did not return payment details"
  const PaymentFailedText := "Payment transaction failed"

  // ---------------------------------------------------------------- the upload

  /** The multipart form posted to the backend (the file body itself is left out). */
  datatype InscribeForm = InscribeForm(fileName: string, address: string, feeRate: string, postage: string)

  /** `s.replace(/\s/g, '-')` */
  function DashWhitespace(s: string): (r: string)
    ensures |r| == |s|
    ensures forall i :: 0 <= i < |s| ==> r[i] == (if IsJsWhitespace(s[i]) then '-' else s[i])
    ensures forall i :: 0 <= i < |r| ==> !IsJsWhitespace(r[i])
  {
    seq(|s|, i requires 0 <= i < |s| => if IsJsWhitespace(s[i]) then '-' else s[i])
  }

  /** `${itemName.replace(/\s/g, '-')}-${Date.now()}.html` */
  function FileName(itemName: string, now: nat): (r: string)
    ensures |r| == |itemName| + 1 + |NatToString(now)| + 5
    ensures r[..|itemName|] == DashWhitespace(itemName)
    ensures r[|itemName|..] == "-" + NatToString(now) + ".html"
  {
    DashWhitespace(itemName) + "-" + NatToString(now) + ".html"
  }

  function Form(itemName: string, recipient: string, feeRate: int, now: nat): (f: InscribeForm)
    ensures f.postage == Postage && f.address == recipient
    ensures ParseInt(f.feeRate) == Some(feeRate)
    ensures |f.fileName| > |itemName| && forall i :: 0 <= i < |itemName| ==> !IsJsWhitespace(f.fileName[i])
  {
    ParseIntOfString(feeRate);
    InscribeForm(FileName(itemName, now), recipient, IntToString(feeRate), Postage)
  }

  // ---------------------------------------------------------------- the backend's answer

  /** `data.result` (or `data.data.data`): falsy strings are "", a missing or zero amount 0. */
  datatype InscribeResult = InscribeResult(payAddress: string, amount: real, inscriptionId: string,
                                           txid: string, orderId: Option<string>)

  /** The parsed body of an ok response. */
  datatype InscribeData = InscribeData(status: string, error: string, result: Option<InscribeResult>,
                                       nested: Option<InscribeResult>)

  /** What the POST to /api/unisat/inscribe gives. A non-ok body without a readable JSON
      error is `NotOk(None)`. `FetchThrew` stands both for a fetch that throws and for an ok
      answer whose `response.json()` throws: either way the message is rethrown and no wallet
      is called. */
  datatype InscribeResponse =
    | FetchThrew(message: string)
    | NotOk(error: Option<string>)
    | OkBody(data: InscribeData)

  /** `data.result || data.data?.data` once one of them is present. */
  function ResultIn(data: InscribeData): InscribeResult
    requires data.result.Some? || data.nested.Some?
  {
    if data.result.Some? then data.result.value else data.nested.value
  }

  /** The validated result: an ok status and a result object carrying a pay address and a
      non-zero amount, or the error thrown. */
  function CheckedResult(response: InscribeResponse): (r: Result<InscribeResult>)
    ensures r.Ok? <==> (response.OkBody? && response.data.status == "ok"
                        && (response.data.result.Some? || response.data.nested.Some?)
                        && ResultIn(response.data).payAddress != "" && ResultIn(response.data).amount != 0.0)
    ensures r.Ok? ==> r.value == ResultIn(response.data)
    ensures response.OkBody? && response.data.status != "ok" ==>
              r == Err(if response.data.error != "" then response.data.error else UnexpectedFormatText)
  {
    match response
    case FetchThrew(m) => Err(m)
    case NotOk(e) =>
      Err(if e.None? then UnknownErrorText else if e.value != "" then e.value else InscriptionFailedText)
    case OkBody(data) =>
      if data.status != "ok" then Err(if data.error != "" then data.error else UnexpectedFormatText)
      else if data.result.None? && data.nested.None? then Err(NoResultText)
      else
        var result := ResultIn(data);
        if result.payAddress == "" || result.amount == 0.0 then Err(NoPaymentDetailsText)
        else Ok(result)
  }

  // ---------------------------------------------------------------- the payments

  /** The payment list: the item price in BTC to the admin when the price is positive, then
      the inscription fee to the backend's pay address. */
  function PaymentSet(itemPrice: int, result: InscribeResult): (r: seq<Recipient>)
    ensures |r| == if itemPrice > 0 then 2 else 1
    ensures r[|r| - 1] == Recipient(result.payAddress, result.amount)
    ensures itemPrice > 0 ==> r[0] == Recipient(AdminPaymentAddress, itemPrice as real / SatsPerBtc)
  {
    (if itemPrice > 0 then [Recipient(AdminPaymentAddress, itemPrice as real / SatsPerBtc)] else [])
    + [Recipient(result.payAddress, result.amount)]
  }

  /** The payment list built by conditional pushes. */
  method BuildPayments(itemPrice: int, result: InscribeResult) returns (payments: seq<Recipient>)
    ensures payments == PaymentSet(itemPrice, result)
  {
    payments := [];
    if itemPrice > 0 {
      var itemPriceBtc := itemPrice as real / SatsPerBtc;
      payments := payments + [Recipient(AdminPaymentAddress, itemPriceBtc)];
    }
    payments := payments + [Recipient(result.payAddress, result.amount)];
  }

  // ---------------------------------------------------------------- the result

  datatype MintResult = MintResult(inscriptionId: string, txid: Option<string>, paymentTxid: string)

  /** `${result.orderId}` */
  function OrderIdText(orderId: Option<string>): string
  {
    if orderId.Some? then orderId.value else "undefined"
  }

  /** The reported ids: the backend's inscription id, else 'pending-' and the order id; the
      backend's txid, else the order id; and the wallet's payment txid. */
  function ResultOf(result: InscribeResult, paymentTxid: string): (r: MintResult)
    ensures result.inscriptionId != "" ==> r.inscriptionId == result.inscriptionId
    ensures result.inscriptionId == "" ==> r.inscriptionId == "pending-" + OrderIdText(result.orderId)
    ensures r.txid == if result.txid != "" then Some(result.txid) else result.orderId
    ensures r.paymentTxid == paymentTxid
  {
    MintResult(if result.inscriptionId != "" then result.inscriptionId else "pending-" + OrderIdText(result.orderId),
               if result.txid != "" then Some(result.txid) else result.orderId,
               paymentTxid)
  }

  /** What mintTrainerDelegate returns or throws, and the wallet calls it makes. */
  function MintOutcome(itemPrice: int, walletType: WalletKind, response: InscribeResponse,
                       unisat: UnisatPayEnv, xverse: XverseTransferReply): (r: (Result<MintResult>, seq<WalletCall>))
    ensures CheckedResult(response).Err? ==> r == (Err(CheckedResult(response).message), [])
    ensures CheckedResult(response).Ok? ==>
              r.1 == PaymentOutcome(PaymentSet(itemPrice, CheckedResult(response).value), walletType, unisat, xverse).1
    ensures r.0.Ok? ==>
              && CheckedResult(response).Ok? && r.0.value.paymentTxid != ""
              && PaymentOutcome(PaymentSet(itemPrice, CheckedResult(response).value), walletType, unisat, xverse).0
                 == Ok(r.0.value.paymentTxid)
              && r.0.value == ResultOf(CheckedResult(response).value, r.0.value.paymentTxid)
    ensures var c := CheckedResult(response);
            c.Ok? ==>
              var paid := PaymentOutcome(PaymentSet(itemPrice, c.value), walletType, unisat, xverse).0;
              && (paid.Ok? && paid.value != "" ==> r.0 == Ok(ResultOf(c.value, paid.value)))
              && (paid.Err? ==> r.0 == Err(paid.message))
              && (paid == Ok("") ==> r.0 == Err(PaymentFailedText))
  {
    var checked := CheckedResult(response);
    if checked.Err? then (Err(checked.message), [])
    else
      var (paid, calls) := PaymentOutcome(PaymentSet(itemPrice, checked.value), walletType, unisat, xverse);
      if paid.Err? then (Err(paid.message), calls)
      else if paid.value == "" then (Err(PaymentFailedText), calls)
      else (Ok(ResultOf(checked.value, paid.value)), calls)
  }

  method MintTrainerDelegate(originalInscriptionId: string, itemName: string, recipientAddress: string,
                             feeRate: int, walletType: WalletKind, itemPrice: int, now: nat,
                             response: InscribeResponse, unisat: UnisatPayEnv, xverse: XverseTransferReply)
    returns (form: InscribeForm, r: Result<MintResult>, calls: seq<WalletCall>)
    ensures form == Form(itemName, recipientAddress, feeRate, now)
    ensures (r, calls) == MintOutcome(itemPrice, walletType, response, unisat, xverse)
  {
    form := InscribeForm(FileName(itemName, now), recipientAddress, IntToString(feeRate), Postage);
    var result := CheckedResult(response);
    if result.Err? {
      return form, Err(result.message), [];
    }
    var payments := BuildPayments(itemPrice, result.value);
    var paymentTxid;
    paymentTxid, calls := SendMultipleBitcoinPayments(payments, walletType, unisat, xverse);
    if paymentTxid.Err? {
      return form, Err(paymentTxid.message), calls;
    }
    if paymentTxid.value == "" {
      return form, Err(PaymentFailedText), calls;
    }
    r := Ok(ResultOf(result.value, paymentTxid.value));
  }

  // ---------------------------------------------------------------- what the service promises

  /** For a price strictly between 0 and one bitcoin, the admin leg paid in BTC comes back to
      exactly the price in sats once the adapter normalises it. */
  lemma AdminLegNormalisesBack(itemPrice: int)
    requires 0 < itemPrice < 100000000
    ensures NormalizeAmount(itemPrice as real / SatsPerBtc) == itemPrice as real
  {
    var btc := itemPrice as real / SatsPerBtc;
    assert btc * SatsPerBtc == itemPrice as real;
    RoundOfInteger(itemPrice);
  }

  /** From one bitcoin upwards the admin leg is at least 1 and is therefore taken for sats:
      the wallet is asked for itemPrice / 100000000 sats. */
  lemma AdminLegFromOneBitcoin(itemPrice: int)
    requires itemPrice >= 100000000
    ensures NormalizeAmount(itemPrice as real / SatsPerBtc) == itemPrice as real / SatsPerBtc
    ensures NormalizeAmount(itemPrice as real / SatsPerBtc) < itemPrice as real
  {
  }

  /** The admin leg as intended: the item price handed over in sats, which the adapter's
      heuristic leaves alone for every positive price. */
  function CorrectedAdminLeg(itemPrice: int): (r: Recipient)
    requires itemPrice > 0
    ensures r.address == AdminPaymentAddress
    ensures NormalizeAmount(r.amount) == itemPrice as real
  {
    Recipient(AdminPaymentAddress, itemPrice as real)
  }

  /** Below one bitcoin the corrected leg asks the wallet for what the written one does; from
      one bitcoin up it asks for the price where the written one asks for 1/100000000 of it. */
  lemma CorrectedAdminLegAgrees(itemPrice: int, result: InscribeResult)
    requires itemPrice > 0
    ensures itemPrice < 100000000 ==>
              NormalizeAmount(PaymentSet(itemPrice, result)[0].amount) == NormalizeAmount(CorrectedAdminLeg(itemPrice).amount)
    ensures itemPrice >= 100000000 ==>
              NormalizeAmount(PaymentSet(itemPrice, result)[0].amount) * SatsPerBtc == NormalizeAmount(CorrectedAdminLeg(itemPrice).amount)
  {
    if itemPrice < 100000000 {
      AdminLegNormalisesBack(itemPrice);
    } else {
      AdminLegFromOneBitcoin(itemPrice);
    }
  }

  /** The catalogue's price with an inscription fee of 0.0001 BTC: the adapter is asked for
      5000 sats to the admin and 10000 sats to the pay address. */
  lemma CataloguePriceExample(payAddress: string)
    requires payAddress != ""
    ensures NormalizeAmounts(PaymentSet(5000, InscribeResult(payAddress, 0.0001, "", "", None)))
            == [Recipient(AdminPaymentAddress, 5000.0), Recipient(payAddress, 10000.0)]
  {
    AdminLegNormalisesBack(5000);
    var sats := NormalizeAmounts(PaymentSet(5000, InscribeResult(payAddress, 0.0001, "", "", None)));
    assert sats[1].amount == RoundHalfUp(10000.0) as real;
    RoundOfInteger(10000);
  }
}
