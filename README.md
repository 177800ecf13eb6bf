# Trainer shop — a Dafny model of its decision logic

The trainer shop sells delegate inscriptions of "trainer" items on Bitcoin. A visitor connects
a UniSat or Xverse browser wallet, picks a fee rate, and mints. A backend creates the
inscription order. The visitor's wallet then pays the item price to the shop's admin address
and the inscription fee to the order's pay address. Two serverless endpoints keep a log of
mints in a Redis list. An admin panel reads that log back.

This project models the decision procedures behind that flow. It also proves what they promise:

- **Wallet adapter** (`wallet.dfy`):
  - UniSat account validation.
  - Xverse address partitioning by purpose.
  - The error-message rewrites.
  - The "below 1 means BTC" amount heuristic.
  - The multi-recipient payment loop: sequential and non-atomic on UniSat, one transfer on Xverse.
- **Wallet session** (`wallet_context.dfy`): a class with one `WalletState` field. Connect,
  disconnect, the accounts-changed listener and auto-reconnect all keep connected ⇔ accounts
  non-empty ⇔ wallet chosen.
- **Mint service** (`minting_service.dfy`):
  - The upload form.
  - Validation of the backend's answer.
  - The payment list built by conditional pushes.
  - The result with its `pending-` fallbacks.
- **Item card** (`trainer_card.dfy`): a class whose `HandleMint` steps the minting status through
  10, 30, 80 and then completed(100) or failed(0). A ghost log of every status shown proves that
  `pending` is never entered.
- **Fee tiers** (`bitcoin_fees.dfy`, `fee_rate_selector.dfy`):
  - The per-field `Math.round(x) || default` rule.
  - `null` on a non-ok answer, and the full default tuple when the request throws.
  - `formatSats`.
  - The picker's first-load, preset, custom and highlight rules.
- **Mint log** (`api.dfy`, `log_mint_api.dfy`, `mints_api.dfy`, `mint_logger.dfy`,
  `admin_panel.dfy`):
  - Record defaulting and prepending to the list.
  - The admin allow-list.
  - Parsing and CSV rendering, with a split-back round trip.
  - The client's case-insensitive admin predicate.
  - The admin panel's helpers and its fetch.
- **Connect card** (`wallet_connect.dfy`): the short address, the connect-in-progress flag and
  the error line.

`js_builtins.dfy` gives the JavaScript built-ins the code relies on, on exact values:

- `includes`, `substring`, `substr`, `join`, `split`, `parseInt`, `String(n)`, `Math.round`,
  ASCII `toLowerCase` and `\s`.

Every external answer is an input datatype:

- wallet-extension replies;
- the backend's JSON;
- the fee advisor's answer;
- the Redis list, with its reachability;
- whether a `fetch` throws.

Other conventions:

- The clock (`Date.now()`, ISO time) and the random id suffix are parameters.
- Falsy JavaScript strings are `""`; absent numbers are `0` or `None`.
- Amounts are exact `real`s, and `Math.round(x)` is `floor(x + 0.5)`.

The following five methods are each proved equal to a specification function, and the
properties are proved about that function:

| method | specification function |
|---|---|
| `Wallet.SendMultipleBitcoinPayments` | `PaymentOutcome` |
| `MintingService.MintTrainerDelegate` | `MintOutcome` |
| `LogMintApi.Handle` | `LogMintReply` |
| `MintsApi.Handle` | `MintsReply` |
| `AdminPanel.AdminPanel.FetchMints` | `FetchView` |

## Model

| member | source | states |
|---|---|---|
| Wallet.UnisatConnectError | src/utils/wallet.ts:55-60 | a message mentioning 'User rejected' becomes the fixed rejection text; any other non-empty message is rethrown unchanged; the result is never empty |
| Wallet.BareAccounts | src/utils/wallet.ts:54 | one account per address, in order, with no public key and no purpose |
| Wallet.ConnectUnisat | src/utils/wallet.ts:32-61 | succeeds exactly when accounts are granted, the list is non-empty and the network is 'livenet'; then one bare account per address in order; a failure carries a non-empty message |
| Wallet.XverseConnectError | src/utils/wallet.ts:121-126 | the Xverse catch: anything mentioning 'rejected' becomes the rejection text, other non-empty messages pass unchanged |
| Wallet.FindPurpose | src/utils/wallet.ts:91-92 | `find` by purpose: None exactly when no entry has the purpose, else an entry that has it |
| Wallet.XverseAccounts | src/utils/wallet.ts:91-109 | at most two accounts, none with an empty address; none exactly when neither role is found with an address |
| Wallet.XverseConnectOutcome | src/utils/wallet.ts:63-127 | succeeds exactly when the reply is a success with a non-empty list yielding a usable ordinals or payment entry; the result has 1 or 2 accounts, ordinals first; each failure branch's message |
| Wallet.ConnectXverse | src/utils/wallet.ts:63-127 | the method with its pushes returns exactly XverseConnectOutcome |
| Wallet.FindPurposeIgnoresOrder | src/utils/wallet.ts:91-92 | when at most one entry carries the purpose, `find` answers the same for every reordering of the list |
| Wallet.XverseRolesIgnoreOrder | src/utils/wallet.ts:91-108 | for a reply with at most one address per purpose, the roles and the whole connect outcome are the same for every reordering of the list |
| Wallet.DuplicatePurposeFirstWins | src/utils/wallet.ts:91 | with two different entries of one purpose the first listed wins, so order then matters |
| Wallet.UserRejectedMentionsRejected | src/utils/wallet.ts:122 | 'User rejected' is subsumed by the 'rejected' test of the Xverse catch |
| Wallet.RejectedTextMentionsRejected | src/utils/wallet.ts:123 | the rewritten text itself mentions 'rejected', so rethrowing it through the catch again keeps it |
| Wallet.XverseRejectionMapping | src/utils/wallet.ts:121-126 | the Xverse rewrite yields the rejection text if and only if the message mentions 'rejected'; otherwise a non-empty message is unchanged |
| Wallet.CancelledTextRethrown | src/utils/wallet.ts:116-117 | 'Connection cancelled by user.' passes both catch blocks unchanged |
| Wallet.GetUnisatAccounts | src/utils/wallet.ts:129-140 | never fails: [] when UniSat is absent or the call throws, else one bare account per address |
| Wallet.NormalizeAmount | src/utils/wallet.ts:206 | amounts of at least 1 are kept; an amount below 1 becomes the integer nearest to amount × 1e8 (half up) |
| Wallet.NormalizeAmounts | src/utils/wallet.ts:204-207 | normalisation keeps length, order and addresses and normalises each amount |
| Wallet.NormalizeExamples | src/utils/wallet.ts:206 | 0.5 becomes 50000000, while 50000 and 1 stay as they are |
| Wallet.UnisatPaymentError | src/utils/wallet.ts:154-159 | 'User rejected' or code 4001 gives the payment-cancelled text; any other non-empty message is rethrown unchanged; the result is never empty |
| Wallet.SendBitcoinViaUnisat | src/utils/wallet.ts:142-160 | with the extension and its sendBitcoin present, the call succeeds exactly when the wallet sends; failures carry a non-empty message |
| Wallet.SendCalls | src/utils/wallet.ts:243-245 | one sendBitcoin call per recipient, in order, with its address and amount |
| Wallet.FirstRefused | src/utils/wallet.ts:243-245 | the index of the first refused send: all earlier sends went through, and the one at the index was refused |
| Wallet.FirstRefusedIs | src/utils/wallet.ts:243-245 | the first refused index is the only index with that property |
| Wallet.XverseRun | src/utils/wallet.ts:209-239 | at most one transfer request carrying the whole list; success exactly when the answer is a success with txid or txId, txid preferred |
| Wallet.XverseTransferError | src/utils/wallet.ts:234-238 | a message mentioning 'User rejected' becomes the payment-cancelled text; any other is rethrown unchanged |
| Wallet.UnisatRun | src/utils/wallet.ts:241-247 | the calls are sendBitcoin to the recipients in order, at most one each; every call before the last was accepted; success means every recipient was paid and gives the last txid; a failure with the extension present ends at a refused call |
| Wallet.PaymentOutcome | src/utils/wallet.ts:195-248 | no recipients: the fixed error and no call; Xverse: no call or one transfer of the whole normalised list; UniSat: sendBitcoin calls to a prefix of the recipients with normalised amounts, all of them on success |
| Wallet.SendMultipleBitcoinPayments | src/utils/wallet.ts:195-248 | the method, with its loop, returns exactly the outcome and the wallet calls of the specification PaymentOutcome |
| Wallet.EmptyRecipientsRefused | src/utils/wallet.ts:199-201 | an empty list fails with 'No recipients provided' before any wallet call |
| Wallet.UnisatRunIsSequential | src/utils/wallet.ts:241-246 | UniSat pays recipient by recipient: with no refusal the last txid is returned after one call per recipient; a refusal at k fails with its message after exactly the k earlier sends and the refused one |
| Wallet.XverseSingleRequest | src/utils/wallet.ts:218-221 | once the module loads, Xverse gets exactly one request, for the whole normalised list |
| WalletContext.InitialState | src/contexts/WalletContext.tsx:23-28 | no wallet, no accounts, not connected, mainnet |
| WalletContext.InitialStateCoherent | src/contexts/WalletContext.tsx:23-28 | the initial state satisfies the session invariant |
| WalletContext.ConnectedState | src/contexts/WalletContext.tsx:89-94 | the state connect writes: connected with the chosen wallet and the accounts; coherent exactly when there is an account |
| WalletContext.AfterAccountsChanged | src/contexts/WalletContext.tsx:51-66 | a non-empty list replaces the accounts, sets UniSat and connected, and keeps the network; an empty one resets to the initial state |
| WalletContext.AccountsChangedKeepsCoherent | src/contexts/WalletContext.tsx:51-66 | the listener preserves the session invariant |
| WalletContext.WalletProvider.constructor | src/contexts/WalletContext.tsx:23-28 | the provider starts in the initial state |
| WalletContext.WalletProvider.CheckWalletConnection | src/contexts/WalletContext.tsx:30-45 | adopts UniSat's accounts when it lists at least one, otherwise leaves the state unchanged; keeps the invariant |
| WalletContext.WalletProvider.HandleAccountsChanged | src/contexts/WalletContext.tsx:51-66 | the state becomes AfterAccountsChanged of the old one; keeps the invariant |
| WalletContext.WalletProvider.Connect | src/contexts/WalletContext.tsx:77-100 | 'Invalid wallet type' without a type; exactly ConnectUnisat's or XverseConnectOutcome's answer otherwise; on success the connected state for that wallet and its non-empty accounts, on failure the old state |
| WalletContext.WalletProvider.Disconnect | src/contexts/WalletContext.tsx:102-109 | always exactly the initial state, which makes it idempotent |
| MintingService.DashWhitespace | src/services/mintingService.ts:71 | every whitespace character becomes '-', others are kept, and no whitespace remains |
| MintingService.FileName | src/services/mintingService.ts:71 | the dashed name followed by '-', the timestamp digits and '.html' |
| MintingService.Form | src/services/mintingService.ts:78-83 | postage '546', the recipient address, a fee-rate text that parseInt reads back as the rate, and a whitespace-free file name |
| MintingService.CheckedResult | src/services/mintingService.ts:99-110 | accepted exactly when the body is ok with status 'ok' and a result or nested result carrying a pay address and a non-zero amount; each rejection's message |
| MintingService.PaymentSet | src/services/mintingService.ts:116-133 | two legs when the price is positive: the price in BTC to the admin address first, then the fee to the pay address; otherwise only the fee leg |
| MintingService.BuildPayments | src/services/mintingService.ts:116-133 | the push-built list equals PaymentSet |
| MintingService.ResultOf | src/services/mintingService.ts:149-153 | inscription id, else 'pending-' and the order id; txid, else the order id; the wallet's payment txid |
| MintingService.MintTrainerDelegate | src/services/mintingService.ts:23-154 | uploads the form and returns exactly MintOutcome's result and wallet calls |
| MintingService.MintOutcome | src/services/mintingService.ts:91-154 | a rejected answer gives its error and no wallet call; otherwise the calls are the payment's; once validated, a paid non-empty txid gives exactly Ok of ResultOf with that txid, a payment error passes its message on, and an empty txid gives 'Payment transaction failed'; success happens only that way |
| MintingService.AdminLegNormalisesBack | src/services/mintingService.ts:119-124 | for 0 < price < 1e8 the admin leg, sent in BTC, is normalised back to exactly the price in sats |
| MintingService.AdminLegFromOneBitcoin | src/services/mintingService.ts:119-124 | from 1e8 sats up, the admin leg is at least 1, so it is taken as sats and is smaller than the price |
| MintingService.CorrectedAdminLeg | src/services/mintingService.ts:119-124 | the admin leg handed over in sats: for every positive price the adapter asks the wallet for exactly the price |
| MintingService.CorrectedAdminLegAgrees | src/services/mintingService.ts:119-124 | below one bitcoin the corrected leg asks for what the written one does; from one bitcoin up the written one asks for 1/100000000 of it |
| MintingService.CataloguePriceExample | src/services/mintingService.ts:116-133 | a 5000-sat item with a 0.0001 BTC fee gives sends of 5000 and 10000 sats |
| TrainerCard.CompletedStatus | src/components/TrainerCard.tsx:65-72 | completed at 100 with the service's ids and no error |
| TrainerCard.FailedStatus | src/components/TrainerCard.tsx:76-80 | failed at 0 with the thrown message, or a non-empty default |
| TrainerCard.TraceNeverPending | src/types/index.ts:25 | an attempt starting from a non-pending status never shows 'pending' |
| TrainerCard.FindOrdinals | src/components/TrainerCard.tsx:38 | the first account with purpose 'ordinals', or None when there is none |
| TrainerCard.RecipientOf | src/components/TrainerCard.tsx:38-39 | the ordinals account's non-empty address, else the first account's address |
| TrainerCard.TrainerCard.constructor | src/components/TrainerCard.tsx:15-21 | fee rate 10, not minting, idle at 0, panel hidden |
| TrainerCard.TrainerCard.HandleMint | src/components/TrainerCard.tsx:23-84 | a blocked guard changes nothing; otherwise the statuses shown are exactly MintTrace, the card ends not minting with the final status, and the form sent goes to RecipientOf |
| TrainerCard.TrainerCard.StartAttempt | src/components/TrainerCard.tsx:29-45 | minting starts, progress 10 then 30, and the recipient is chosen |
| TrainerCard.TrainerCard.EndAttempt | src/components/TrainerCard.tsx:56-83 | 80 then completed, or failed; minting ends on both outcomes |
| TrainerCard.TrainerCard.Reset | src/components/TrainerCard.tsx:86-89 | idle at 0 and the panel hidden |
| TrainerCard.TrainerCard.OpenMintPanel | src/components/TrainerCard.tsx:146-152 | shows the panel and changes nothing else |
| TrainerCard.TrainerCard.CancelMintPanel | src/components/TrainerCard.tsx:179-185 | hides the panel and changes nothing else |
| TrainerCard.TrainerCard.SetFeeRate | src/components/TrainerCard.tsx:156-161 | sets the fee rate only |
| TrainerCard.SuccessfulTrace | src/components/TrainerCard.tsx:30-72 | a successful attempt shows 10, 30, 80, 100, minting throughout, and ends completed with the result's ids |
| TrainerCard.MintTrace | src/components/TrainerCard.tsx:29-83 | six writes on success, five on failure; starts minting from the previous status, is minting until the last write, and ends with the final status and minting off |
| TrainerCard.MintBlocked | src/components/TrainerCard.tsx:24 | a disconnected session is blocked; in a coherent session the guard blocks exactly when disconnected |
| TrainerCard.MintDisabled | src/components/TrainerCard.tsx:188 | disabled while minting; otherwise disabled exactly when disconnected |
| TrainerCard.FailedTrace | src/components/TrainerCard.tsx:74-83 | a failed attempt ends failed at 0 with the message or 'Minting failed', and minting ends |
| TrainerCard.EnabledMintPassesGuard | src/components/TrainerCard.tsx:188 | in a coherent session an enabled button implies the guard lets the attempt through; disconnected means disabled and blocked |
| TrainerCard.AttemptEndsResettable | src/components/TrainerCard.tsx:170-176 | every finished attempt offers the reset button, and idle does not |
| TrainerCard.RecipientIsOrdinalsAccount | src/components/TrainerCard.tsx:38-39 | in an Xverse session the item goes to the ordinals address |
| TrainerCard.RecipientOfBareAccounts | src/components/TrainerCard.tsx:38-39 | in a UniSat session the item goes to the first address |
| BitcoinFees.RoundOr | src/services/bitcoinFees.ts:24-28 | the rounded value unless it is NaN or 0, then the default; never 0 for a non-zero default |
| BitcoinFees.GetCurrentFeeRates | src/services/bitcoinFees.ts:9-40 | null exactly for a non-ok answer; the default tuple when the request throws; each field rounded and defaulted on its own |
| BitcoinFees.RatesNeverZero | src/services/bitcoinFees.ts:23-38 | no tier of a non-null answer is 0 |
| BitcoinFees.MissingFieldDefaultsAlone | src/services/bitcoinFees.ts:23-29 | a missing field takes only its own default |
| BitcoinFees.FormatSats | src/services/bitcoinFees.ts:42-47 | from 100000 up, the BtcFixed6 text and ' BTC'; below, the en-US grouped amount and ' sats' |
| BitcoinFees.BtcFixed6 | src/services/bitcoinFees.ts:44 | `toFixed(6)` of sats / 1e8: the micro-bitcoin count nearest sats / 100, halves up, as whole bitcoins, '.', six places; the whole part times a million plus the places reads back as that count |
| BitcoinFees.MicroIsRounded | src/services/bitcoinFees.ts:44 | the integer count (sats + 50) / 100 is sats / 100 rounded half up |
| BitcoinFees.Pad6 | src/services/bitcoinFees.ts:44 | six digits that read back as the number, leading zeros kept |
| BitcoinFees.Pad3 | src/services/bitcoinFees.ts:44-46 | three digits that read back as the number, leading zeros kept |
| BitcoinFees.DigitsValueAppend3 | src/services/bitcoinFees.ts:44-46 | three digits appended multiply the value by a thousand and add their own |
| BitcoinFees.FormatSatsUnit | src/services/bitcoinFees.ts:42-47 | ends in ' BTC' if and only if the amount is at least 100000, and in ' sats' if and only if it is below |
| BitcoinFees.GroupedDigits | src/services/bitcoinFees.ts:46 | the grouped text with its commas removed is the plain decimal text |
| BitcoinFees.CataloguePriceShown | src/services/bitcoinFees.ts:46 | 5000 is shown as '5,000 sats' |
| FeeRateSelector.CustomBoxText | src/components/FeeRateSelector.tsx:120 | the typed text; else the selection when custom, which parseInt reads back; else empty |
| FeeRateSelector.LoadChange | src/components/FeeRateSelector.tsx:28-32 | a change happens exactly when rates loaded and the selection is 0 or 1, and it is to the half-hour tier |
| FeeRateSelector.CustomChange | src/components/FeeRateSelector.tsx:121-127 | a change happens exactly when parseInt gives an integer of at least 1, and it is that integer |
| FeeRateSelector.FeeRateSelector.constructor | src/components/FeeRateSelector.tsx:13-21 | no rates, loading, no custom text |
| FeeRateSelector.FeeRateSelector.Load | src/components/FeeRateSelector.tsx:23-39 | rates replaced when non-null, the first-load change, and loading ends |
| FeeRateSelector.FeeRateSelector.Refresh | src/components/FeeRateSelector.tsx:42-46 | rates replaced when non-null; the selection and the custom text are untouched |
| FeeRateSelector.FeeRateSelector.ChoosePreset | src/components/FeeRateSelector.tsx:78 | selects the tier, clears the custom text, and that preset is then highlighted |
| FeeRateSelector.FeeRateSelector.EnterCustom | src/components/FeeRateSelector.tsx:121-127 | keeps the raw text; changes the selection as CustomChange says |
| FeeRateSelector.IsCustom | src/components/FeeRateSelector.tsx:58-62 | custom exactly when custom text was typed or the selection equals none of the three tiers |
| FeeRateSelector.Highlighted | src/components/FeeRateSelector.tsx:80 | with custom text nothing is highlighted; without it a preset is highlighted if and only if the selection is its tier |
| FeeRateSelector.FirstLoadInCardKeepsSelection | src/components/TrainerCard.tsx:15 | the card's initial 10 is never replaced by the first load |
| FeeRateSelector.RemountReplacesCustomOne | src/components/FeeRateSelector.tsx:30-32 | a custom '1' selects 1, and a later mount replaces it by the half-hour tier |
| FeeRateSelector.CustomNeverSelectsZero | src/components/FeeRateSelector.tsx:124-126 | custom text never selects 0 |
| Api.ParseItem | api/mints.ts:41-47 | a JSON string becomes its record; an unparseable string passes through; a decoded value is kept |
| Api.ParseItems | api/mints.ts:41-47 | parsing keeps length and order, element by element |
| Api.RedisList.LPush | api/log-mint.ts:41 | prepends the item and answers the new length; changes nothing during an outage |
| Api.RedisList.LRange | api/mints.ts:38 | the whole list head first, or the outage's error |
| LogMintApi.MintId | api/log-mint.ts:31 | 'mint_', the millisecond digits, '_', then at most 9 characters of the base-36 text after '0.' |
| LogMintApi.RecordOf | api/log-mint.ts:30-38 | the required fields as sent; 'pending', 'pending', 5000 and the current time for the falsy optional fields; the price is never 0 |
| LogMintApi.LogMintReply | api/log-mint.ts:9-50 | 200 for OPTIONS; 405 for other non-POST methods; 400 for a missing field; a record is stored exactly for a valid POST with the store up, and the reply carries its id; 500 exactly when the store is down, with the client's message or 'Internal server error' |
| LogMintApi.Handle | api/log-mint.ts:9-50 | the reply is LogMintReply's; the list gains the record at the head and is otherwise unchanged; the CORS headers are set |
| LogMintApi.ReplyIdIsStoredId | api/log-mint.ts:45 | the replied id is the stored record's id and starts with 'mint_' |
| LogMintApi.ZeroPriceBecomesDefault | api/log-mint.ts:36 | a price of 0 is stored as 5000 |
| MintsApi.CsvFields | api/mints.ts:56 | the seven fields of a record, or 'undefined' seven times for a value that is not one |
| MintsApi.CsvLines | api/mints.ts:55-57 | one line per entry, in order |
| MintsApi.Csv | api/mints.ts:52-58 | starts with the header line; is the header alone for an empty log; otherwise a line break follows the header |
| MintsApi.Authorized | api/mints.ts:31-33 | authorised exactly when the header holds one of the two listed addresses, matched exactly |
| MintsApi.MintsReply | api/mints.ts:15-74 | 200 for OPTIONS; 405 for other non-GET methods; 403 without a listed header; 200 exactly for an authorised GET with the store up, with the CSV or the JSON of the parsed list; an authorised GET with the store down gets 500 with the client's message or 'Internal server error' |
| MintsApi.Handle | api/mints.ts:15-74 | the reply is MintsReply's; the CORS headers, plus the download headers for CSV; the store is only read |
| MintsApi.ParsingKeepsOrder | api/mints.ts:41-47 | entry i of the parsed list is item i parsed |
| MintsApi.RefusalIgnoresStore | api/mints.ts:31-35 | a refused request gets the same answer whatever the store holds or whether it is reachable |
| MintsApi.JsonCountIsLength | api/mints.ts:65-69 | the JSON count equals the number of entries sent |
| MintsApi.IntToStringPlain | api/mints.ts:56 | the price field contains neither a comma nor a line break |
| MintsApi.JoinWithout | api/mints.ts:58 | joining parts without a character, with a separator without it, gives a text without it |
| MintsApi.CsvHeaderColumns | api/mints.ts:54 | the header splits into its seven column names, as many as a line has fields |
| MintsApi.CsvLineFields | api/mints.ts:56 | a line of a record without commas or line breaks splits back into exactly its seven fields |
| MintsApi.CsvRoundTrip | api/mints.ts:52-58 | the CSV splits back into the header and one line per entry, in list order |
| MintsApi.LoggedRecordReadsBack | api/mints.ts:38-69 | a record log-mint stored comes back first with the same fields, the rest follow unchanged, and the count grows by one |
| MintLogger.AnyMatches | src/services/mintLogger.ts:40-42 | `some` over the list: true exactly when a listed address matches ignoring case |
| MintLogger.IsAdminAddress | src/services/mintLogger.ts:39-43 | true exactly when the address equals one of the two admin addresses ignoring case |
| MintLogger.LowerCaseIdempotent | src/services/mintLogger.ts:41 | lower-casing twice is lower-casing once |
| MintLogger.CaseVariantsPass | src/services/mintLogger.ts:39-43 | every case variant of an admin address passes |
| MintLogger.EndpointAcceptsOnlyHelperAdmins | api/mints.ts:33 | whoever the endpoint authorises, the helper accepts too |
| MintLogger.LowerCaseAdminRefusedByEndpoint | api/mints.ts:33 | the lower-cased first admin address passes the helper but gets 403 from the endpoint |
| MintLogger.RequestBody | src/services/mintLogger.ts:14-17 | the argument's fields plus the timestamp; absent optional fields read as empty |
| MintLogger.LogMint | src/services/mintLogger.ts:8-30 | true exactly for an ok status; false for any other status or a thrown fetch |
| MintLogger.LogMintTrueIffStored | src/services/mintLogger.ts:20-26 | against the log endpoint, logMint returns true exactly when the record was stored |
| MintLogger.StoredRecordOfLogMint | src/services/mintLogger.ts:14-17 | the stored record keeps the sent fields and the client's timestamp, never the endpoint's clock, with 'pending' for an absent txid or inscription id |
| AdminPanel.FormatAddress | src/components/AdminPanel.tsx:56-59 | '-' for empty text; else exactly the first 8 and the last 6 characters around '...', each slice clamped to the text |
| AdminPanel.FormatShortAddress | src/components/AdminPanel.tsx:58 | a text shorter than 6 shows whole on both sides |
| AdminPanel.FormatLongAddress | src/components/AdminPanel.tsx:58 | from 14 characters on, the first 8 and the last 6 around '...', 17 characters in all |
| AdminPanel.Revenue | src/components/AdminPanel.tsx:170 | the sum of prices, non-records counting 0; never negative for non-negative prices |
| AdminPanel.RevenueAppend | src/components/AdminPanel.tsx:170 | revenue is additive over list concatenation |
| AdminPanel.RevenueOfNewMint | src/components/AdminPanel.tsx:170 | a newly logged mint adds its price |
| AdminPanel.RowNumbers | src/components/AdminPanel.tsx:133 | numbers run strictly down from the count to 1 |
| AdminPanel.TxidLink | src/components/AdminPanel.tsx:142-153 | a mempool link exactly when the txid is non-empty and not 'pending' |
| AdminPanel.NoLinkForLoggedWithoutTxid | src/components/AdminPanel.tsx:142 | a mint logged without a txid gets no link |
| AdminPanel.DownloadAlwaysRefused | src/components/AdminPanel.tsx:52-54 | the download request gets 403 for every address and every store |
| AdminPanel.CorrectedDownloadServed | api/mints.ts:31-62 | the same request with the header gets the CSV for a listed admin, and 403 otherwise |
| AdminPanel.FetchView | src/components/AdminPanel.tsx:38-46 | a thrown fetch or a non-ok answer keeps the list and sets an error; an ok answer clears it |
| AdminPanel.AdminPanel.constructor | src/components/AdminPanel.tsx:19-21 | no mints, loading, no error |
| AdminPanel.AdminPanel.FetchMints | src/components/AdminPanel.tsx:27-50 | the error is cleared and the loader is on during the request; the view becomes FetchView of the endpoint's reply; the loader ends off |
| AdminPanel.ListedAdminSeesWholeLog | src/components/AdminPanel.tsx:32-44 | a listed admin sees every parsed entry in list order, and no error |
| AdminPanel.OtherAddressSeesRefusal | src/components/AdminPanel.tsx:38-41 | any other address sees the refusal text and keeps the old list |
| WalletConnect.ShortAddress | src/components/WalletConnect.tsx:23-26 | '' without an address; else exactly the first 6 and the last 4 characters around '...', each slice clamped to the address |
| WalletConnect.ShortAddressLength | src/components/WalletConnect.tsx:25 | from 10 characters on, the short form has 13 characters |
| WalletConnect.ConnectError | src/components/WalletConnect.tsx:16 | the thrown message, or 'Failed to connect wallet' when it is empty; never empty |
| WalletConnect.WalletConnect.constructor | src/components/WalletConnect.tsx:6-7 | not connecting, no error |
| WalletConnect.WalletConnect.HandleConnect | src/components/WalletConnect.tsx:9-20 | connecting with no error while the wallet is asked; afterwards not connecting; for either wallet the error is ConnectError of the adapter's message exactly when the adapter failed, and the session is then unchanged; on success it holds the adapter's accounts |
| WalletConnect.ButtonDisabled | src/components/WalletConnect.tsx:65 | disabled while connecting; otherwise disabled exactly when the wallet is missing |

## Left out

- Browser-extension calls, the dynamic `sats-connect` import, and `fetch` to the backend, mempool.space and the endpoints are inputs. Their internals are not part of this model.
- The Upstash client is not modelled. A list element it has already decoded appears as `StoreItem.Decoded`. JSON shapes other than the mint record are not modelled.
- `sendBitcoinViaXverse` (src/utils/wallet.ts:162-193) is not modelled. No core flow calls it; the payment loop talks to Xverse directly.
- The detection helpers `isUnisatInstalled` and `isXverseInstalled` are booleans inside the reply datatypes.
- The delegate HTML and JSON payload (src/services/mintingService.ts:38-66) is not modelled. It is opaque text, and only the form's other fields are modelled.
- IEEE-754 arithmetic is not modelled. `amount * 1e8`, `itemPrice / 1e8` and the reduce are exact reals. `toFixed(6)` is rounding half up of the exact value. `toLocaleString` is en-US grouping. `Date` formatting is not modelled.
- `toLowerCase` covers the ASCII letters only. Bitcoin addresses use nothing else.
- Timers are left out. The 1-second UX delay has no effect on state. The 60-second poll is the `Refresh` event.
- Concurrency and interleavings are left out. This includes a second click while minting and racing connects; the disabled buttons are their only guard.
- React's asynchronous state batching is left out. Each `set…` call takes effect at once, in program order.
- Rendering is left out. This covers labels, colours, the loading and error screens, `formatDate`, and the selector being shown only inside the mint panel.
- A log-mint request without a JSON body is not modelled. The source's destructuring throws a TypeError there, which the catch turns into a 500.
- A CSV whose field contains a comma or a line break cannot be split back: the source does no escaping. The round-trip lemmas assume plain fields.
- The `alert('Please connect your wallet first!')` of a blocked mint (src/components/TrainerCard.tsx:25) is left out; the model only records that nothing changes.
- Console logging (`console.log`, `console.warn`, `console.error`) is left out throughout; it changes no state and no result.
- `JSON.stringify` of a mint record followed by `JSON.parse` is taken to give the same record back: a stored record is the `StoreItem.JsonText` of that record, and JSON encoding is not modelled.
- Query strings are taken as already decoded. An admin address containing '&' would split the download URL's query.

## Findings

| source | as written | input that shows it | evidently intended | confidence | as-written member | corrected member |
|---|---|---|---|---|---|---|
| src/components/AdminPanel.tsx:53 | the CSV download opens `/api/mints?format=csv&adminAddress=…`, but the endpoint authorises only from the X-Admin-Address header (api/mints.ts:31), which a new tab does not send | any admin address, e.g. 3PxmhPTh8p7K7xhJeb2Hf8QbMnsagrJxcG, with any store | a listed admin downloads the CSV of the log | high; not executed | AdminPanel.DownloadAlwaysRefused | AdminPanel.CorrectedDownloadServed |
| src/services/mintingService.ts:119-124 | the admin leg is handed over in BTC, and the adapter takes any amount of at least 1 for sats (src/utils/wallet.ts:206) | an item price of 100000000 sats: the leg is 1.0, and the wallet is asked for 1 sat | the admin is paid the item price in sats | medium; not executed | MintingService.AdminLegFromOneBitcoin | MintingService.CorrectedAdminLegAgrees |
