/** The client-side mint log helper and admin predicate (src/services/mintLogger.ts). The
    POST to the log endpoint is an input: either the endpoint's status or a thrown fetch. */
module MintLogger {
  import opened JsBuiltins
  import opened Api
  import LogMintApi
  import MintsApi

  /** The helper's own copy of the allow-list; it holds the same two addresses as the
      endpoint's. */
  const AdminAddresses: seq<string> := ["3PxmhPTh8p7K7xhJeb2Hf8QbMnsagrJxcG",
                                        "bc1pu8xttnuutxx9ygy93afl6w9jfmkkrht03eajqnrdgkum564u26vqysp0rp"]

  predicate SameIgnoringCase(a: string, b: string)
  {
    ToLowerCase(a) == ToLowerCase(b)
  }

  /** `admins.some(admin => admin.toLowerCase() === address.toLowerCase())` */
  function AnyMatches(admins: seq<string>, address: string): (r: bool)
    ensures r <==> exists i :: 0 <= i < |admins| && SameIgnoringCase(admins[i], address)
    decreases |admins|
  {
    if |admins| == 0 then false
    else if SameIgnoringCase(admins[0], address) then true
    else
      var rest := AnyMatches(admins[1..], address);
      assert forall i :: 1 <= i < |admins| ==> admins[i] == admins[1..][i - 1];
      rest
  }

  /** isAdminAddress: the address equals a listed one, ignoring case. */
  function IsAdminAddress(address: string): (r: bool)
    ensures r <==> SameIgnoringCase(AdminAddresses[0], address) || SameIgnoringCase(AdminAddresses[1], address)
  {
    AnyMatches(AdminAddresses, address)
  }

  /** Lower-casing twice is lower-casing once. */
  lemma LowerCaseIdempotent(s: string)
    ensures ToLowerCase(ToLowerCase(s)) == ToLowerCase(s)
  {
    var once := ToLowerCase(s);
    forall i | 0 <= i < |s|
      ensures ToLowerCase(once)[i] == once[i]
    {
      assert once[i] == LowerChar(s[i]);
    }
  }

  /** Every case variant of an admin address passes the helper. */
  lemma CaseVariantsPass(address: string, i: nat)
    requires i < |AdminAddresses|
    requires ToLowerCase(address) == ToLowerCase(AdminAddresses[i])
    ensures IsAdminAddress(address)
  {
  }

  /** The endpoint is stricter than the helper: whoever it lets in, the helper accepts. */
  lemma EndpointAcceptsOnlyHelperAdmins(headers: map<string, string>)
    requires MintsApi.Authorized(headers)
    ensures IsAdminAddress(headers[MintsApi.AdminHeader])
  {
    assert MintsApi.AdminAddresses == AdminAddresses;
  }

  /** The disagreement: the lower-case form of the first admin address passes the helper but
      the endpoint answers 403 to a request carrying it. */
  lemma LowerCaseAdminRefusedByEndpoint(items: seq<StoreItem>, outage: Option<string>)
    ensures var address := ToLowerCase(AdminAddresses[0]);
            var req := HttpRequest("GET", map[MintsApi.AdminHeader := address], map[], LogBody("", "", "", "", 0, ""));
            && IsAdminAddress(address)
            && MintsApi.MintsReply(req, items, outage) == Reply(403, ErrorJson(MintsApi.UnauthorizedText))
  {
    var address := ToLowerCase(AdminAddresses[0]);
    LowerCaseIdempotent(AdminAddresses[0]);
    assert address[1] == 'p' && AdminAddresses[0][1] == 'P';
    assert |address| != |AdminAddresses[1]|;
    assert address !in MintsApi.AdminAddresses;
  }

  // ---------------------------------------------------------------- logMint

  /** The argument of logMint; the optional fields may be absent. */
  datatype LogMintData = LogMintData(minterAddress: string, trainerName: string, inscriptionId: Option<string>,
                                     txid: Option<string>, price: int)

  /** What the POST gives: the endpoint answered with a status, or fetch threw. */
  datatype LogResponse = Answered(status: int) | LogFetchThrew(message: string)

  /** The JSON body sent: the argument's fields plus an ISO timestamp; an absent field is
      left out of the JSON and reads as falsy on the other side. */
  function RequestBody(data: LogMintData, nowIso: string): (body: LogBody)
    ensures body.minterAddress == data.minterAddress && body.trainerName == data.trainerName
    ensures body.price == data.price && body.timestamp == nowIso
    ensures data.inscriptionId.Some? ==> body.inscriptionId == data.inscriptionId.value
    ensures data.inscriptionId.None? ==> body.inscriptionId == ""
    ensures data.txid.Some? ==> body.txid == data.txid.value
    ensures data.txid.None? ==> body.txid == ""
  {
    LogBody(data.minterAddress, data.trainerName,
            if data.inscriptionId.Some? then data.inscriptionId.value else "",
            if data.txid.Some? then data.txid.value else "",
            data.price, nowIso)
  }

  /** The request as the endpoint receives it. */
  function LogRequest(data: LogMintData, nowIso: string): HttpRequest
  {
    HttpRequest("POST", map["content-type" := "application/json"], map[], RequestBody(data, nowIso))
  }

  /** logMint's boolean: true for an ok status, false for any other status or a thrown
      fetch; it never throws. */
  function LogMint(response: LogResponse): (logged: bool)
    ensures logged <==> response.Answered? && 200 <= response.status < 300
  {
    match response
    case Answered(status) => 200 <= status < 300
    case LogFetchThrew(_) => false
  }

  /** Against the real endpoint, logMint returns true exactly when the record was stored.
      `clientIso` is the timestamp the helper sends, `serverIso` the endpoint's own clock. */
  lemma LogMintTrueIffStored(data: LogMintData, clientIso: string, nowMillis: nat, serverIso: string, random36: string,
                             outage: Option<string>)
    ensures var (reply, stored) := LogMintApi.LogMintReply(LogRequest(data, clientIso), nowMillis, serverIso, random36, outage);
            LogMint(Answered(reply.status)) <==> stored.Some?
  {
  }

  /** What the endpoint stores for a logged mint: the sent fields, the client's timestamp
      whatever the endpoint's clock says, and 'pending' for an absent inscription id or txid. */
  lemma StoredRecordOfLogMint(data: LogMintData, clientIso: string, nowMillis: nat, serverIso: string, random36: string)
    requires data.minterAddress != "" && data.trainerName != "" && clientIso != "" && data.price != 0
    ensures var (_, stored) := LogMintApi.LogMintReply(LogRequest(data, clientIso), nowMillis, serverIso, random36, None);
            && stored.Some?
            && stored.value.minterAddress == data.minterAddress && stored.value.trainerName == data.trainerName
            && stored.value.price == data.price && stored.value.timestamp == clientIso
            && (data.txid.None? ==> stored.value.txid == "pending")
            && (data.inscriptionId.None? ==> stored.value.inscriptionId == "pending")
  {
  }
}
