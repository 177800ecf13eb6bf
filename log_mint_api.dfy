/** The log-mint endpoint (api/log-mint.ts): checks the method and the two required fields,
    fills in defaults, and prepends the record to the Redis list. The clock and the random
    id suffix are inputs. */
module LogMintApi {
  import opened JsBuiltins
  import opened Api

  const AllowMethods := "POST, OPTIONS"
  const AllowHeaders := "Content-Type"
  const MethodNotAllowedText := "Method not allowed"
  const MissingFieldsText := "Missing required fields"
  const InternalErrorText := "Internal server error"

  /** `mint_${Date.now()}_${Math.random().toString(36).substr(2, 9)}`, where `random36` is
      the base-36 text of the random number ("0." and up to eleven digits). */
  function MintId(nowMillis: nat, random36: string): (id: string)
    ensures 5 + |NatToString(nowMillis)| + 1 <= |id| <= 5 + |NatToString(nowMillis)| + 1 + 9
    ensures id[..5] == "mint_" && id[5..5 + |NatToString(nowMillis)|] == NatToString(nowMillis)
    ensures id[5 + |NatToString(nowMillis)|] == '_'
    ensures |random36| >= 11 ==> id[5 + |NatToString(nowMillis)| + 1..] == random36[2..11]
  {
    "mint_" + NatToString(nowMillis) + "_" + Substr(random36, 2, 9)
  }

  /** The stored record: the required fields as sent, the others defaulted when falsy. */
  function RecordOf(body: LogBody, id: string, nowIso: string): (m: MintData)
    ensures m.id == id && m.minterAddress == body.minterAddress && m.trainerName == body.trainerName
    ensures m.inscriptionId == (if body.inscriptionId != "" then body.inscriptionId else "pending")
    ensures m.txid == (if body.txid != "" then body.txid else "pending")
    ensures m.price == (if body.price != 0 then body.price else 5000) && m.price != 0
    ensures m.timestamp == (if body.timestamp != "" then body.timestamp else nowIso)
  {
    MintData(id, body.minterAddress, body.trainerName,
             if body.inscriptionId != "" then body.inscriptionId else "pending",
             if body.txid != "" then body.txid else "pending",
             if body.price != 0 then body.price else 5000,
             if body.timestamp != "" then body.timestamp else nowIso)
  }

  /** The reply to a request and the record pushed, if any; `outage` is the message the
      Redis client throws when it cannot reach the store. */
  function LogMintReply(req: HttpRequest, nowMillis: nat, nowIso: string, random36: string,
                        outage: Option<string>): (r: (Reply, Option<MintData>))
    ensures req.httpMethod == "OPTIONS" ==> r == (Reply(200, NoBody), None)
    ensures req.httpMethod != "OPTIONS" && req.httpMethod != "POST" ==>
              r == (Reply(405, ErrorJson(MethodNotAllowedText)), None)
    ensures req.httpMethod == "POST" && (req.body.minterAddress == "" || req.body.trainerName == "") ==>
              r == (Reply(400, ErrorJson(MissingFieldsText)), None)
    ensures r.1.Some? <==> (req.httpMethod == "POST" && req.body.minterAddress != "" && req.body.trainerName != ""
                            && outage.None?)
    ensures r.1.Some? ==> r.0 == Reply(200, LoggedJson(true, r.1.value.id))
                          && r.1.value == RecordOf(req.body, MintId(nowMillis, random36), nowIso)
    ensures r.0.status == 500 <==> (req.httpMethod == "POST" && req.body.minterAddress != "" && req.body.trainerName != ""
                                    && outage.Some?)
    ensures r.0.status == 500 ==>
              r.0.body == ErrorJson(if outage.value != "" then outage.value else InternalErrorText)
  {
    if req.httpMethod == "OPTIONS" then (Reply(200, NoBody), None)
    else if req.httpMethod != "POST" then (Reply(405, ErrorJson(MethodNotAllowedText)), None)
    else if req.body.minterAddress == "" || req.body.trainerName == "" then (Reply(400, ErrorJson(MissingFieldsText)), None)
    else if outage.Some? then (Reply(500, ErrorJson(if outage.value != "" then outage.value else InternalErrorText)), None)
    else
      var mintData := RecordOf(req.body, MintId(nowMillis, random36), nowIso);
      (Reply(200, LoggedJson(true, mintData.id)), Some(mintData))
  }

  /** The handler. */
  method Handle(req: HttpRequest, nowMillis: nat, nowIso: string, random36: string,
                res: ServerResponse, redis: RedisList)
    modifies res, redis
    ensures var (reply, stored) := LogMintReply(req, nowMillis, nowIso, random36, old(redis.outage));
            && res.reply == Some(reply)
            && redis.items == (if stored.Some? then [JsonText(stored.value)] + old(redis.items) else old(redis.items))
    ensures res.headers == old(res.headers)["Access-Control-Allow-Origin" := "*"]
                                           ["Access-Control-Allow-Methods" := AllowMethods]
                                           ["Access-Control-Allow-Headers" := AllowHeaders]
  {
    res.SetHeader("Access-Control-Allow-Origin", "*");
    res.SetHeader("Access-Control-Allow-Methods", AllowMethods);
    res.SetHeader("Access-Control-Allow-Headers", AllowHeaders);

    if req.httpMethod == "OPTIONS" {
      res.Send(200, NoBody);
      return;
    }
    if req.httpMethod != "POST" {
      res.Send(405, ErrorJson(MethodNotAllowedText));
      return;
    }
    var body := req.body;
    if body.minterAddress == "" || body.trainerName == "" {
      res.Send(400, ErrorJson(MissingFieldsText));
      return;
    }
    var mintData := RecordOf(body, MintId(nowMillis, random36), nowIso);
    var pushed := redis.LPush(JsonText(mintData));
    if pushed.Err? {
      res.Send(500, ErrorJson(if pushed.message != "" then pushed.message else InternalErrorText));
      return;
    }
    res.Send(200, LoggedJson(true, mintData.id));
  }

  /** The id in the reply is the stored record's, and it has the 'mint_<millis>_' form. */
  lemma ReplyIdIsStoredId(req: HttpRequest, nowMillis: nat, nowIso: string, random36: string)
    requires req.httpMethod == "POST" && req.body.minterAddress != "" && req.body.trainerName != ""
    ensures var (reply, stored) := LogMintReply(req, nowMillis, nowIso, random36, None);
            && reply.status == 200 && stored.Some? && reply.body.id == stored.value.id
            && stored.value.id[..5] == "mint_"
  {
  }

  /** A logged price of 0 is stored as 5000, like a missing one. */
  lemma ZeroPriceBecomesDefault(body: LogBody, id: string, nowIso: string)
    requires body.price == 0
    ensures RecordOf(body, id, nowIso).price == 5000
  {
  }
}
