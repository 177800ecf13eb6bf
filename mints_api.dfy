/** The admin read endpoint (api/mints.ts): checks the method and the X-Admin-Address header
    against the allow-list, reads the whole Redis list, parses each element, and answers
    JSON or, for `?format=csv`, a CSV download. */
module MintsApi {
  import opened JsBuiltins
  import opened Api
  import LogMintApi

  /** The endpoint's allow-list, compared exactly. */
  const AdminAddresses: seq<string> := ["3PxmhPTh8p7K7xhJeb2Hf8QbMnsagrJxcG",
                                        "bc1pu8xttnuutxx9ygy93afl6w9jfmkkrht03eajqnrdgkum564u26vqysp0rp"]

  const AllowMethods := "GET, OPTIONS"
  const AllowHeaders := "Content-Type, X-Admin-Address"
  const AdminHeader := "x-admin-address"
  const UnauthorizedText := "Unauthorized - Admin access required"
  /** The CSV columns, in order. */
  const CsvColumns: seq<string> := ["ID", "Minter Address", "Trainer", "Inscription ID", "TXID", "Price (sats)", "Timestamp"]
  const CsvHeader := Join(CsvColumns, ",")
  const CsvDisposition := "attachment; filename=trainer-mints.csv"

  /** `!adminAddress || !ADMIN_ADDRESSES.includes(adminAddress)` negated: the header must be
      one of the two addresses exactly, with no case folding. */
  function Authorized(headers: map<string, string>): (ok: bool)
    ensures ok <==> AdminHeader in headers
                    && (headers[AdminHeader] == AdminAddresses[0] || headers[AdminHeader] == AdminAddresses[1])
  {
    AdminHeader in headers && headers[AdminHeader] != "" && headers[AdminHeader] in AdminAddresses
  }

  /** The seven fields of a CSV line; a value that is not a record has none of the
      properties, and each shows as 'undefined'. */
  function CsvFields(e: Entry): (fields: seq<string>)
    ensures |fields| == 7
    ensures e.Parsed? ==> fields == [e.record.id, e.record.minterAddress, e.record.trainerName, e.record.inscriptionId,
                                     e.record.txid, IntToString(e.record.price), e.record.timestamp]
    ensures e.Unparsed? ==> forall i :: 0 <= i < 7 ==> fields[i] == "undefined"
  {
    match e
    case Parsed(m) => [m.id, m.minterAddress, m.trainerName, m.inscriptionId, m.txid, IntToString(m.price), m.timestamp]
    case Unparsed(_) => ["undefined", "undefined", "undefined", "undefined", "undefined", "undefined", "undefined"]
  }

  /** One line: the fields joined by commas, without quoting or escaping. */
  function CsvLine(e: Entry): string
  {
    Join(CsvFields(e), ",")
  }

  function CsvLines(entries: seq<Entry>): (lines: seq<string>)
    ensures |lines| == |entries|
    ensures forall i :: 0 <= i < |entries| ==> lines[i] == CsvLine(entries[i])
  {
    seq(|entries|, i requires 0 <= i < |entries| => CsvLine(entries[i]))
  }

  /** The header line, then one line per entry in list order, joined by '\n'. */
  function Csv(entries: seq<Entry>): (text: string)
    ensures |entries| == 0 ==> text == CsvHeader
    ensures |text| > |CsvHeader| <==> |entries| > 0
    ensures text[..|CsvHeader|] == CsvHeader
    ensures |entries| > 0 ==> text[|CsvHeader|] == '\n'
  {
    var lines := [CsvHeader] + CsvLines(entries);
    assert lines[0] == CsvHeader && lines[1..] == CsvLines(entries);
    Join(lines, "\n")
  }

  function IsCsvRequest(req: HttpRequest): bool
  {
    "format" in req.query && req.query["format"] == "csv"
  }

  /** The reply to a request, given the list's elements and the message the Redis client
      throws when it cannot reach the store. */
  function MintsReply(req: HttpRequest, items: seq<StoreItem>, outage: Option<string>): (r: Reply)
    ensures req.httpMethod == "OPTIONS" ==> r == Reply(200, NoBody)
    ensures req.httpMethod != "OPTIONS" && req.httpMethod != "GET" ==> r == Reply(405, ErrorJson(LogMintApi.MethodNotAllowedText))
    ensures req.httpMethod == "GET" && !Authorized(req.headers) ==> r == Reply(403, ErrorJson(UnauthorizedText))
    ensures req.httpMethod == "GET" && Authorized(req.headers) && outage.Some? ==>
              r == Reply(500, ErrorJson(if outage.value != "" then outage.value else LogMintApi.InternalErrorText))
    ensures r.status == 200 && req.httpMethod == "GET" <==> Authorized(req.headers) && req.httpMethod == "GET" && outage.None?
    ensures r.status == 200 && req.httpMethod == "GET" && IsCsvRequest(req) ==> r.body == CsvText(Csv(ParseItems(items)))
    ensures r.status == 200 && req.httpMethod == "GET" && !IsCsvRequest(req) ==>
              r.body == MintsJson(true, |items|, ParseItems(items))
  {
    if req.httpMethod == "OPTIONS" then Reply(200, NoBody)
    else if req.httpMethod != "GET" then Reply(405, ErrorJson(LogMintApi.MethodNotAllowedText))
    else if !Authorized(req.headers) then Reply(403, ErrorJson(UnauthorizedText))
    else if outage.Some? then Reply(500, ErrorJson(if outage.value != "" then outage.value else LogMintApi.InternalErrorText))
    else
      var parsedMints := ParseItems(items);
      if IsCsvRequest(req) then Reply(200, CsvText(Csv(parsedMints)))
      else Reply(200, MintsJson(true, |parsedMints|, parsedMints))
  }

  /** The headers set: CORS always, and the download headers for a CSV answer. */
  function MintsHeaders(before: map<string, string>, reply: Reply): map<string, string>
  {
    var cors := before["Access-Control-Allow-Origin" := "*"]
                      ["Access-Control-Allow-Methods" := AllowMethods]
                      ["Access-Control-Allow-Headers" := AllowHeaders];
    if reply.body.CsvText? then cors["Content-Type" := "text/csv"]["Content-Disposition" := CsvDisposition]
    else cors
  }

  /** The handler. The store is only read. */
  method Handle(req: HttpRequest, res: ServerResponse, redis: RedisList)
    modifies res
    ensures res.reply == Some(MintsReply(req, redis.items, redis.outage))
    ensures res.headers == MintsHeaders(old(res.headers), res.reply.value)
  {
    res.SetHeader("Access-Control-Allow-Origin", "*");
    res.SetHeader("Access-Control-Allow-Methods", AllowMethods);
    res.SetHeader("Access-Control-Allow-Headers", AllowHeaders);

    if req.httpMethod == "OPTIONS" {
      res.Send(200, NoBody);
      return;
    }
    if req.httpMethod != "GET" {
      res.Send(405, ErrorJson(LogMintApi.MethodNotAllowedText));
      return;
    }
    if !(AdminHeader in req.headers && req.headers[AdminHeader] != "" && req.headers[AdminHeader] in AdminAddresses) {
      res.Send(403, ErrorJson(UnauthorizedText));
      return;
    }
    var mints := redis.LRange();
    if mints.Err? {
      res.Send(500, ErrorJson(if mints.message != "" then mints.message else LogMintApi.InternalErrorText));
      return;
    }
    var parsedMints := ParseItems(mints.value);
    if IsCsvRequest(req) {
      res.SetHeader("Content-Type", "text/csv");
      res.SetHeader("Content-Disposition", CsvDisposition);
      res.Send(200, CsvText(Csv(parsedMints)));
      return;
    }
    res.Send(200, MintsJson(true, |parsedMints|, parsedMints));
  }

  // ---------------------------------------------------------------- what the endpoint promises

  /** Parsing keeps length and order: records come back as records, the other strings as
      they were. */
  lemma ParsingKeepsOrder(items: seq<StoreItem>, i: nat)
    requires i < |items|
    ensures |ParseItems(items)| == |items|
    ensures items[i].JsonText? ==> ParseItems(items)[i] == Parsed(items[i].record)
    ensures items[i].PlainText? ==> ParseItems(items)[i] == Unparsed(items[i].text)
  {
  }

  /** The refusal comes before the store is read: it is the same whatever the list holds and
      whether or not the store is reachable. */
  lemma RefusalIgnoresStore(req: HttpRequest, items1: seq<StoreItem>, outage1: Option<string>,
                            items2: seq<StoreItem>, outage2: Option<string>)
    requires req.httpMethod == "GET" && !Authorized(req.headers)
    ensures MintsReply(req, items1, outage1) == MintsReply(req, items2, outage2)
  {
  }

  /** The JSON answer's count is the number of entries it carries. */
  lemma JsonCountIsLength(req: HttpRequest, items: seq<StoreItem>)
    requires req.httpMethod == "GET" && Authorized(req.headers) && !IsCsvRequest(req)
    ensures MintsReply(req, items, None).body.MintsJson?
    ensures MintsReply(req, items, None).body.count == |MintsReply(req, items, None).body.mints|
  {
  }

  /** A record is a field with no comma or line break in it. */
  predicate PlainField(s: string)
  {
    ',' !in s && '\n' !in s
  }

  predicate PlainRecord(m: MintData)
  {
    PlainField(m.id) && PlainField(m.minterAddress) && PlainField(m.trainerName) && PlainField(m.inscriptionId)
    && PlainField(m.txid) && PlainField(m.timestamp)
  }

  predicate PlainEntry(e: Entry)
  {
    e.Parsed? ==> PlainRecord(e.record)
  }

  lemma IntToStringPlain(i: int)
    ensures PlainField(IntToString(i))
  {
    var s := NatToString(if i < 0 then -i else i);
    assert forall k :: 0 <= k < |s| ==> s[k] != ',' && s[k] != '\n';
  }

  lemma {:induction false} JoinWithout(parts: seq<string>, sep: string, c: char)
    requires c !in sep
    requires forall i :: 0 <= i < |parts| ==> c !in parts[i]
    ensures c !in Join(parts, sep)
    decreases |parts|
  {
    if |parts| > 1 {
      JoinWithout(parts[1..], sep, c);
    }
  }

  /** The header splits back into its seven column names, one per field of a line. */
  lemma CsvHeaderColumns()
    ensures Split(CsvHeader, ',') == CsvColumns
    ensures |Split(CsvHeader, ',')| == |CsvFields(Unparsed(""))|
  {
    SplitJoin(CsvColumns, ',');
  }

  /** A CSV line of a record without commas splits back into exactly its seven fields. */
  lemma CsvLineFields(e: Entry)
    requires PlainEntry(e)
    ensures Split(CsvLine(e), ',') == CsvFields(e)
    ensures '\n' !in CsvLine(e)
  {
    var fields := CsvFields(e);
    if e.Parsed? {
      IntToStringPlain(e.record.price);
    }
    assert forall i :: 0 <= i < |fields| ==> PlainField(fields[i]);
    SplitJoin(fields, ',');
    JoinWithout(fields, ",", '\n');
  }

  /** The CSV text splits back into the header and one line per entry, in list order. */
  lemma CsvRoundTrip(entries: seq<Entry>)
    requires forall i :: 0 <= i < |entries| ==> PlainEntry(entries[i])
    ensures Split(Csv(entries), '\n') == [CsvHeader] + CsvLines(entries)
  {
    var lines := [CsvHeader] + CsvLines(entries);
    forall i | 0 <= i < |entries|
      ensures '\n' !in CsvLines(entries)[i]
    {
      CsvLineFields(entries[i]);
    }
    JoinWithout(CsvColumns, ",", '\n');
    assert forall i :: 0 <= i < |lines| ==> '\n' !in lines[i];
    SplitJoin(lines, '\n');
    assert Csv(entries) == Join(lines, "\n");
  }

  /** A record log-mint stored is read back first, with the same fields, and the JSON count
      grows by one. */
  lemma LoggedRecordReadsBack(logReq: HttpRequest, nowMillis: nat, nowIso: string, random36: string,
                              items: seq<StoreItem>, readReq: HttpRequest)
    requires LogMintApi.LogMintReply(logReq, nowMillis, nowIso, random36, None).1.Some?
    requires readReq.httpMethod == "GET" && Authorized(readReq.headers) && !IsCsvRequest(readReq)
    ensures var stored := LogMintApi.LogMintReply(logReq, nowMillis, nowIso, random36, None).1.value;
            var reply := MintsReply(readReq, [JsonText(stored)] + items, None);
            && reply.status == 200 && reply.body.MintsJson?
            && reply.body.count == |items| + 1
            && reply.body.mints[0] == Parsed(stored)
            && reply.body.mints[1..] == ParseItems(items)
  {
    var stored := LogMintApi.LogMintReply(logReq, nowMillis, nowIso, random36, None).1.value;
    var all := [JsonText(stored)] + items;
    assert ParseItems(all)[1..] == ParseItems(items);
  }
}
