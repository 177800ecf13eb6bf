/** What the two serverless endpoints (api/log-mint.ts, api/mints.ts) share: the mint
    record, the Redis list 'trainer-mints' both of them use, and the request and response
    objects of the serverless runtime. */
module Api {
  import opened JsBuiltins

  /** One logged mint, as log-mint stores it. */
  datatype MintData = MintData(id: string, minterAddress: string, trainerName: string, inscriptionId: string,
                               txid: string, price: int, timestamp: string)

  /** One element of the Redis list as the client returns it: the JSON text of a record, a
      string JSON.parse rejects, or a value the client already decoded. */
  datatype StoreItem = JsonText(record: MintData) | PlainText(text: string) | Decoded(value: MintData)

  /** One element after the endpoint's parse step. */
  datatype Entry = Parsed(record: MintData) | Unparsed(text: string)

  /** `typeof mint === 'string' ? JSON.parse(mint) : mint`, falling back to the raw value
      when the parse throws. */
  function ParseItem(item: StoreItem): (e: Entry)
    ensures item.JsonText? ==> e == Parsed(item.record)
    ensures item.Decoded? ==> e == Parsed(item.value)
    ensures item.PlainText? ==> e == Unparsed(item.text)
  {
    match item
    case JsonText(record) => Parsed(record)
    case PlainText(text) => Unparsed(text)
    case Decoded(value) => Parsed(value)
  }

  function ParseItems(items: seq<StoreItem>): (r: seq<Entry>)
    ensures |r| == |items|
    ensures forall i :: 0 <= i < |items| ==> r[i] == ParseItem(items[i])
  {
    seq(|items|, i requires 0 <= i < |items| => ParseItem(items[i]))
  }

  /** The list key both endpoints use. */
  const MintListKey := "trainer-mints"

  /** The Redis list 'trainer-mints'. While `outage` holds a message, every command throws
      it and changes nothing. */
  class RedisList {
    var items: seq<StoreItem>
    var outage: Option<string>

    constructor (items0: seq<StoreItem>, outage0: Option<string>)
      ensures items == items0 && outage == outage0
    {
      items := items0;
      outage := outage0;
    }

    /** `lpush`: prepends and answers the new length. */
    method LPush(item: StoreItem) returns (r: Result<nat>)
      modifies this
      ensures outage == old(outage)
      ensures old(outage).None? ==> items == [item] + old(items) && r == Ok(|items|)
      ensures old(outage).Some? ==> items == old(items) && r == Err(old(outage).value)
    {
      if outage.Some? {
        return Err(outage.value);
      }
      items := [item] + items;
      return Ok(|items|);
    }

    /** `lrange(key, 0, -1)`: the whole list, head first. */
    method LRange() returns (r: Result<seq<StoreItem>>)
      ensures outage.None? ==> r == Ok(items)
      ensures outage.Some? ==> r == Err(outage.value)
    {
      if outage.Some? {
        return Err(outage.value);
      }
      return Ok(items);
    }
  }

  /** The JSON body log-mint reads; falsy fields are "" or 0. */
  datatype LogBody = LogBody(minterAddress: string, trainerName: string, inscriptionId: string, txid: string,
                             price: int, timestamp: string)

  /** A request as the handler sees it: header names are lower-case. */
  datatype HttpRequest = HttpRequest(httpMethod: string, headers: map<string, string>, query: map<string, string>,
                                     body: LogBody)

  /** What a handler sends back. */
  datatype ResponseBody =
    | NoBody
    | ErrorJson(error: string)
    | LoggedJson(success: bool, id: string)
    | MintsJson(success: bool, count: nat, mints: seq<Entry>)
    | CsvText(csv: string)

  datatype Reply = Reply(status: int, body: ResponseBody)

  /** `res` of the serverless runtime: headers and status are set step by step. */
  class ServerResponse {
    var headers: map<string, string>
    var reply: Option<Reply>

    constructor ()
      ensures headers == map[] && reply.None?
    {
      headers := map[];
      reply := None;
    }

    method SetHeader(name: string, value: string)
      modifies this
      ensures headers == old(headers)[name := value] && reply == old(reply)
    {
      headers := headers[name := value];
    }

    /** `res.status(code).json(body)`, `.send(body)` or `.end()`. */
    method Send(status: int, body: ResponseBody)
      modifies this
      ensures reply == Some(Reply(status, body)) && headers == old(headers)
    {
      reply := Some(Reply(status, body));
    }
  }
}
