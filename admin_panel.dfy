/** The admin mint-log panel (src/components/AdminPanel.tsx): it loads the log from the mints
    endpoint with the admin address in the X-Admin-Address header, lists the entries
    numbered from the newest, sums the revenue, and offers a CSV download link. */
module AdminPanel {
  import opened JsBuiltins
  import opened Api
  import MintsApi
  import LogMintApi
  import BitcoinFees

  // ---------------------------------------------------------------- display helpers

  /** formatAddress: '-' for an empty text, else the first 8 and the last 6 characters
      around '...', both slices clamped to the text. */
  function FormatAddress(addr: string): (r: string)
    ensures addr == "" ==> r == "-"
    ensures addr != "" ==> |r| == (if |addr| < 8 then |addr| else 8) + 3 + (if |addr| < 6 then |addr| else 6)
    ensures addr != "" && |addr| >= 8 ==> r[..8] == addr[..8]
    ensures addr != "" && |addr| >= 6 ==> r[|r| - 6..] == addr[|addr| - 6..]
    ensures addr != "" ==>
              r == addr[..if |addr| < 8 then |addr| else 8] + "..." + addr[if |addr| < 6 then 0 else |addr| - 6..]
  {
    if addr == "" then "-" else Substring(addr, 0, 8) + "..." + SubstringFrom(addr, |addr| - 6)
  }

  /** A short text is shown whole on both sides of the dots. */
  lemma FormatShortAddress(addr: string)
    requires 0 < |addr| < 6
    ensures FormatAddress(addr) == addr + "..." + addr
  {
  }

  /** A long text keeps its ends and drops its middle: 17 characters whatever its length. */
  lemma FormatLongAddress(addr: string)
    requires |addr| >= 14
    ensures FormatAddress(addr) == addr[..8] + "..." + addr[|addr| - 6..]
    ensures |FormatAddress(addr)| == 17
  {
  }

  /** `m.price || 0`: an entry that is not a record has no price. */
  function PriceOf(e: Entry): int
  {
    if e.Parsed? then e.record.price else 0
  }

  /** The footer's revenue: the prices summed from the first entry on. */
  function Revenue(mints: seq<Entry>): (total: int)
    ensures (forall i :: 0 <= i < |mints| ==> PriceOf(mints[i]) >= 0) ==> total >= 0
    decreases |mints|
  {
    if |mints| == 0 then 0 else PriceOf(mints[0]) + Revenue(mints[1..])
  }

  /** The revenue of two lists put together is the sum of their revenues. */
  lemma {:induction false} RevenueAppend(a: seq<Entry>, b: seq<Entry>)
    ensures Revenue(a + b) == Revenue(a) + Revenue(b)
    decreases |a|
  {
    if |a| == 0 {
      assert a + b == b;
    } else {
      assert (a + b)[1..] == a[1..] + b;
      RevenueAppend(a[1..], b);
    }
  }

  /** A newly logged mint adds its price to the revenue. */
  lemma RevenueOfNewMint(record: MintData, older: seq<Entry>)
    ensures Revenue([Parsed(record)] + older) == record.price + Revenue(older)
  {
    assert ([Parsed(record)] + older)[1..] == older;
  }

  /** The footer text: the total in en-US grouping, then ' sats'. */
  function RevenueText(mints: seq<Entry>): string
  {
    BitcoinFees.LocaleString(Revenue(mints)) + " sats"
  }

  /** The '#' column: the row at index i shows `mints.length - i`. */
  function RowNumbers(count: nat): (numbers: seq<int>)
    ensures |numbers| == count
    ensures count > 0 ==> numbers[0] == count && numbers[count - 1] == 1
    ensures forall i :: 0 <= i < count ==> 1 <= numbers[i] <= count
    ensures forall i, j :: 0 <= i < j < count ==> numbers[i] > numbers[j]
  {
    seq(count, i requires 0 <= i < count => count - i)
  }

  const MempoolTxUrl := "https://mempool.space/tx/"

  /** The TXID cell: a link to the explorer when the txid is set and not 'pending',
      otherwise the word 'pending'. */
  function TxidLink(txid: string): (href: Option<string>)
    ensures href.Some? <==> txid != "" && txid != "pending"
    ensures href.Some? ==> href.value == MempoolTxUrl + txid
  {
    if txid != "" && txid != "pending" then Some(MempoolTxUrl + txid) else None
  }

  /** A mint logged without a txid never gets a link. */
  lemma NoLinkForLoggedWithoutTxid(body: LogBody, id: string, nowIso: string)
    requires body.txid == ""
    ensures TxidLink(LogMintApi.RecordOf(body, id, nowIso).txid).None?
  {
  }

  // ---------------------------------------------------------------- requests it makes

  /** The GET fetchMints sends: the address in the header, nothing in the query. */
  function FetchRequest(adminAddress: string): HttpRequest
  {
    HttpRequest("GET", map[MintsApi.AdminHeader := adminAddress], map[], LogBody("", "", "", "", 0, ""))
  }

  /** The GET the download tab sends for `/api/mints?format=csv&adminAddress=…`: the address
      is only in the query; a new tab sends no X-Admin-Address header. */
  function DownloadRequest(adminAddress: string): HttpRequest
  {
    HttpRequest("GET", map[], map["format" := "csv", "adminAddress" := adminAddress], LogBody("", "", "", "", 0, ""))
  }

  /** The download link never works: whatever the address and the store, the answer is 403. */
  lemma DownloadAlwaysRefused(adminAddress: string, items: seq<StoreItem>, outage: Option<string>)
    ensures MintsApi.MintsReply(DownloadRequest(adminAddress), items, outage)
            == Reply(403, ErrorJson(MintsApi.UnauthorizedText))
  {
  }

  /** The download request the endpoint can serve: the same query, and the address in the
      X-Admin-Address header it reads, as fetchMints sends it. */
  function CorrectedDownloadRequest(adminAddress: string): HttpRequest
  {
    HttpRequest("GET", map[MintsApi.AdminHeader := adminAddress], DownloadRequest(adminAddress).query,
                DownloadRequest(adminAddress).body)
  }

  /** With the header a listed admin gets the CSV of the whole log; anyone else still gets
      403. */
  lemma CorrectedDownloadServed(adminAddress: string, items: seq<StoreItem>)
    ensures adminAddress in MintsApi.AdminAddresses ==>
              MintsApi.MintsReply(CorrectedDownloadRequest(adminAddress), items, None)
              == Reply(200, CsvText(MintsApi.Csv(ParseItems(items))))
    ensures adminAddress !in MintsApi.AdminAddresses ==>
              MintsApi.MintsReply(CorrectedDownloadRequest(adminAddress), items, None)
              == Reply(403, ErrorJson(MintsApi.UnauthorizedText))
  {
  }

  // ---------------------------------------------------------------- the panel's state

  /** What fetchMints ends with, given the endpoint's reply or the message fetch threw. */
  datatype PanelView = PanelView(mints: seq<Entry>, error: Option<string>)

  const FetchFailedText := "Failed to fetch mints"

  function FetchView(before: seq<Entry>, reply: Result<Reply>): (v: PanelView)
    ensures reply.Err? ==> v == PanelView(before, Some(reply.message))
    ensures reply.Ok? && reply.value.status != 200 ==> v.mints == before && v.error.Some?
    ensures reply.Ok? && reply.value.status == 200 ==> v.error.None?
  {
    if reply.Err? then PanelView(before, Some(reply.message))
    else if reply.value.status != 200 then
      var data := reply.value.body;
      PanelView(before, Some(if data.ErrorJson? && data.error != "" then data.error else FetchFailedText))
    else if reply.value.body.MintsJson? then PanelView(reply.value.body.mints, None)
    else PanelView([], None)
  }

  class AdminPanel {
    const adminAddress: string
    var mints: seq<Entry>
    var loading: bool
    var error: Option<string>
    /** The loader flag and the error line as the panel showed them while the request ran. */
    ghost var duringFetch: (bool, Option<string>)

    constructor (adminAddress0: string)
      ensures adminAddress == adminAddress0 && mints == [] && loading && error.None?
    {
      adminAddress := adminAddress0;
      mints := [];
      loading := true;
      error := None;
      duringFetch := (true, None);
    }

    /** fetchMints: clears the error and shows the loader, asks the endpoint, then keeps the
        list or the error, and always ends with the loader off. `networkError` is the message
        fetch throws when the endpoint cannot be reached at all. */
    method FetchMints(redis: RedisList, networkError: Option<string>)
      modifies this
      ensures duringFetch == (true, None) && !loading
      ensures var reply := if networkError.Some? then Err(networkError.value)
                           else Ok(MintsApi.MintsReply(FetchRequest(adminAddress), redis.items, redis.outage));
              PanelView(mints, error) == FetchView(old(mints), reply)
    {
      loading := true;
      error := None;
      duringFetch := (loading, error);
      if networkError.Some? {
        error := Some(networkError.value);
        loading := false;
        return;
      }
      var response := MintsApi.MintsReply(FetchRequest(adminAddress), redis.items, redis.outage);
      if response.status != 200 {
        var data := response.body;
        error := Some(if data.ErrorJson? && data.error != "" then data.error else FetchFailedText);
        loading := false;
        return;
      }
      mints := if response.body.MintsJson? then response.body.mints else [];
      loading := false;
    }
  }

  /** For a listed admin and a reachable store the panel shows every element of the log,
      parsed, in list order, and no error. */
  lemma ListedAdminSeesWholeLog(adminAddress: string, before: seq<Entry>, items: seq<StoreItem>)
    requires adminAddress in MintsApi.AdminAddresses
    ensures FetchView(before, Ok(MintsApi.MintsReply(FetchRequest(adminAddress), items, None)))
            == PanelView(ParseItems(items), None)
  {
  }

  /** Any other address sees the endpoint's refusal and keeps its old list. */
  lemma OtherAddressSeesRefusal(adminAddress: string, before: seq<Entry>, items: seq<StoreItem>, outage: Option<string>)
    requires adminAddress !in MintsApi.AdminAddresses
    ensures FetchView(before, Ok(MintsApi.MintsReply(FetchRequest(adminAddress), items, outage)))
            == PanelView(before, Some(MintsApi.UnauthorizedText))
  {
  }
}
