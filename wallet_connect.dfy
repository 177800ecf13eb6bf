/** The connect card (src/components/WalletConnect.tsx): two wallet buttons, a
    connect-in-progress flag and an error line; once connected, the first account's
    address in short form. */
module WalletConnect {
  import opened JsBuiltins
  import opened Types
  import opened Wallet
  import opened WalletContext

  /** `${a.substring(0, 6)}...${a.substring(a.length - 4)}` for the first account, '' when
      there is none or its address is empty. */
  function ShortAddress(accounts: seq<WalletAccount>): (r: string)
    ensures |accounts| == 0 || accounts[0].address == "" ==> r == ""
    ensures |accounts| > 0 && accounts[0].address != "" ==>
              |r| == (if |accounts[0].address| < 6 then |accounts[0].address| else 6) + 3
                     + (if |accounts[0].address| < 4 then |accounts[0].address| else 4)
    ensures |accounts| > 0 && |accounts[0].address| >= 6 ==>
              r[..6] == accounts[0].address[..6] && r[6..9] == "..."
    ensures |accounts| > 0 && |accounts[0].address| >= 4 ==>
              r[|r| - 4..] == accounts[0].address[|accounts[0].address| - 4..]
    ensures |accounts| > 0 && accounts[0].address != "" ==>
              var a := accounts[0].address;
              r == a[..if |a| < 6 then |a| else 6] + "..." + a[if |a| < 4 then 0 else |a| - 4..]
  {
    if |accounts| == 0 || accounts[0].address == "" then ""
    else
      var a := accounts[0].address;
      Substring(a, 0, 6) + "..." + SubstringFrom(a, |a| - 4)
  }

  /** A Taproot address (62 characters) shows as 13 characters. */
  lemma ShortAddressLength(accounts: seq<WalletAccount>)
    requires |accounts| > 0 && |accounts[0].address| >= 10
    ensures |ShortAddress(accounts)| == 13
  {
  }

  /** A button is disabled while a connection is in progress or when its wallet is missing. */
  function ButtonDisabled(isConnecting: bool, installed: bool): (disabled: bool)
    ensures isConnecting ==> disabled
    ensures !isConnecting ==> (disabled <==> !installed)
  {
    isConnecting || !installed
  }

  const ConnectFailedText := "Failed to connect wallet"

  /** The error line after a failed connect: the thrown message, or the generic text when
      it is empty. */
  function ConnectError(message: string): (e: string)
    ensures e != ""
    ensures message != "" ==> e == message
  {
    if message != "" then message else ConnectFailedText
  }

  class WalletConnect {
    var isConnecting: bool
    var error: Option<string>
    /** The flags as the card showed them while the wallet was being asked. */
    ghost var duringConnect: (bool, Option<string>)

    constructor ()
      ensures !isConnecting && error.None?
    {
      isConnecting := false;
      error := None;
      duringConnect := (false, None);
    }

    /** handleConnect: sets the flag and clears the error, asks the provider, keeps the
        error of a failure, and clears the flag on both outcomes. */
    method HandleConnect(provider: WalletProvider, kind: WalletKind, unisat: UnisatConnectReply,
                         xverse: XverseConnectReply)
      requires provider.Valid()
      modifies this, provider
      ensures provider.Valid()
      ensures duringConnect == (true, None) && !isConnecting
      ensures var outcome := if kind == Unisat then ConnectUnisat(unisat) else XverseConnectOutcome(xverse);
              && error == (if outcome.Err? then Some(ConnectError(outcome.message)) else None)
              && (outcome.Ok? ==> provider.state == ConnectedState(kind, outcome.value))
      ensures error.None? ==> provider.state.connected && provider.state.walletType == Some(kind)
      ensures error.Some? ==> provider.state == old(provider.state) && error.value != ""
    {
      isConnecting := true;
      error := None;
      duringConnect := (isConnecting, error);
      var r := provider.Connect(Some(kind), unisat, xverse);
      if r.Err? {
        error := Some(ConnectError(r.message));
      }
      isConnecting := false;
    }
  }
}
