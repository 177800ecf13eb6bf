/** The wallet session (src/contexts/WalletContext.tsx): one WalletState cell that connect,
    disconnect, the UniSat accountsChanged listener and the auto-reconnect overwrite. The
    extension replies each handler awaits are inputs. */
module WalletContext {
  import opened JsBuiltins
  import opened Types
  import opened Wallet

  /** The state the provider starts in and disconnect returns to. */
  function InitialState(): (s: WalletState)
    ensures !s.connected && s.accounts == [] && s.walletType.None? && s.network == Mainnet
  {
    WalletState(None, [], false, Mainnet)
  }

  /** The session invariant: connected, a non-empty account list and a chosen wallet go
      together, and the network is always mainnet (nothing ever sets it otherwise). */
  predicate Coherent(s: WalletState)
  {
    && (s.connected <==> |s.accounts| > 0)
    && (s.connected <==> s.walletType.Some?)
    && s.network == Mainnet
  }

  lemma InitialStateCoherent()
    ensures Coherent(InitialState())
  {
  }

  /** The state a successful connect or a reconnect writes. */
  function ConnectedState(kind: WalletKind, accounts: seq<WalletAccount>): (s: WalletState)
    ensures s.connected && s.walletType == Some(kind) && s.accounts == accounts
    ensures Coherent(s) <==> |accounts| > 0
  {
    WalletState(Some(kind), accounts, true, Mainnet)
  }

  /** The state the UniSat accountsChanged listener writes: a non-empty list replaces the
      accounts and keeps the network; an empty list resets the session. */
  function AfterAccountsChanged(prev: WalletState, addresses: seq<string>): (s: WalletState)
    ensures |addresses| > 0 ==> s.walletType == Some(Unisat) && s.connected && s.network == prev.network
                                 && s.accounts == BareAccounts(addresses)
    ensures |addresses| == 0 ==> s == InitialState()
  {
    if |addresses| > 0 then prev.(accounts := BareAccounts(addresses), connected := true, walletType := Some(Unisat))
    else InitialState()
  }

  /** Every listener event keeps the session coherent. */
  lemma AccountsChangedKeepsCoherent(prev: WalletState, addresses: seq<string>)
    requires Coherent(prev)
    ensures Coherent(AfterAccountsChanged(prev, addresses))
  {
  }

  class WalletProvider {
    var state: WalletState

    predicate Valid()
      reads this
    {
      Coherent(state)
    }

    constructor ()
      ensures state == InitialState()
      ensures Valid()
    {
      state := WalletState(None, [], false, Mainnet);
    }

    /** checkWalletConnection: adopts UniSat's accounts when it lists at least one, and
        otherwise leaves the session as it was (errors are swallowed). */
    method CheckWalletConnection(reply: UnisatAccountsReply)
      requires Valid()
      modifies this
      ensures Valid()
      ensures |GetUnisatAccounts(reply)| > 0 ==> state == ConnectedState(Unisat, GetUnisatAccounts(reply))
      ensures |GetUnisatAccounts(reply)| == 0 ==> state == old(state)
    {
      var unisatAccounts := GetUnisatAccounts(reply);
      if |unisatAccounts| > 0 {
        state := WalletState(Some(Unisat), unisatAccounts, true, Mainnet);
        return;
      }
    }

    /** The accountsChanged listener registered when UniSat is installed. */
    method HandleAccountsChanged(addresses: seq<string>)
      requires Valid()
      modifies this
      ensures Valid()
      ensures state == AfterAccountsChanged(old(state), addresses)
    {
      if |addresses| > 0 {
        state := state.(accounts := BareAccounts(addresses), connected := true, walletType := Some(Unisat));
      } else {
        state := WalletState(None, [], false, Mainnet);
      }
    }

    /** connect: asks the chosen adapter for accounts; on success the session switches to
        that wallet, on any failure (including a missing wallet type) it is untouched and
        the error is rethrown. */
    method Connect(walletType: Option<WalletKind>, unisat: UnisatConnectReply, xverse: XverseConnectReply)
      returns (r: Result<seq<WalletAccount>>)
      requires Valid()
      modifies this
      ensures Valid()
      ensures walletType.None? ==> r == Err("Invalid wallet type")
      ensures walletType == Some(Unisat) ==> r == ConnectUnisat(unisat)
      ensures walletType == Some(Xverse) ==> r == XverseConnectOutcome(xverse)
      ensures r.Ok? ==> walletType.Some? && |r.value| > 0 && state == ConnectedState(walletType.value, r.value)
      ensures r.Err? ==> state == old(state)
    {
      var accounts: Result<seq<WalletAccount>>;
      if walletType == Some(Unisat) {
        accounts := ConnectUnisat(unisat);
      } else if walletType == Some(Xverse) {
        accounts := ConnectXverse(xverse);
      } else {
        return Err("Invalid wallet type");
      }
      if accounts.Err? {
        return accounts;
      }
      state := WalletState(walletType, accounts.value, true, Mainnet);
      return accounts;
    }

    /** disconnect: back to the initial state, whatever the session was. */
    method Disconnect()
      modifies this
      ensures state == InitialState()
      ensures Valid()
    {
      state := WalletState(None, [], false, Mainnet);
    }
  }
}
