/** The shop's shared data model (src/types/index.ts). */
module Types {
  import opened JsBuiltins

  datatype Purpose = Ordinals | Payment

  /** One wallet address. UniSat accounts carry neither a public key nor a purpose. */
  datatype WalletAccount = WalletAccount(address: string, publicKey: Option<string>, purpose: Option<Purpose>)

  /** 'unisat' | 'xverse'; the nullable `WalletType` is `Option<WalletKind>`. */
  datatype WalletKind = Unisat | Xverse

  datatype Network = Mainnet | Testnet

  datatype WalletState = WalletState(walletType: Option<WalletKind>, accounts: seq<WalletAccount>, connected: bool, network: Network)

  datatype TrainerItem = TrainerItem(id: string, name: string, inscriptionId: string, description: string, price: int)

  datatype Status = Idle | Pending | Processing | Completed | Failed

  datatype MintingStatus = MintingStatus(
    status: Status,
    progress: int,
    inscriptionId: Option<string>,
    txid: Option<string>,
    paymentTxid: Option<string>,
    message: Option<string>,
    error: Option<string>)
}
