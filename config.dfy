/** The network and contract registry, and the block-explorer links built from it. */
module Config {
  import opened Wrappers

  /** The one chain the registry knows: Base Sepolia. */
  const BaseSepoliaId: int := 84532
  const BaseSepoliaRpc := "https://sepolia.base.org"
  const BaseSepoliaExplorer := "https://sepolia.basescan.org"

  /** The chain the wallet connection is configured for (the Pharos network). */
  const PharosChainId: int := 50002

  const ZeroAddress := "0x0000000000000000000000000000000000000000"

  /** The keys of the registry's Base Sepolia entry. */
  datatype ContractName = OperatorRegistry | RestakingLST | USDC | PUSDC

  function BaseSepoliaAddress(name: ContractName): string {
    match name
    case OperatorRegistry => ZeroAddress
    case RestakingLST => ZeroAddress
    case USDC => "0xf12F7584143D17169905D7954D3DEab8942a310d"
    case PUSDC => "0x52d336d5fB92A28a95fE22A089eb4c99209263D6"
  }

  /** Address text: "0x" and forty more characters. */
  predicate IsAddress(s: string) {
    |s| == 42 && s[0] == '0' && s[1] == 'x'
  }

  /** `getContractAddress`: the Base Sepolia entry on Base Sepolia, the zero address on any other chain. */
  function GetContractAddress(name: ContractName, chainId: int): (a: string)
    ensures IsAddress(a)
  {
    if chainId == BaseSepoliaId then BaseSepoliaAddress(name) else ZeroAddress
  }

  /** Off Base Sepolia nothing is registered. */
  lemma UnknownChainGivesZero(name: ContractName, chainId: int)
    requires chainId != BaseSepoliaId
    ensures GetContractAddress(name, chainId) == ZeroAddress
  {
  }

  /** In particular the Pharos chain the wallet is configured for has no registered contract. */
  lemma PharosChainUnregistered(name: ContractName)
    ensures GetContractAddress(name, PharosChainId) == ZeroAddress
  {
    UnknownChainGivesZero(name, PharosChainId);
  }

  /**
   * The registry answers a real address only for the two tokens on Base Sepolia;
   * the operator registry and the restaking token are the zero address on every chain.
   */
  lemma NonZeroIff(name: ContractName, chainId: int)
    ensures GetContractAddress(name, chainId) != ZeroAddress <==>
      chainId == BaseSepoliaId && (name == USDC || name == PUSDC)
  {
    assert BaseSepoliaAddress(USDC)[2] != ZeroAddress[2];
    assert BaseSepoliaAddress(PUSDC)[2] != ZeroAddress[2];
  }

  /** The two registered tokens have different addresses. */
  lemma TokensDistinct()
    ensures GetContractAddress(USDC, BaseSepoliaId) != GetContractAddress(PUSDC, BaseSepoliaId)
  {
    assert BaseSepoliaAddress(USDC)[2] != BaseSepoliaAddress(PUSDC)[2];
  }

  /** `getRpcUrl`: both branches give the Base Sepolia endpoint. */
  function GetRpcUrl(chainId: int): string {
    if chainId == BaseSepoliaId then BaseSepoliaRpc else BaseSepoliaRpc
  }

  /** `getExplorerUrl`: both branches give the Base Sepolia explorer. */
  function GetExplorerUrl(chainId: int): string {
    if chainId == BaseSepoliaId then BaseSepoliaExplorer else BaseSepoliaExplorer
  }

  /** The chain id does not matter: every chain gets the same endpoint and explorer. */
  lemma UrlsIgnoreChain(a: int, b: int)
    ensures GetRpcUrl(a) == GetRpcUrl(b) == BaseSepoliaRpc
    ensures GetExplorerUrl(a) == GetExplorerUrl(b) == BaseSepoliaExplorer
  {
  }

  const TxPath := "/tx/"
  const AddressPath := "/address/"

  /** `getTransactionUrl`: `${explorer}/tx/${txHash}`. */
  function GetTransactionUrl(chainId: int, txHash: string): (u: string)
    ensures |u| == |BaseSepoliaExplorer| + |TxPath| + |txHash|
  {
    GetExplorerUrl(chainId) + TxPath + txHash
  }

  /** `getAddressUrl`: `${explorer}/address/${address}`. */
  function GetAddressUrl(chainId: int, address: string): (u: string)
    ensures |u| == |BaseSepoliaExplorer| + |AddressPath| + |address|
  {
    GetExplorerUrl(chainId) + AddressPath + address
  }

  /** The part of a link after a given explorer path, if the link has that form. */
  function AfterPrefix(url: string, prefix: string): (r: Option<string>)
    ensures r.Some? ==> prefix + r.value == url
    ensures r.None? <==> !(|prefix| <= |url| && url[..|prefix|] == prefix)
  {
    if |prefix| <= |url| && url[..|prefix|] == prefix then
      assert prefix + url[|prefix|..] == url;
      Some(url[|prefix|..])
    else None
  }

  /** The hash a transaction link points at. */
  function TransactionOf(url: string): Option<string> {
    AfterPrefix(url, BaseSepoliaExplorer + TxPath)
  }

  /** The address an address link points at. */
  function AddressOf(url: string): Option<string> {
    AfterPrefix(url, BaseSepoliaExplorer + AddressPath)
  }

  /** A transaction link gives back its hash, and a link that gives a hash is that hash's link. */
  lemma TransactionUrlRoundTrip(chainId: int, txHash: string, url: string)
    ensures TransactionOf(GetTransactionUrl(chainId, txHash)) == Some(txHash)
    ensures TransactionOf(url) == Some(txHash) ==> GetTransactionUrl(chainId, txHash) == url
  {
    var p := BaseSepoliaExplorer + TxPath;
    var u := GetTransactionUrl(chainId, txHash);
    assert u == p + txHash;
    assert u[..|p|] == p && u[|p|..] == txHash;
  }

  /** An address link gives back its address, and a link that gives an address is that address's link. */
  lemma AddressUrlRoundTrip(chainId: int, address: string, url: string)
    ensures AddressOf(GetAddressUrl(chainId, address)) == Some(address)
    ensures AddressOf(url) == Some(address) ==> GetAddressUrl(chainId, address) == url
  {
    var p := BaseSepoliaExplorer + AddressPath;
    var u := GetAddressUrl(chainId, address);
    assert u == p + address;
    assert u[..|p|] == p && u[|p|..] == address;
  }

  /** No transaction link is an address link, whatever the hash and address. */
  lemma TransactionAndAddressUrlsDiffer(a: int, b: int, txHash: string, address: string)
    ensures GetTransactionUrl(a, txHash) != GetAddressUrl(b, address)
  {
    var k := |BaseSepoliaExplorer| + 1;
    assert GetTransactionUrl(a, txHash)[k] == 't';
    assert GetAddressUrl(b, address)[k] == 'a';
  }
}
