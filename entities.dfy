/** The rows of the entity store, one datatype per entity type of the
    subgraph schema. A row's `id` is the key it is saved under in its map
    and is not repeated inside the row. Fields a handler may leave unset
    are `Option`s. Amounts, prices and timestamps are `int`: graph-ts
    `BigInt` is signed and unbounded. */
module Entities {
  import opened Ids

  datatype Option<T> = None | Some(value: T)

  // ----- CarbonOpus (songs and rewards) -----

  datatype Artist = Artist(rewards: int, address: Address)

  datatype Buyer = Buyer(address: Address)

  datatype Referrer = Referrer(rewards: int, address: Address)

  datatype Song = Song(artist: Bytes, price: int, referralPct: int, createdAt: int)

  datatype SongPurchase = SongPurchase(
    song: string, buyer: Bytes, referrer: Option<Bytes>, price: int, timestamp: int)

  datatype Reward = Reward(amount: int, timestamp: int, artist: Option<Bytes>, referrer: Option<Bytes>)

  /** The protocol-wide singleton, stored under SingletonId. */
  datatype Protocol = Protocol(
    totalRewardsClaimed: int, totalRewardsDistributed: int,
    protocolFee: int, owner: Address, controller: Address)

  // ----- CarbonCoin launcher and bonding-curve tokens -----

  /** What `Token.dexPair` refers to: the DexPair id (a hex string) when
      liquidity is deployed, the raw pair address when the token graduates. */
  datatype PairRef = ById(pairId: string) | ByAddress(pair: Address)

  datatype Token = Token(
    creator: string, name: string, symbol: string,
    createdAt: int, creationFee: int, graduated: bool,
    virtualEth: int, virtualTokens: int, realEthReserves: int, realTokenSupply: int,
    maxSupply: int, graduationThreshold: int, price: int,
    graduatedAt: Option<int>, dexPair: Option<PairRef>, dexPairAddress: Option<Address>,
    liquidityDeployed: Option<bool>, liquidityDeploymentTx: Option<Bytes>)

  datatype Creator = Creator(createdAt: int, totalFeesCollected: int)

  /** One trade; `txType` is "buy" or "sell". */
  datatype Transaction = Transaction(
    token: string, txType: string,
    buyer: Option<Address>, seller: Option<Address>,
    ethAmount: int, tokenAmount: int, price: int, timestamp: int)

  // ----- CarbonCoin DEX and configuration -----

  datatype DexPair = DexPair(
    token: string, creator: Address, pairAddress: Address,
    tokenAmount: int, usdcAmount: int, liquidityTokens: int, deployedAt: int, deploymentTx: Bytes)

  /** The DEX-wide singleton, stored under SingletonId. */
  datatype Dex = Dex(
    totalPairs: int, totalUsdcLocked: int, totalTokensLocked: int,
    paused: bool, config: Address)

  datatype DexPauseEvent = DexPauseEvent(dex: string, paused: bool, timestamp: int)

  datatype DexConfigUpdate = DexConfigUpdate(dex: string, newConfig: Address, timestamp: int)

  datatype ConfigUpdate = ConfigUpdate(configType: string, timestamp: int)

  /** Fixed key of the Protocol and Dex singletons. */
  const SingletonId: string := "1"

  /** The key of a Song: `tokenId.toString()`, a decimal numeral with no
      leading zero (distinct ids give distinct keys: NatToStringInjective). */
  function SongKey(tokenId: nat): (k: string)
    ensures 1 <= |k| && forall i :: 0 <= i < |k| ==> IsDecDigit(k[i])
    ensures k[0] != '0' || tokenId == 0
  {
    NatToString(tokenId)
  }

  /** `m` after a lazy create at `k`: an existing row is kept as it is,
      a missing one is inserted as `default`. */
  function LazyInsert<K, V>(m: map<K, V>, k: K, default: V): (r: map<K, V>)
    ensures k in r && r[k] == (if k in m then m[k] else default)
    ensures r.Keys == m.Keys + {k}
    ensures forall j :: j in m ==> j in r && r[j] == m[j]
  {
    if k in m then m else m[k := default]
  }

  /** Saving at `k` after a lazy create at `k` is the same as saving directly. */
  lemma LazyThenSave<K, V>(m: map<K, V>, k: K, default: V, v: V)
    ensures LazyInsert(m, k, default)[k := v] == m[k := v]
  {
  }

  /** The row `getOrCreate*` would return: the stored one, or the default. */
  function Current<K, V>(m: map<K, V>, k: K, default: V): V {
    if k in m then m[k] else default
  }
}
