# Carbon subgraph event handlers

This project models the event handlers of the Carbon subgraph. They index
two product lines:

- **CarbonOpus:** songs sold as tokens, their purchases, and the reward
  balances of artists and referrers.
- **CarbonCoin:** bonding-curve tokens, from launcher to trades to
  graduation, plus the CarbonCoin DEX that takes over liquidity at
  graduation, and the CarbonCoin configuration contract.

Each handler receives one chain event and updates a key-addressed entity
store. It may:

- load a row, or create it lazily with zero defaults;
- overwrite or accumulate some fields;
- save the row back;
- for some events, write an append-only row keyed by
  `txHash-logIndex`.

The model is one sequential state machine.

- `EntityStore.Store` is a class with one `map` per entity type, plus the
  `set` of token addresses the per-token template indexes.
- Every handler is a method on a `Store`. Its `modifies` clause names
  exactly the maps the handler may touch, so "nothing else changes" holds
  by the frame. Its `ensures` clauses state each touched map as a function
  of the old one.
- A row's id is the key it is stored under. Fields a handler may leave
  unset are `Option`s. Amounts are unbounded `int`.

Modules:

- `Ids` renders byte strings as graph-ts `toHexString` does: `0x` followed
  by lower-case hex. It renders integers as `toString` does: decimal. It
  builds the `txHash-logIndex` key and proves all three renderings
  injective.
- `Entities` holds the row types and the lazy-create helpers.
- `EntityStore` holds the store.
- `OpusMapping`, `CoinMapping`, `DexMapping` and `ConfigMapping` hold the
  handlers of `src/carbonOpusMapping.ts`, `src/mapping.ts`,
  `src/carbonCoinDexMapping.ts` and `src/carbonCoinConfigMapping.ts`.

Two behaviours one might expect of such an indexer are not what the
handlers do, and the model follows the handlers:

- A reward claim is not floored at zero: a claim larger than the accrued
  balance makes the balance negative. `OpusMapping.OverdrawnClaim` shows
  a balance going to -10.
- The token contract's `getReserves`, `getTradeLimits` and
  `getCurrentPrice` are plain calls; the handler does not catch a failed
  query and substitute zero. Their answers are inputs of
  `CoinMapping.HandleTokenCreated`.
- The `txHash-logIndex` key is injective with no condition on the hash
  string (`Ids.CompositeKeyInjective`). A decimal suffix holds no `-`, so
  the last `-` of a key is always the separator.

## Model

| member | source | states |
|---|---|---|
| Ids.ToHex | src/carbonOpusMapping.ts:84 | `toHexString` of a byte string is `0x` followed by two hex digits per byte, and contains no `-` |
| Ids.NatToString | src/carbonOpusMapping.ts:67 | `toString` of a non-negative integer is a non-empty decimal numeral with no leading zero |
| Ids.ZeroAddress | src/carbonOpusMapping.ts:24 | `Address.fromString(ZERO_ADDRESS)`, the default address of new Artist, Buyer, Referrer, Protocol and Dex rows, is twenty zero bytes |
| Ids.ZeroAddressRendersAsLiteral | src/carbonOpusMapping.ts:17 | rendering the zero address with `toHexString()` gives back the ZERO_ADDRESS literal, so parsing and rendering agree on it |
| Ids.CompositeKey | src/carbonOpusMapping.ts:124 | the key is the hash string, a `-`, then the decimal log index, and that `-` is the last one in the key |
| Ids.LogKey | src/carbonCoinDexMapping.ts:67-69 | the key is the hex of the transaction hash (its first 2 + 2n characters), a `-`, then the decimal log index |
| Entities.SongKey | src/carbonOpusMapping.ts:67 | a Song's key `tokenId.toString()` is a non-empty decimal numeral with no leading zero |
| Ids.ToHexInjective | src/mapping.ts:22 | distinct byte strings give distinct hex ids, so an id names exactly one address or hash |
| Ids.NatToStringInjective | src/carbonOpusMapping.ts:67 | distinct token ids give distinct Song keys |
| Ids.CompositeKeyInjective | src/carbonCoinConfigMapping.ts:5 | `hash + "-" + logIndex` determines both the hash string and the log index, for any hash string |
| Ids.LogKeyInjective | src/carbonCoinConfigMapping.ts:5 | distinct (transaction hash, log index) pairs give distinct append-only row keys |
| Ids.IsZeroAddress | src/carbonOpusMapping.ts:87 | comparing `toHexString()` with the ZERO_ADDRESS literal is true exactly for the twenty-zero-byte address |
| Ids.HexIsZero | src/carbonOpusMapping.ts:157 | the zero-referrer test returns true exactly when the referrer is the zero address |
| Entities.LazyInsert | src/carbonOpusMapping.ts:19-28 | a lazy create keeps an existing row and every other row, and inserts the default only when the key is missing |
| OpusMapping.GetOrCreateArtist | src/carbonOpusMapping.ts:19-28 | returns the stored Artist unchanged if present; otherwise inserts and returns rewards 0 and the zero address |
| OpusMapping.GetOrCreateBuyer | src/carbonOpusMapping.ts:30-38 | returns the stored Buyer unchanged if present; otherwise inserts and returns one with the zero address |
| OpusMapping.GetOrCreateReferrer | src/carbonOpusMapping.ts:40-49 | returns the stored Referrer unchanged if present; otherwise inserts and returns rewards 0 and the zero address |
| OpusMapping.GetOrCreateProtocol | src/carbonOpusMapping.ts:51-63 | returns the Protocol under "1" unchanged if present; otherwise inserts zero totals and fee with zero owner and controller |
| OpusMapping.HandleSongCreated | src/carbonOpusMapping.ts:65-73 | the artist is created lazily, and a Song with the event's artist, price, referral percentage and block time replaces any row under the token id |
| OpusMapping.HandleSongPurchased | src/carbonOpusMapping.ts:75-93 | an unknown song changes nothing; otherwise Buyer and Referrer are created lazily, the zero referrer included, and a purchase keyed by the transaction hash records the referrer only when it is non-zero |
| OpusMapping.HandleSongPriceUpdated | src/carbonOpusMapping.ts:95-102 | only the price of an existing Song changes; an absent song is a no-op |
| OpusMapping.HandleSongPriceScaled | src/carbonOpusMapping.ts:104-111 | only the price of an existing Song changes; an absent song is a no-op |
| OpusMapping.HandleSongReferralPctUpdated | src/carbonOpusMapping.ts:113-120 | only the referral percentage of an existing Song changes; an absent song is a no-op |
| OpusMapping.HandleRewardsClaimed | src/carbonOpusMapping.ts:122-147 | each existing Artist and Referrer row of the member is debited by the amount with no floor, neither is created, the claimed total grows by the amount once, and a Reward at `txHash-logIndex` names the matching roles |
| OpusMapping.HandleRewardsDistributed | src/carbonOpusMapping.ts:149-165 | the artist is credited; the referrer is credited only when non-zero but is created lazily either way; the distributed total grows by both amounts and the fee by the event's fee |
| OpusMapping.HandleOwnershipTransferred | src/carbonOpusMapping.ts:167-171 | only the Protocol owner changes |
| OpusMapping.HandleProtocolFeeUpdated | src/carbonOpusMapping.ts:173-177 | only the Protocol fee changes, and it is overwritten, not accumulated |
| OpusMapping.HandleControllerUpdated | src/carbonOpusMapping.ts:179-183 | only the Protocol controller changes |
| OpusMapping.HandleMemberAddressUpdated | src/carbonOpusMapping.ts:185-204 | the address of each existing Artist, Buyer and Referrer row of the member is set, and no row is created |
| OpusMapping.RewardsScenario | src/carbonOpusMapping.ts:132-162 | two distributions of 50 to an unseen artist with the zero referrer, then a claim of 70: balance 30, distributed total +100, claimed total +70 |
| OpusMapping.RewardsScenarioFromEmpty | src/carbonOpusMapping.ts:132-162 | the same scenario from an empty store reads back 30, 100 and 70 |
| OpusMapping.OverdrawnClaim | src/carbonOpusMapping.ts:130-134 | a claim of 10 against an artist with nothing accrued leaves a balance of -10 |
| CoinMapping.HandleTokenCreated | src/mapping.ts:14-53 | a new Creator starts at the block time with no fees, an existing one keeps its `createdAt`, and fees grow by the creation fee either way; the Token is written from the event and the contract answers, with `graduated` false, `maxSupply` 0 and its optional fields unset; the address is tracked and keyed; both link invariants are kept |
| CoinMapping.HandleTokensPurchased | src/mapping.ts:55-76 | an unknown `event.address` changes nothing; otherwise a "buy" Transaction keyed by the transaction hash, and only reserves, supply and price of the Token change |
| CoinMapping.HandleTokensSold | src/mapping.ts:78-99 | as a purchase, with a "sell" Transaction that names the seller |
| CoinMapping.HandleGraduated | src/mapping.ts:101-113 | looked up by the `token` parameter: sets `graduated`, `graduatedAt`, the raw pair address as `dexPair`, and the price; a missing Token is a no-op |
| CoinMapping.TradesInOneTransaction | src/mapping.ts:61-84 | after a buy and a sell in one transaction, exactly one Transaction row remains and it is the sale |
| DexMapping.GetOrCreateDex | src/carbonCoinDexMapping.ts:12-24 | returns the Dex under "1" unchanged if present; otherwise inserts zero totals, not paused, zero config |
| DexMapping.HandleLiquidityDeployed | src/carbonCoinDexMapping.ts:26-60 | a DexPair row from the event is always written under the pair address; an existing Token is linked to the pair and a missing one is not created; the Dex counts one more pair and adds both amounts in every case, so with non-negative amounts no total decreases; both token link invariants are kept |
| DexMapping.HandleDexPaused | src/carbonCoinDexMapping.ts:62-74 | the Dex is paused, a pause row at `txHash-logIndex` carries the same flag and the timestamp parameter, and totals and config are unchanged |
| DexMapping.HandleDexUnpaused | src/carbonCoinDexMapping.ts:76-88 | the Dex is unpaused, the row carries the same flag and the timestamp parameter, and totals and config are unchanged |
| DexMapping.HandleConfigUpdated | src/carbonCoinDexMapping.ts:90-102 | only the Dex config changes, and a row at `txHash-logIndex` records the new config with the timestamp parameter |
| DexMapping.LiquidityDeployedTwice | src/carbonCoinDexMapping.ts:30-58 | redelivery leaves the DexPair row as one delivery would, but counts the pair twice and locks both amounts twice |
| DexMapping.RedeliveryCountsPairTwice | src/carbonCoinDexMapping.ts:30-58 | from any prior rows, one delivery and two deliveries give equal DexPair maps and pair counts that differ by one |
| DexMapping.PauseThenUnpause | src/carbonCoinDexMapping.ts:62-88 | pause then unpause in one transaction leaves the Dex unpaused and otherwise as before, and keeps both pause rows |
| ConfigMapping.HandleDefaultConfigUpdated | src/carbonCoinConfigMapping.ts:4-9 | exactly one ConfigUpdate at `txHash-logIndex` with the event's config type and timestamp parameter; no other map changes |
| ConfigMapping.DefaultConfigUpdatedTwice | src/carbonCoinConfigMapping.ts:4-9 | delivering the event twice gives the store one delivery gives |
| ConfigMapping.RedeliveryIsIdempotent | src/carbonCoinConfigMapping.ts:4-9 | from any prior rows, one and two deliveries give equal ConfigUpdate maps, with exactly the event's key added |
| ConfigMapping.DistinctEventsBothKept | src/carbonCoinConfigMapping.ts:5 | two events at distinct log positions both keep their own rows, and every other prior row survives |

## Left out

- The graph-ts store is not modelled. `load` is a map lookup and `save` replaces the whole row. Persistence, caching and write failures are not modelled. graph-ts merges a saved entity into a stored row with the same id, so fields the handler left unset keep their stored values; the model does not capture that, which changes the result in three places:
  - `CoinMapping.TradesInOneTransaction` ensures `kept.buyer == None`; the merging store would keep the buyer written by the earlier buy in the same transaction.
  - A second SongPurchase in one transaction with the zero referrer (`OpusMapping.HandleSongPurchased`) would keep the first purchase's `referrer` in the merging store; the model leaves it unset.
  - `CoinMapping.HandleTokenCreated` over an existing Token would keep its `graduatedAt`, `dexPair`, `dexPairAddress`, `liquidityDeployed` and `liquidityDeploymentTx` in the merging store; the model unsets them.
- `Address.fromString` is modelled only for the ZERO_ADDRESS literal, as twenty zero bytes. The model does not insist that an address has twenty bytes.
- Event ids are passed as values: `tokenId`, `logIndex`, amounts, prices and timestamps. `tokenId` and `logIndex` are non-negative integers. The event ABI decoding and the generated event and schema classes are not part of this model.
- The contract calls `CarbonCoin.bind`, `getReserves`, `getTradeLimits` and `getCurrentPrice` are foreign chain queries. Their answers are parameters of `CoinMapping.HandleTokenCreated`, and only `value2` of the trade limits is read.
- `CarbonCoinTemplate.create` is kept only as the insertion of the address into the tracked set. Template instantiation itself is left out.
- `log.warning` in `handleLiquidityDeployed` is output only. The model keeps only its effect: the Token map is unchanged.
- `configType` is a `string`, because that event parameter's type does not appear in the handler.
- `Token.dexPair` gets two different kinds of value. `handleLiquidityDeployed` stores the pair's hex id, and `handleGraduated` stores the raw pair address. The model keeps both via `PairRef`.
- Holder counts, Holding rows, intents, blacklists, circuit breakers and fee withdrawal are handled by other mapping files of the repository, not by these handlers; they are not part of this model.
- The event dispatcher, chain reorganisations and concurrency are not modelled. Handlers run one at a time, in log order.
