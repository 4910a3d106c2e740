/** Handlers of the CarbonCoin launcher and of the per-token CarbonCoin
    template: token creation, bonding-curve trades and graduation. */
module CoinMapping {
  import opened Ids
  import opened Entities
  import opened EntityStore

  /** The `getReserves()` answer of a freshly created token contract, as
      the tuple `(value0, value1, value2, value3)`: real ETH reserves, real
      token supply, virtual ETH, virtual tokens. */
  datatype Reserves = Reserves(value0: int, value1: int, value2: int, value3: int)

  /** Every trade row names a token that has a Token row. */
  predicate TradesReferToTokens(tokens: map<string, Token>, transactions: map<string, Transaction>) {
    forall h :: h in transactions ==> transactions[h].token in tokens
  }

  /** Every address the template indexes has a Token row. */
  predicate TrackedHaveTokens(tracked: set<Address>, tokens: map<string, Token>) {
    forall a :: a in tracked ==> ToHex(a) in tokens
  }

  /** A Creator is created lazily at its first launch (at the launch's block
      time, with no fees) and keeps its `createdAt` afterwards; either way
      the creation fee is added to its total. The Token row is written anew,
      replacing any earlier row under the token address, from the event and
      from the contract's `getReserves()`, `getTradeLimits().value2` and
      `getCurrentPrice()` answers; its optional fields are unset. The token
      address is then tracked. */
  method HandleTokenCreated(st: Store, creator: Address, tokenAddress: Address, name: string, symbol: string,
                            creationFee: int, blockTimestamp: int,
                            reserves: Reserves, tradeLimitsValue2: int, currentPrice: int)
    modifies st`creators, st`tokens, st`tracked
    ensures var k := ToHex(creator);
      k in old(st.creators) ==>
        st.creators == old(st.creators)[k := old(st.creators)[k].(
          totalFeesCollected := old(st.creators)[k].totalFeesCollected + creationFee)]
    ensures var k := ToHex(creator);
      k !in old(st.creators) ==>
        st.creators == old(st.creators)[k := Creator(createdAt := blockTimestamp, totalFeesCollected := creationFee)]
    ensures st.tokens == old(st.tokens)[ToHex(tokenAddress) := Token(
      creator := ToHex(creator), name := name, symbol := symbol,
      createdAt := blockTimestamp, creationFee := creationFee, graduated := false,
      virtualEth := reserves.value2, virtualTokens := reserves.value3,
      realEthReserves := reserves.value0, realTokenSupply := reserves.value1,
      maxSupply := 0, graduationThreshold := tradeLimitsValue2, price := currentPrice,
      graduatedAt := None, dexPair := None, dexPairAddress := None,
      liquidityDeployed := None, liquidityDeploymentTx := None)]
    ensures st.tracked == old(st.tracked) + {tokenAddress}
    ensures ToHex(tokenAddress) in st.tokens && tokenAddress in st.tracked
    ensures old(TrackedHaveTokens(st.tracked, st.tokens)) ==> TrackedHaveTokens(st.tracked, st.tokens)
    ensures old(TradesReferToTokens(st.tokens, st.transactions)) ==> TradesReferToTokens(st.tokens, st.transactions)
  {
    var creatorId := ToHex(creator);
    var c: Creator;
    if creatorId in st.creators {
      c := st.creators[creatorId];
    } else {
      c := Creator(blockTimestamp, 0);
    }

    var token := Token(
      creatorId, name, symbol, blockTimestamp, creationFee, false,
      reserves.value2, reserves.value3, reserves.value0, reserves.value1,
      0, tradeLimitsValue2, currentPrice,
      None, None, None, None, None);

    c := c.(totalFeesCollected := c.totalFeesCollected + creationFee);
    st.creators := st.creators[creatorId := c];
    st.tokens := st.tokens[ToHex(tokenAddress) := token];
    st.tracked := st.tracked + {tokenAddress};
  }

  /** A buy on the token contract at `eventAddress`. Unknown token: nothing
      changes. Known token: a "buy" Transaction keyed by the transaction
      hash alone (replacing any earlier trade of that transaction), and the
      token's real reserves, real supply and price are overwritten. */
  method HandleTokensPurchased(st: Store, eventAddress: Address, txHash: Bytes, buyer: Address,
                               ethIn: int, tokensOut: int, newPrice: int,
                               realEthReserves: int, realTokenSupply: int, blockTimestamp: int)
    modifies st`tokens, st`transactions
    ensures ToHex(eventAddress) !in old(st.tokens) ==>
      st.tokens == old(st.tokens) && st.transactions == old(st.transactions)
    ensures var k := ToHex(eventAddress);
      k in old(st.tokens) ==>
        && st.tokens == old(st.tokens)[k := old(st.tokens)[k].(
             realEthReserves := realEthReserves, realTokenSupply := realTokenSupply, price := newPrice)]
        && st.transactions == old(st.transactions)[ToHex(txHash) :=
             Transaction(token := k, txType := "buy", buyer := Some(buyer), seller := None,
                         ethAmount := ethIn, tokenAmount := tokensOut, price := newPrice,
                         timestamp := blockTimestamp)]
    ensures old(TrackedHaveTokens(st.tracked, st.tokens)) ==> TrackedHaveTokens(st.tracked, st.tokens)
    ensures old(TradesReferToTokens(st.tokens, st.transactions)) ==> TradesReferToTokens(st.tokens, st.transactions)
  {
    var tokenId := ToHex(eventAddress);
    if tokenId !in st.tokens {
      return;
    }
    var token := st.tokens[tokenId];

    var transaction := Transaction(tokenId, "buy", Some(buyer), None, ethIn, tokensOut, newPrice, blockTimestamp);

    token := token.(realEthReserves := realEthReserves, realTokenSupply := realTokenSupply, price := newPrice);
    st.tokens := st.tokens[tokenId := token];
    st.transactions := st.transactions[ToHex(txHash) := transaction];
  }

  /** A sale: as a buy, with a "sell" Transaction naming the seller. */
  method HandleTokensSold(st: Store, eventAddress: Address, txHash: Bytes, seller: Address,
                          ethOut: int, tokensIn: int, newPrice: int,
                          realEthReserves: int, realTokenSupply: int, blockTimestamp: int)
    modifies st`tokens, st`transactions
    ensures ToHex(eventAddress) !in old(st.tokens) ==>
      st.tokens == old(st.tokens) && st.transactions == old(st.transactions)
    ensures var k := ToHex(eventAddress);
      k in old(st.tokens) ==>
        && st.tokens == old(st.tokens)[k := old(st.tokens)[k].(
             realEthReserves := realEthReserves, realTokenSupply := realTokenSupply, price := newPrice)]
        && st.transactions == old(st.transactions)[ToHex(txHash) :=
             Transaction(token := k, txType := "sell", buyer := None, seller := Some(seller),
                         ethAmount := ethOut, tokenAmount := tokensIn, price := newPrice,
                         timestamp := blockTimestamp)]
    ensures old(TrackedHaveTokens(st.tracked, st.tokens)) ==> TrackedHaveTokens(st.tracked, st.tokens)
    ensures old(TradesReferToTokens(st.tokens, st.transactions)) ==> TradesReferToTokens(st.tokens, st.transactions)
  {
    var tokenId := ToHex(eventAddress);
    if tokenId !in st.tokens {
      return;
    }
    var token := st.tokens[tokenId];

    var transaction := Transaction(tokenId, "sell", None, Some(seller), ethOut, tokensIn, newPrice, blockTimestamp);

    token := token.(realEthReserves := realEthReserves, realTokenSupply := realTokenSupply, price := newPrice);
    st.tokens := st.tokens[tokenId := token];
    st.transactions := st.transactions[ToHex(txHash) := transaction];
  }

  /** Graduation looks the token up by the event's `token` parameter (not
      by the emitting address), marks it graduated at the block time,
      records the raw pair address as its pair and overwrites its price. */
  method HandleGraduated(st: Store, tokenParam: Address, pair: Address, finalPrice: int, blockTimestamp: int)
    modifies st`tokens
    ensures var k := ToHex(tokenParam);
      st.tokens == if k in old(st.tokens)
        then old(st.tokens)[k := old(st.tokens)[k].(
          graduated := true, graduatedAt := Some(blockTimestamp),
          dexPair := Some(ByAddress(pair)), price := finalPrice)]
        else old(st.tokens)
    ensures old(TrackedHaveTokens(st.tracked, st.tokens)) ==> TrackedHaveTokens(st.tracked, st.tokens)
    ensures old(TradesReferToTokens(st.tokens, st.transactions)) ==> TradesReferToTokens(st.tokens, st.transactions)
  {
    var tokenId := ToHex(tokenParam);
    if tokenId !in st.tokens {
      return;
    }
    var token := st.tokens[tokenId];
    token := token.(graduated := true, graduatedAt := Some(blockTimestamp),
                    dexPair := Some(ByAddress(pair)), price := finalPrice);
    st.tokens := st.tokens[tokenId := token];
  }

  /** On an empty store: a token is launched, then bought and sold within
      one transaction. Only the sale's Transaction row remains, and the
      token's price is the sale's. */
  method TradesInOneTransaction(creator: Address, tokenAddress: Address, txHash: Bytes, trader: Address,
                                buyPrice: int, sellPrice: int, timestamp: int)
    returns (rows: nat, kept: Transaction, price: int)
    ensures rows == 1
    ensures kept.txType == "sell" && kept.seller == Some(trader) && kept.buyer == None
    ensures kept.token == ToHex(tokenAddress) && kept.price == sellPrice
    ensures price == sellPrice
  {
    var st := new Store();
    HandleTokenCreated(st, creator, tokenAddress, "Carbon", "CRB", 0, timestamp, Reserves(0, 0, 0, 0), 0, 0);
    HandleTokensPurchased(st, tokenAddress, txHash, trader, 10, 100, buyPrice, 10, 100, timestamp);
    HandleTokensSold(st, tokenAddress, txHash, trader, 5, 50, sellPrice, 5, 50, timestamp);
    assert st.transactions.Keys == {ToHex(txHash)};
    rows := |st.transactions|;
    kept := st.transactions[ToHex(txHash)];
    price := st.tokens[ToHex(tokenAddress)].price;
  }
}
