/** Handlers of the CarbonCoin DEX: liquidity deployment, pausing and
    configuration, over the Dex singleton. */
module DexMapping {
  import opened Ids
  import opened Entities
  import opened EntityStore
  import opened CoinMapping

  /** The Dex row `getOrCreateDex` creates: zero totals, not paused, zero config. */
  const NewDex: Dex := Dex(0, 0, 0, false, ZeroAddress())

  /** The Dex a handler works on: the stored one or a new one. */
  function CurrentDex(dexes: map<string, Dex>): Dex {
    Current(dexes, SingletonId, NewDex)
  }

  /** No total of `after` is below the same total of `before`. */
  predicate TotalsAtLeast(before: Dex, after: Dex) {
    && after.totalPairs >= before.totalPairs
    && after.totalUsdcLocked >= before.totalUsdcLocked
    && after.totalTokensLocked >= before.totalTokensLocked
  }

  /** The three totals and the config agree. */
  predicate SameTotalsAndConfig(before: Dex, after: Dex) {
    && after.totalPairs == before.totalPairs
    && after.totalUsdcLocked == before.totalUsdcLocked
    && after.totalTokensLocked == before.totalTokensLocked
    && after.config == before.config
  }

  method GetOrCreateDex(st: Store) returns (dex: Dex)
    modifies st`dexes
    ensures dex == CurrentDex(old(st.dexes))
    ensures st.dexes == LazyInsert(old(st.dexes), SingletonId, NewDex)
  {
    if SingletonId in st.dexes {
      dex := st.dexes[SingletonId];
    } else {
      dex := NewDex;
      st.dexes := st.dexes[SingletonId := dex];
    }
  }

  /** The DexPair row is always written (replacing any row for the same
      pair); the Token, when it exists, is linked to the pair, and is
      neither created nor changed otherwise; the Dex counts one more pair
      and adds the event's amounts to the locked totals in every case. */
  method HandleLiquidityDeployed(st: Store, token: Address, creator: Address, pair: Address,
                                 tokenAmount: int, usdcAmount: int, liquidity: int,
                                 timestampParam: int, txHash: Bytes)
    modifies st`dexes, st`dexPairs, st`tokens
    ensures st.dexPairs == old(st.dexPairs)[ToHex(pair) :=
      DexPair(token := ToHex(token), creator := creator, pairAddress := pair,
              tokenAmount := tokenAmount, usdcAmount := usdcAmount, liquidityTokens := liquidity,
              deployedAt := timestampParam, deploymentTx := txHash)]
    ensures var k := ToHex(token);
      st.tokens == if k in old(st.tokens)
        then old(st.tokens)[k := old(st.tokens)[k].(
          dexPair := Some(ById(ToHex(pair))), dexPairAddress := Some(pair),
          liquidityDeployed := Some(true), liquidityDeploymentTx := Some(txHash))]
        else old(st.tokens)
    ensures var d := CurrentDex(old(st.dexes));
      st.dexes == old(st.dexes)[SingletonId := d.(
        totalPairs := d.totalPairs + 1,
        totalUsdcLocked := d.totalUsdcLocked + usdcAmount,
        totalTokensLocked := d.totalTokensLocked + tokenAmount)]
    ensures tokenAmount >= 0 && usdcAmount >= 0 ==>
      TotalsAtLeast(CurrentDex(old(st.dexes)), CurrentDex(st.dexes))
    ensures old(TrackedHaveTokens(st.tracked, st.tokens)) ==> TrackedHaveTokens(st.tracked, st.tokens)
    ensures old(TradesReferToTokens(st.tokens, st.transactions)) ==> TradesReferToTokens(st.tokens, st.transactions)
  {
    var dex := GetOrCreateDex(st);

    var pairId := ToHex(pair);
    var dexPair := DexPair(ToHex(token), creator, pair, tokenAmount, usdcAmount, liquidity, timestampParam, txHash);
    st.dexPairs := st.dexPairs[pairId := dexPair];

    var tokenId := ToHex(token);
    if tokenId in st.tokens {
      var t := st.tokens[tokenId];
      t := t.(dexPair := Some(ById(pairId)), dexPairAddress := Some(pair),
              liquidityDeployed := Some(true), liquidityDeploymentTx := Some(txHash));
      st.tokens := st.tokens[tokenId := t];
    }

    dex := dex.(totalPairs := dex.totalPairs + 1,
                totalUsdcLocked := dex.totalUsdcLocked + usdcAmount,
                totalTokensLocked := dex.totalTokensLocked + tokenAmount);
    LazyThenSave(old(st.dexes), SingletonId, NewDex, dex);
    st.dexes := st.dexes[SingletonId := dex];
  }

  /** Pausing sets the flag, and logs it at `txHash-logIndex` with the
      event's timestamp parameter; the totals and the config stay as they were. */
  method HandleDexPaused(st: Store, timestampParam: int, txHash: Bytes, logIndex: nat)
    modifies st`dexes, st`dexPauseEvents
    ensures st.dexes == old(st.dexes)[SingletonId := CurrentDex(old(st.dexes)).(paused := true)]
    ensures st.dexPauseEvents == old(st.dexPauseEvents)[LogKey(txHash, logIndex) :=
      DexPauseEvent(dex := SingletonId, paused := true, timestamp := timestampParam)]
    ensures CurrentDex(st.dexes).paused && st.dexPauseEvents[LogKey(txHash, logIndex)].paused
    ensures SameTotalsAndConfig(CurrentDex(old(st.dexes)), CurrentDex(st.dexes))
  {
    var dex := GetOrCreateDex(st);
    dex := dex.(paused := true);
    LazyThenSave(old(st.dexes), SingletonId, NewDex, dex);
    st.dexes := st.dexes[SingletonId := dex];

    var pauseEventId := LogKey(txHash, logIndex);
    var pauseEvent := DexPauseEvent(SingletonId, true, timestampParam);
    st.dexPauseEvents := st.dexPauseEvents[pauseEventId := pauseEvent];
  }

  /** Unpausing clears the flag and logs it as pausing does. */
  method HandleDexUnpaused(st: Store, timestampParam: int, txHash: Bytes, logIndex: nat)
    modifies st`dexes, st`dexPauseEvents
    ensures st.dexes == old(st.dexes)[SingletonId := CurrentDex(old(st.dexes)).(paused := false)]
    ensures st.dexPauseEvents == old(st.dexPauseEvents)[LogKey(txHash, logIndex) :=
      DexPauseEvent(dex := SingletonId, paused := false, timestamp := timestampParam)]
    ensures !CurrentDex(st.dexes).paused && !st.dexPauseEvents[LogKey(txHash, logIndex)].paused
    ensures SameTotalsAndConfig(CurrentDex(old(st.dexes)), CurrentDex(st.dexes))
  {
    var dex := GetOrCreateDex(st);
    dex := dex.(paused := false);
    LazyThenSave(old(st.dexes), SingletonId, NewDex, dex);
    st.dexes := st.dexes[SingletonId := dex];

    var pauseEventId := LogKey(txHash, logIndex);
    var pauseEvent := DexPauseEvent(SingletonId, false, timestampParam);
    st.dexPauseEvents := st.dexPauseEvents[pauseEventId := pauseEvent];
  }

  /** A config change touches only the Dex's config, and logs the new
      config with the event's timestamp parameter at `txHash-logIndex`. */
  method HandleConfigUpdated(st: Store, newConfig: Address, timestampParam: int, txHash: Bytes, logIndex: nat)
    modifies st`dexes, st`dexConfigUpdates
    ensures st.dexes == old(st.dexes)[SingletonId := CurrentDex(old(st.dexes)).(config := newConfig)]
    ensures st.dexConfigUpdates == old(st.dexConfigUpdates)[LogKey(txHash, logIndex) :=
      DexConfigUpdate(dex := SingletonId, newConfig := newConfig, timestamp := timestampParam)]
    ensures var before, after := CurrentDex(old(st.dexes)), CurrentDex(st.dexes);
      && after.config == newConfig && after.paused == before.paused
      && after.totalPairs == before.totalPairs
      && after.totalUsdcLocked == before.totalUsdcLocked
      && after.totalTokensLocked == before.totalTokensLocked
  {
    var dex := GetOrCreateDex(st);
    dex := dex.(config := newConfig);
    LazyThenSave(old(st.dexes), SingletonId, NewDex, dex);
    st.dexes := st.dexes[SingletonId := dex];

    var configUpdateId := LogKey(txHash, logIndex);
    var configUpdate := DexConfigUpdate(SingletonId, newConfig, timestampParam);
    st.dexConfigUpdates := st.dexConfigUpdates[configUpdateId := configUpdate];
  }

  /** The same LiquidityDeployed event delivered twice: the DexPair row is
      as after one delivery, but the Dex counts the pair twice and locks
      both amounts twice. */
  method LiquidityDeployedTwice(st: Store, token: Address, creator: Address, pair: Address,
                                tokenAmount: int, usdcAmount: int, liquidity: int,
                                timestampParam: int, txHash: Bytes)
    modifies st`dexes, st`dexPairs, st`tokens
    ensures st.dexPairs == old(st.dexPairs)[ToHex(pair) :=
      DexPair(token := ToHex(token), creator := creator, pairAddress := pair,
              tokenAmount := tokenAmount, usdcAmount := usdcAmount, liquidityTokens := liquidity,
              deployedAt := timestampParam, deploymentTx := txHash)]
    ensures var before, after := CurrentDex(old(st.dexes)), CurrentDex(st.dexes);
      && after.totalPairs == before.totalPairs + 2
      && after.totalUsdcLocked == before.totalUsdcLocked + 2 * usdcAmount
      && after.totalTokensLocked == before.totalTokensLocked + 2 * tokenAmount
  {
    HandleLiquidityDeployed(st, token, creator, pair, tokenAmount, usdcAmount, liquidity, timestampParam, txHash);
    HandleLiquidityDeployed(st, token, creator, pair, tokenAmount, usdcAmount, liquidity, timestampParam, txHash);
  }

  /** Redelivery compared with a single delivery, from the same DexPair
      and Dex rows: equal DexPair maps, one more pair counted. */
  method RedeliveryCountsPairTwice(pairs0: map<string, DexPair>, dexes0: map<string, Dex>,
                                   token: Address, creator: Address, pair: Address,
                                   tokenAmount: int, usdcAmount: int, liquidity: int,
                                   timestampParam: int, txHash: Bytes)
    returns (pairsOnce: map<string, DexPair>, pairsTwice: map<string, DexPair>,
             countOnce: int, countTwice: int)
    ensures pairsOnce == pairsTwice
    ensures ToHex(pair) in pairsTwice && pairsTwice.Keys == pairs0.Keys + {ToHex(pair)}
    ensures countTwice == countOnce + 1
  {
    var once := new Store();
    once.dexPairs, once.dexes := pairs0, dexes0;
    HandleLiquidityDeployed(once, token, creator, pair, tokenAmount, usdcAmount, liquidity, timestampParam, txHash);
    pairsOnce, countOnce := once.dexPairs, CurrentDex(once.dexes).totalPairs;

    var twice := new Store();
    twice.dexPairs, twice.dexes := pairs0, dexes0;
    LiquidityDeployedTwice(twice, token, creator, pair, tokenAmount, usdcAmount, liquidity, timestampParam, txHash);
    pairsTwice, countTwice := twice.dexPairs, CurrentDex(twice.dexes).totalPairs;
  }

  /** Pausing and then unpausing (two logs of one transaction) leaves the
      Dex unpaused with everything else as it was, and keeps both log rows. */
  method PauseThenUnpause(st: Store, timestampParam: int, txHash: Bytes, pauseLog: nat, unpauseLog: nat)
    requires pauseLog != unpauseLog
    modifies st`dexes, st`dexPauseEvents
    ensures st.dexes == old(st.dexes)[SingletonId := CurrentDex(old(st.dexes)).(paused := false)]
    ensures var k1, k2 := LogKey(txHash, pauseLog), LogKey(txHash, unpauseLog);
      && k1 in st.dexPauseEvents && st.dexPauseEvents[k1].paused
      && k2 in st.dexPauseEvents && !st.dexPauseEvents[k2].paused
  {
    HandleDexPaused(st, timestampParam, txHash, pauseLog);
    HandleDexUnpaused(st, timestampParam, txHash, unpauseLog);
    LogKeyInjective(txHash, pauseLog, txHash, unpauseLog);
  }
}
