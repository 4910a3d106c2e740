/** The handler of the CarbonCoin configuration contract: one append-only
    ConfigUpdate row per DefaultConfigUpdated event. */
module ConfigMapping {
  import opened Ids
  import opened Entities
  import opened EntityStore

  /** One ConfigUpdate at `txHash-logIndex`, holding the event's config type
      and its timestamp parameter (not the block time); no other map changes. */
  method HandleDefaultConfigUpdated(st: Store, configType: string, timestampParam: int, txHash: Bytes, logIndex: nat)
    modifies st`configUpdates
    ensures st.configUpdates == old(st.configUpdates)[LogKey(txHash, logIndex) :=
      ConfigUpdate(configType := configType, timestamp := timestampParam)]
  {
    var configUpdateId := LogKey(txHash, logIndex);
    var configUpdate := ConfigUpdate(configType, timestampParam);
    st.configUpdates := st.configUpdates[configUpdateId := configUpdate];
  }

  /** Delivering the same event twice is the same as delivering it once. */
  method DefaultConfigUpdatedTwice(st: Store, configType: string, timestampParam: int, txHash: Bytes, logIndex: nat)
    modifies st`configUpdates
    ensures st.configUpdates == old(st.configUpdates)[LogKey(txHash, logIndex) :=
      ConfigUpdate(configType := configType, timestamp := timestampParam)]
  {
    HandleDefaultConfigUpdated(st, configType, timestampParam, txHash, logIndex);
    HandleDefaultConfigUpdated(st, configType, timestampParam, txHash, logIndex);
  }

  /** From any earlier ConfigUpdate rows, one delivery and two deliveries
      of an event leave the same rows. */
  method RedeliveryIsIdempotent(prior: map<string, ConfigUpdate>, configType: string, timestampParam: int,
                                txHash: Bytes, logIndex: nat)
    returns (once: map<string, ConfigUpdate>, twice: map<string, ConfigUpdate>)
    ensures once == twice
    ensures LogKey(txHash, logIndex) in once && once.Keys == prior.Keys + {LogKey(txHash, logIndex)}
  {
    var a := new Store();
    a.configUpdates := prior;
    HandleDefaultConfigUpdated(a, configType, timestampParam, txHash, logIndex);

    var b := new Store();
    b.configUpdates := prior;
    DefaultConfigUpdatedTwice(b, configType, timestampParam, txHash, logIndex);

    once, twice := a.configUpdates, b.configUpdates;
  }

  /** Two events at different log positions both keep their rows, with
      their own config types, whatever the rows held before. */
  method DistinctEventsBothKept(prior: map<string, ConfigUpdate>, type1: string, type2: string, timestampParam: int,
                                tx1: Bytes, log1: nat, tx2: Bytes, log2: nat)
    returns (rows: map<string, ConfigUpdate>)
    requires (tx1, log1) != (tx2, log2)
    ensures LogKey(tx1, log1) in rows && rows[LogKey(tx1, log1)].configType == type1
    ensures LogKey(tx2, log2) in rows && rows[LogKey(tx2, log2)].configType == type2
    ensures forall k :: k in prior && k != LogKey(tx1, log1) && k != LogKey(tx2, log2) ==> k in rows && rows[k] == prior[k]
  {
    var st := new Store();
    st.configUpdates := prior;
    HandleDefaultConfigUpdated(st, type1, timestampParam, tx1, log1);
    HandleDefaultConfigUpdated(st, type2, timestampParam, tx2, log2);
    LogKeyInjective(tx1, log1, tx2, log2);
    rows := st.configUpdates;
  }
}
