/** The key-addressed entity store the handlers share: one map per entity
    type (`load` is a lookup, `save` is a map update that replaces the whole
    row), and the set of token addresses whose events are being indexed. */
module EntityStore {
  import opened Ids
  import opened Entities

  class Store {
    var songs: map<string, Song>
    var artists: map<Bytes, Artist>
    var buyers: map<Bytes, Buyer>
    var referrers: map<Bytes, Referrer>
    var purchases: map<string, SongPurchase>
    var rewards: map<string, Reward>
    var protocols: map<string, Protocol>
    var tokens: map<string, Token>
    var creators: map<string, Creator>
    var transactions: map<string, Transaction>
    var dexPairs: map<string, DexPair>
    var dexes: map<string, Dex>
    var dexPauseEvents: map<string, DexPauseEvent>
    var dexConfigUpdates: map<string, DexConfigUpdate>
    var configUpdates: map<string, ConfigUpdate>
    /** Addresses a CarbonCoin template was created for. */
    var tracked: set<Address>

    /** The store before the first event: no rows, nothing tracked. */
    constructor ()
      ensures songs == map[] && artists == map[] && buyers == map[] && referrers == map[]
      ensures purchases == map[] && rewards == map[] && protocols == map[]
      ensures tokens == map[] && creators == map[] && transactions == map[]
      ensures dexPairs == map[] && dexes == map[] && dexPauseEvents == map[]
      ensures dexConfigUpdates == map[] && configUpdates == map[] && tracked == {}
    {
      songs, artists, buyers, referrers := map[], map[], map[], map[];
      purchases, rewards, protocols := map[], map[], map[];
      tokens, creators, transactions := map[], map[], map[];
      dexPairs, dexes, dexPauseEvents := map[], map[], map[];
      dexConfigUpdates, configUpdates, tracked := map[], map[], {};
    }
  }
}
