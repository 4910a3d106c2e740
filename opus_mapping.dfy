/** Handlers of the CarbonOpus contract: songs, purchases, artist and
    referrer reward balances, and the Protocol singleton. */
module OpusMapping {
  import opened Ids
  import opened Entities
  import opened EntityStore

  /** The Artist row `getOrCreateArtist` creates. */
  const NewArtist: Artist := Artist(0, ZeroAddress())

  /** The Buyer row `getOrCreateBuyer` creates. */
  const NewBuyer: Buyer := Buyer(ZeroAddress())

  /** The Referrer row `getOrCreateReferrer` creates. */
  const NewReferrer: Referrer := Referrer(0, ZeroAddress())

  /** The Protocol row `getOrCreateProtocol` creates: zero totals and fee,
      zero owner and controller. */
  const NewProtocol: Protocol := Protocol(0, 0, 0, ZeroAddress(), ZeroAddress())

  /** The Protocol a handler works on: the stored one or a new one. */
  function CurrentProtocol(protocols: map<string, Protocol>): Protocol {
    Current(protocols, SingletonId, NewProtocol)
  }

  method GetOrCreateArtist(st: Store, memberId: Bytes) returns (artist: Artist)
    modifies st`artists
    ensures artist == Current(old(st.artists), memberId, NewArtist)
    ensures st.artists == LazyInsert(old(st.artists), memberId, NewArtist)
  {
    if memberId in st.artists {
      artist := st.artists[memberId];
    } else {
      artist := NewArtist;
      st.artists := st.artists[memberId := artist];
    }
  }

  method GetOrCreateBuyer(st: Store, memberId: Bytes) returns (buyer: Buyer)
    modifies st`buyers
    ensures buyer == Current(old(st.buyers), memberId, NewBuyer)
    ensures st.buyers == LazyInsert(old(st.buyers), memberId, NewBuyer)
  {
    if memberId in st.buyers {
      buyer := st.buyers[memberId];
    } else {
      buyer := NewBuyer;
      st.buyers := st.buyers[memberId := buyer];
    }
  }

  method GetOrCreateReferrer(st: Store, memberId: Bytes) returns (referrer: Referrer)
    modifies st`referrers
    ensures referrer == Current(old(st.referrers), memberId, NewReferrer)
    ensures st.referrers == LazyInsert(old(st.referrers), memberId, NewReferrer)
  {
    if memberId in st.referrers {
      referrer := st.referrers[memberId];
    } else {
      referrer := NewReferrer;
      st.referrers := st.referrers[memberId := referrer];
    }
  }

  method GetOrCreateProtocol(st: Store) returns (protocol: Protocol)
    modifies st`protocols
    ensures protocol == CurrentProtocol(old(st.protocols))
    ensures st.protocols == LazyInsert(old(st.protocols), SingletonId, NewProtocol)
  {
    if SingletonId in st.protocols {
      protocol := st.protocols[SingletonId];
    } else {
      protocol := NewProtocol;
      st.protocols := st.protocols[SingletonId := protocol];
    }
  }

  /** A new Song replaces any row under its key; its artist is created lazily. */
  method HandleSongCreated(st: Store, tokenId: nat, artistId: Bytes, price: int, referralPct: int,
                           blockTimestamp: int)
    modifies st`artists, st`songs
    ensures st.artists == LazyInsert(old(st.artists), artistId, NewArtist)
    ensures st.songs == old(st.songs)[SongKey(tokenId) := Song(artistId, price, referralPct, blockTimestamp)]
  {
    var artist := GetOrCreateArtist(st, artistId);
    var song := Song(artistId, price, referralPct, blockTimestamp);
    st.songs := st.songs[NatToString(tokenId) := song];
  }

  /** Unknown song: nothing at all changes, not even the lazy creates.
      Known song: Buyer and Referrer rows are created lazily (the zero
      referrer included), and a purchase keyed by the transaction hash
      alone replaces any earlier purchase of the same transaction. */
  method HandleSongPurchased(st: Store, tokenId: nat, buyerId: Bytes, referrerId: Bytes, price: int,
                             blockTimestamp: int, txHash: Bytes)
    modifies st`buyers, st`referrers, st`purchases
    ensures SongKey(tokenId) !in old(st.songs) ==>
      st.buyers == old(st.buyers) && st.referrers == old(st.referrers) && st.purchases == old(st.purchases)
    ensures SongKey(tokenId) in old(st.songs) ==>
      && st.buyers == LazyInsert(old(st.buyers), buyerId, NewBuyer)
      && st.referrers == LazyInsert(old(st.referrers), referrerId, NewReferrer)
      && st.purchases == old(st.purchases)[ToHex(txHash) :=
           SongPurchase(SongKey(tokenId), buyerId,
                        if referrerId != ZeroAddress() then Some(referrerId) else None,
                        price, blockTimestamp)]
  {
    var songId := NatToString(tokenId);
    if songId !in st.songs {
      return;
    }

    var buyer := GetOrCreateBuyer(st, buyerId);
    var referrer := GetOrCreateReferrer(st, referrerId);

    var referrerIsZero := HexIsZero(referrerId);
    var purchaseReferrer := if !referrerIsZero then Some(referrerId) else None;
    var purchase := SongPurchase(songId, buyerId, purchaseReferrer, price, blockTimestamp);
    st.purchases := st.purchases[ToHex(txHash) := purchase];
  }

  method HandleSongPriceUpdated(st: Store, tokenId: nat, newPrice: int)
    modifies st`songs
    ensures var k := SongKey(tokenId);
      st.songs == if k in old(st.songs) then old(st.songs)[k := old(st.songs)[k].(price := newPrice)]
                  else old(st.songs)
  {
    var songId := NatToString(tokenId);
    if songId !in st.songs {
      return;
    }
    var song := st.songs[songId];
    st.songs := st.songs[songId := song.(price := newPrice)];
  }

  method HandleSongPriceScaled(st: Store, tokenId: nat, newPrice: int)
    modifies st`songs
    ensures var k := SongKey(tokenId);
      st.songs == if k in old(st.songs) then old(st.songs)[k := old(st.songs)[k].(price := newPrice)]
                  else old(st.songs)
  {
    var songId := NatToString(tokenId);
    if songId !in st.songs {
      return;
    }
    var song := st.songs[songId];
    st.songs := st.songs[songId := song.(price := newPrice)];
  }

  method HandleSongReferralPctUpdated(st: Store, tokenId: nat, newPct: int)
    modifies st`songs
    ensures var k := SongKey(tokenId);
      st.songs == if k in old(st.songs) then old(st.songs)[k := old(st.songs)[k].(referralPct := newPct)]
                  else old(st.songs)
  {
    var songId := NatToString(tokenId);
    if songId !in st.songs {
      return;
    }
    var song := st.songs[songId];
    st.songs := st.songs[songId := song.(referralPct := newPct)];
  }

  /** A claim debits every existing Artist and Referrer row of the member
      (with no floor, and without creating either), credits the claimed
      total once, and always writes a Reward row at `txHash-logIndex`. */
  method HandleRewardsClaimed(st: Store, memberId: Bytes, amount: int, blockTimestamp: int,
                              txHash: Bytes, logIndex: nat)
    modifies st`protocols, st`artists, st`referrers, st`rewards
    ensures st.artists == if memberId in old(st.artists)
      then old(st.artists)[memberId := old(st.artists)[memberId].(rewards := old(st.artists)[memberId].rewards - amount)]
      else old(st.artists)
    ensures st.referrers == if memberId in old(st.referrers)
      then old(st.referrers)[memberId := old(st.referrers)[memberId].(rewards := old(st.referrers)[memberId].rewards - amount)]
      else old(st.referrers)
    ensures var p := CurrentProtocol(old(st.protocols));
      st.protocols == old(st.protocols)[SingletonId := p.(totalRewardsClaimed := p.totalRewardsClaimed + amount)]
    ensures st.rewards == old(st.rewards)[LogKey(txHash, logIndex) :=
      Reward(amount, blockTimestamp,
             if memberId in old(st.artists) then Some(memberId) else None,
             if memberId in old(st.referrers) then Some(memberId) else None)]
  {
    ghost var artists0, referrers0 := st.artists, st.referrers;
    var protocol := GetOrCreateProtocol(st);
    var rewardId := LogKey(txHash, logIndex);
    var reward := Reward(amount, blockTimestamp, None, None);

    if memberId in st.artists {
      var artist := st.artists[memberId];
      artist := artist.(rewards := artist.rewards - amount);
      st.artists := st.artists[memberId := artist];
      reward := reward.(artist := Some(memberId));
    }
    assert st.artists == if memberId in artists0
      then artists0[memberId := artists0[memberId].(rewards := artists0[memberId].rewards - amount)]
      else artists0;

    if memberId in st.referrers {
      var referrer := st.referrers[memberId];
      referrer := referrer.(rewards := referrer.rewards - amount);
      st.referrers := st.referrers[memberId := referrer];
      reward := reward.(referrer := Some(memberId));
    }
    assert st.referrers == if memberId in referrers0
      then referrers0[memberId := referrers0[memberId].(rewards := referrers0[memberId].rewards - amount)]
      else referrers0;

    assert reward == Reward(amount, blockTimestamp,
      if memberId in artists0 then Some(memberId) else None,
      if memberId in referrers0 then Some(memberId) else None);
    protocol := protocol.(totalRewardsClaimed := protocol.totalRewardsClaimed + amount);
    LazyThenSave(old(st.protocols), SingletonId, NewProtocol, protocol);
    st.protocols := st.protocols[SingletonId := protocol];
    st.rewards := st.rewards[rewardId := reward];
  }

  /** A distribution credits the artist, credits the referrer only when it
      is not the zero address (a zero referrer is still created lazily),
      and adds both amounts to the distributed total and the event's fee
      to the protocol fee. */
  method HandleRewardsDistributed(st: Store, artistId: Bytes, referrerId: Bytes,
                                  artistAmount: int, referrerAmount: int, protocolFee: int)
    modifies st`protocols, st`artists, st`referrers
    ensures var a := Current(old(st.artists), artistId, NewArtist);
      st.artists == old(st.artists)[artistId := a.(rewards := a.rewards + artistAmount)]
    ensures var r := Current(old(st.referrers), referrerId, NewReferrer);
      st.referrers == if referrerId != ZeroAddress()
        then old(st.referrers)[referrerId := r.(rewards := r.rewards + referrerAmount)]
        else LazyInsert(old(st.referrers), referrerId, NewReferrer)
    ensures var p := CurrentProtocol(old(st.protocols));
      st.protocols == old(st.protocols)[SingletonId := p.(
        totalRewardsDistributed := p.totalRewardsDistributed + artistAmount + referrerAmount,
        protocolFee := p.protocolFee + protocolFee)]
  {
    var protocol := GetOrCreateProtocol(st);
    var artist := GetOrCreateArtist(st, artistId);
    var referrer := GetOrCreateReferrer(st, referrerId);

    artist := artist.(rewards := artist.rewards + artistAmount);
    LazyThenSave(old(st.artists), artistId, NewArtist, artist);
    st.artists := st.artists[artistId := artist];

    var referrerIsZero := HexIsZero(referrerId);
    if !referrerIsZero {
      referrer := referrer.(rewards := referrer.rewards + referrerAmount);
      LazyThenSave(old(st.referrers), referrerId, NewReferrer, referrer);
      st.referrers := st.referrers[referrerId := referrer];
    }

    protocol := protocol.(
      totalRewardsDistributed := protocol.totalRewardsDistributed + artistAmount + referrerAmount,
      protocolFee := protocol.protocolFee + protocolFee);
    LazyThenSave(old(st.protocols), SingletonId, NewProtocol, protocol);
    st.protocols := st.protocols[SingletonId := protocol];
  }

  method HandleOwnershipTransferred(st: Store, newOwner: Address)
    modifies st`protocols
    ensures st.protocols == old(st.protocols)[SingletonId := CurrentProtocol(old(st.protocols)).(owner := newOwner)]
  {
    var protocol := GetOrCreateProtocol(st);
    st.protocols := st.protocols[SingletonId := protocol.(owner := newOwner)];
  }

  /** The fee is overwritten, not accumulated as a distribution does. */
  method HandleProtocolFeeUpdated(st: Store, newFee: int)
    modifies st`protocols
    ensures st.protocols == old(st.protocols)[SingletonId := CurrentProtocol(old(st.protocols)).(protocolFee := newFee)]
  {
    var protocol := GetOrCreateProtocol(st);
    st.protocols := st.protocols[SingletonId := protocol.(protocolFee := newFee)];
  }

  method HandleControllerUpdated(st: Store, newController: Address)
    modifies st`protocols
    ensures st.protocols == old(st.protocols)[SingletonId :=
      CurrentProtocol(old(st.protocols)).(controller := newController)]
  {
    var protocol := GetOrCreateProtocol(st);
    st.protocols := st.protocols[SingletonId := protocol.(controller := newController)];
  }

  /** Sets the address on each role row the member already has; creates none. */
  method HandleMemberAddressUpdated(st: Store, memberId: Bytes, newAddress: Address)
    modifies st`artists, st`buyers, st`referrers
    ensures st.artists == if memberId in old(st.artists)
      then old(st.artists)[memberId := old(st.artists)[memberId].(address := newAddress)] else old(st.artists)
    ensures st.buyers == if memberId in old(st.buyers)
      then old(st.buyers)[memberId := old(st.buyers)[memberId].(address := newAddress)] else old(st.buyers)
    ensures st.referrers == if memberId in old(st.referrers)
      then old(st.referrers)[memberId := old(st.referrers)[memberId].(address := newAddress)] else old(st.referrers)
  {
    if memberId in st.artists {
      var artist := st.artists[memberId];
      st.artists := st.artists[memberId := artist.(address := newAddress)];
    }
    if memberId in st.buyers {
      var buyer := st.buyers[memberId];
      st.buyers := st.buyers[memberId := buyer.(address := newAddress)];
    }
    if memberId in st.referrers {
      var referrer := st.referrers[memberId];
      st.referrers := st.referrers[memberId := referrer.(address := newAddress)];
    }
  }

  /** Two distributions of 50 to an artist not yet seen, with the zero
      referrer and no referrer amount, then a claim of 70 by that artist:
      the artist holds 30, the distributed total grew by 100 and the
      claimed total by 70. */
  method RewardsScenario(st: Store, x: Bytes, claimTx: Bytes, claimLogIndex: nat, timestamp: int)
    requires x !in st.artists
    modifies st`protocols, st`artists, st`referrers, st`rewards
    ensures x in st.artists && st.artists[x].rewards == 30
    ensures CurrentProtocol(st.protocols).totalRewardsDistributed
         == CurrentProtocol(old(st.protocols)).totalRewardsDistributed + 100
    ensures CurrentProtocol(st.protocols).totalRewardsClaimed
         == CurrentProtocol(old(st.protocols)).totalRewardsClaimed + 70
  {
    HandleRewardsDistributed(st, x, ZeroAddress(), 50, 0, 0);
    HandleRewardsDistributed(st, x, ZeroAddress(), 50, 0, 0);
    HandleRewardsClaimed(st, x, 70, timestamp, claimTx, claimLogIndex);
  }

  /** The same scenario on an empty store, read back as plain values. */
  method RewardsScenarioFromEmpty(x: Bytes, claimTx: Bytes, claimLogIndex: nat, timestamp: int)
    returns (balance: int, distributed: int, claimed: int)
    ensures balance == 30 && distributed == 100 && claimed == 70
  {
    var st := new Store();
    RewardsScenario(st, x, claimTx, claimLogIndex, timestamp);
    balance := st.artists[x].rewards;
    var p := CurrentProtocol(st.protocols);
    distributed, claimed := p.totalRewardsDistributed, p.totalRewardsClaimed;
  }

  /** A claim larger than the accrued balance is not refused: an artist
      created by a song, with nothing distributed, claiming 10 holds -10. */
  method OverdrawnClaim(x: Bytes, claimTx: Bytes, claimLogIndex: nat, timestamp: int) returns (balance: int)
    ensures balance == -10
  {
    var st := new Store();
    HandleSongCreated(st, 1, x, 0, 0, timestamp);
    HandleRewardsClaimed(st, x, 10, timestamp, claimTx, claimLogIndex);
    balance := st.artists[x].rewards;
  }
}
