/** The on-chain module: batch minting of attendance NFTs. */
module AttendanceNft {
  import opened Core

  datatype Nft = Nft(recipient: string, rideId: string, date: string, name: string, metadataUrl: string)

  /** The aborts of `mint_batch`: codes 1, 4 and 5, and a name that is not UTF-8. */
  datatype Abort = ZeroRecipient | NamesArity | UrlsArity | BadName

  /** How the chain reads what it is sent: which recipients are the zero address,
      however they are spelled, and which names are UTF-8. */
  datatype Reading = Reading(isZero: string -> bool, utf8: string -> bool)

  /** The NFTs a batch makes from aligned lists. */
  function BatchNfts(recipient: string, rides: seq<string>, date: string, names: seq<string>,
        urls: seq<string>): (nfts: seq<Nft>)
    requires |names| == |rides| && |urls| == |rides|
    ensures |nfts| == |rides|
    ensures forall i :: 0 <= i < |nfts| ==> nfts[i] == Nft(recipient, rides[i], date, names[i], urls[i])
  {
    seq(|rides|, i requires 0 <= i < |rides| => Nft(recipient, rides[i], date, names[i], urls[i]))
  }

  /** Why a batch aborts, if it does. */
  ghost function AbortOf(reading: Reading, recipient: string, rides: seq<string>, names: seq<string>,
        urls: seq<string>): Option<Abort> {
    if reading.isZero(recipient) then Some(ZeroRecipient)
    else if |names| != |rides| then Some(NamesArity)
    else if |urls| != |rides| then Some(UrlsArity)
    else if exists i :: 0 <= i < |names| && !reading.utf8(names[i]) then Some(BadName)
    else None
  }

  /** Why a batch aborts: a zero recipient first, then a list of the wrong length, then
      a name that is not UTF-8; and it does not abort exactly when it has none of these. */
  lemma AbortsExactly(reading: Reading, recipient: string, rides: seq<string>, names: seq<string>, urls: seq<string>)
    ensures var abort := AbortOf(reading, recipient, rides, names, urls);
            var aligned := |names| == |rides| == |urls|;
            && (abort == Some(ZeroRecipient) <==> reading.isZero(recipient))
            && (abort == Some(NamesArity) <==> !reading.isZero(recipient) && |names| != |rides|)
            && (abort == Some(UrlsArity) <==> !reading.isZero(recipient) && |names| == |rides| && |urls| != |rides|)
            && (abort.None? <==>
                  !reading.isZero(recipient) && aligned
                  && forall i :: 0 <= i < |names| ==> reading.utf8(names[i]))
  {}

  class Chain {
    var objects: seq<Nft>

    constructor ()
      ensures objects == []
    {
      objects := [];
    }

    /** One transaction: all the NFTs, or an abort that leaves nothing behind. */
    method MintBatch(reading: Reading, recipient: string, rides: seq<string>, date: string, names: seq<string>,
          urls: seq<string>)
      returns (abort: Option<Abort>)
      modifies this
      ensures abort == AbortOf(reading, recipient, rides, names, urls)
      ensures abort.Some? ==> objects == old(objects)
      ensures abort.None? ==> objects == old(objects) + BatchNfts(recipient, rides, date, names, urls)
    {
      if reading.isZero(recipient) { return Some(ZeroRecipient); }
      if |names| != |rides| { return Some(NamesArity); }
      if |urls| != |rides| { return Some(UrlsArity); }
      var before := objects;
      ghost var all := BatchNfts(recipient, rides, date, names, urls);
      var i := 0;
      while i < |rides|
        invariant 0 <= i <= |rides|
        invariant objects == before + all[..i]
        invariant forall k :: 0 <= k < i ==> reading.utf8(names[k])
      {
        if !reading.utf8(names[i]) {
          objects := before;
          return Some(BadName);
        }
        assert all[..i + 1] == all[..i] + [all[i]];
        objects := objects + [Nft(recipient, rides[i], date, names[i], urls[i])];
        i := i + 1;
      }
      assert all[..i] == all;
      abort := None;
    }
  }
}
