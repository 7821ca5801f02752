/** Chunked upload sessions (internal/asset/chunked_upload.go): chunks arrive in any order, are
    counted against the declared size, and are put together by index. */
module ChunkedUpload {
  import opened Text

  type Byte = b: int | 0 <= b < 256
  type Chunks = map<int, seq<Byte>>

  const MAX_UPLOAD_SIZE: int := 10 * 1024 * 1024

  // ----- base64 lengths -----

  /** `base64.StdEncoding.EncodedLen`. */
  function EncodedLen(n: nat): nat {
    (n + 2) / 3 * 4
  }

  const ALPHABET: string := "ABCDEFGHIJKLMNOPQRSTUVWXYZabcdefghijklmnopqrstuvwxyz0123456789+/"

  /** Four characters for the first `k` of three bytes. */
  function Group(b0: Byte, b1: Byte, b2: Byte, k: nat): (s: string)
    ensures |s| == 4
  {
    [ALPHABET[b0 / 4], ALPHABET[b0 % 4 * 16 + b1 / 16],
     if k > 1 then ALPHABET[b1 % 16 * 4 + b2 / 64] else '=',
     if k > 2 then ALPHABET[b2 % 64] else '=']
  }

  /** Standard base64 with padding (section 4 of RFC 4648). */
  function Encode(data: seq<Byte>): string {
    if |data| == 0 then ""
    else if |data| == 1 then Group(data[0], 0, 0, 1)
    else if |data| == 2 then Group(data[0], data[1], 0, 2)
    else Group(data[0], data[1], data[2], 3) + Encode(data[3..])
  }

  lemma EncodedLenStep(n: nat)
    ensures EncodedLen(n + 3) == EncodedLen(n) + 4
  {
  }

  lemma EncodedLenMonotone(m: nat, n: nat)
    ensures m <= n ==> EncodedLen(m) <= EncodedLen(n)
    ensures EncodedLen(m) <= EncodedLen(n) ==> m <= n + 2
  {
  }

  lemma EncodeGroup(data: seq<Byte>)
    requires |data| >= 3
    ensures |Encode(data)| == 4 + |Encode(data[3..])|
  {
  }

  lemma EncodeShort(data: seq<Byte>)
    requires |data| < 3
    ensures |Encode(data)| == EncodedLen(|data|)
  {
    if data == [] {
      assert EncodedLen(0) == 0;
    } else if |data| == 1 {
      assert EncodedLen(1) == 4;
    } else {
      assert EncodedLen(2) == 4;
    }
  }

  lemma {:induction false} EncodeLength(data: seq<Byte>)
    ensures |Encode(data)| == EncodedLen(|data|)
  {
    if |data| < 3 {
      EncodeShort(data);
    } else {
      EncodeGroup(data);
      EncodeLength(data[3..]);
      EncodedLenStep(|data[3..]|);
    }
  }

  /** The check on the encoded length never turns away a canonical encoding that the check on the
      decoded size would accept; and what it lets through decodes to at most two bytes more. */
  lemma PreflightIsSafe(data: seq<Byte>, remaining: nat)
    ensures |data| <= remaining ==> |Encode(data)| <= EncodedLen(remaining)
    ensures |Encode(data)| <= EncodedLen(remaining) ==> |data| <= remaining + 2
  {
    EncodeLength(data);
    EncodedLenMonotone(|data|, remaining);
  }

  // ----- accounting -----

  /** The bytes stored under indices below `n`. */
  function StoredBytes(chunks: Chunks, n: nat): nat {
    if n == 0 then 0
    else StoredBytes(chunks, n - 1) + if n - 1 in chunks then |chunks[n - 1]| else 0
  }

  lemma {:induction false} StoredBytesAdd(chunks: Chunks, i: int, data: seq<Byte>, n: nat)
    requires i !in chunks
    ensures StoredBytes(chunks[i := data], n) == StoredBytes(chunks, n) + if 0 <= i < n then |data| else 0
  {
    if n > 0 {
      StoredBytesAdd(chunks, i, data, n - 1);
    }
  }

  predicate InRange(chunks: Chunks, n: nat) {
    forall i :: i in chunks ==> 0 <= i < n
  }

  function Below(n: nat): (s: set<int>)
    ensures |s| == n && forall i :: i in s <==> 0 <= i < n
  {
    if n == 0 then {} else Below(n - 1) + {n - 1}
  }

  /** As many chunks as indices means every index has its chunk. */
  lemma FullCountMeansComplete(chunks: Chunks, n: nat)
    requires InRange(chunks, n)
    ensures |chunks| == n <==> forall i :: 0 <= i < n ==> i in chunks
    ensures |chunks| <= n
  {
    assert chunks.Keys <= Below(n);
    SubsetSize(chunks.Keys, Below(n));
    if forall i :: 0 <= i < n ==> i in chunks {
      assert chunks.Keys == Below(n);
    } else {
      var i :| 0 <= i < n && i !in chunks;
      SubsetSize(chunks.Keys, Below(n) - {i});
    }
  }

  lemma SubsetSize(a: set<int>, b: set<int>)
    requires a <= b
    ensures |a| <= |b|
  {
    assert a + (b - a) == b;
  }

  // ----- assembly -----

  function Assembled(chunks: Chunks, n: nat): seq<Byte>
    requires forall i :: 0 <= i < n ==> i in chunks
  {
    if n == 0 then [] else Assembled(chunks, n - 1) + chunks[n - 1]
  }

  lemma {:induction false} AssembledSize(chunks: Chunks, n: nat)
    requires forall i :: 0 <= i < n ==> i in chunks
    ensures |Assembled(chunks, n)| == StoredBytes(chunks, n)
  {
    if n > 0 {
      AssembledSize(chunks, n - 1);
    }
  }

  function Flatten(pieces: seq<seq<Byte>>): seq<Byte> {
    if pieces == [] then [] else Flatten(pieces[..|pieces| - 1]) + pieces[|pieces| - 1]
  }

  lemma {:induction false} AssembledPieces(chunks: Chunks, pieces: seq<seq<Byte>>, n: nat)
    requires n <= |pieces| && forall i :: 0 <= i < n ==> i in chunks && chunks[i] == pieces[i]
    ensures Assembled(chunks, n) == Flatten(pieces[..n])
  {
    if n > 0 {
      AssembledPieces(chunks, pieces, n - 1);
      assert pieces[..n][..n - 1] == pieces[..n - 1];
    }
  }

  // ----- a run of offered chunks -----

  /** One call: the index, the text sent, and what base64 decoding makes of it. */
  datatype Offer = Offer(index: int, encoded: string, decoded: Option<seq<Byte>>)

  datatype Stored = Stored(chunks: Chunks, received: int)

  /** The gates a chunk has to pass, in a session of `size` bytes and `n` chunks. */
  predicate Taken(s: Stored, size: nat, n: nat, o: Offer) {
    && 0 <= o.index < n && o.index !in s.chunks
    && |o.encoded| <= EncodedLen(if size < s.received then 0 else size - s.received)
    && o.decoded.Some? && s.received + |o.decoded.value| <= size
  }

  /** The preflight turns away no canonical chunk: such a chunk is taken exactly when its index is in
      range and free and its bytes fit. */
  lemma CanonicalTakenIff(s: Stored, size: nat, n: nat, o: Offer)
    requires o.decoded.Some? && o.encoded == Encode(o.decoded.value)
    ensures Taken(s, size, n, o) <==>
              0 <= o.index < n && o.index !in s.chunks && s.received + |o.decoded.value| <= size
  {
    EncodeLength(o.decoded.value);
    TakenIff(s, size, n, o);
  }

  lemma TakenIff(s: Stored, size: nat, n: nat, o: Offer)
    requires o.decoded.Some? && |o.encoded| == EncodedLen(|o.decoded.value|)
    ensures Taken(s, size, n, o) <==>
              0 <= o.index < n && o.index !in s.chunks && s.received + |o.decoded.value| <= size
  {
    if s.received + |o.decoded.value| <= size {
      EncodedLenMonotone(|o.decoded.value|, size - s.received);
    }
  }

  function AfterOffer(s: Stored, size: nat, n: nat, o: Offer): Stored {
    if Taken(s, size, n, o)
    then Stored(s.chunks[o.index := o.decoded.value], s.received + |o.decoded.value|)
    else s
  }

  function AfterOffers(s: Stored, size: nat, n: nat, offers: seq<Offer>): Stored {
    if offers == [] then s
    else AfterOffer(AfterOffers(s, size, n, offers[..|offers| - 1]), size, n, offers[|offers| - 1])
  }

  /** Offers of a file: whatever decodes under one of its indices is that piece. Offers with other
      indices, of garbage, and repeated ones may come between. */
  predicate OffersOf(pieces: seq<seq<Byte>>, offers: seq<Offer>) {
    forall k :: 0 <= k < |offers| && 0 <= offers[k].index < |pieces| && offers[k].decoded.Some? ==>
      offers[k].decoded.value == pieces[offers[k].index]
  }

  predicate HoldsPieces(s: Stored, pieces: seq<seq<Byte>>) {
    forall i :: i in s.chunks ==> 0 <= i < |pieces| && s.chunks[i] == pieces[i]
  }

  predicate Accounted(s: Stored, size: nat, n: nat) {
    s.received == StoredBytes(s.chunks, n) && s.received <= size
  }

  lemma OfferAccounted(s: Stored, size: nat, n: nat, o: Offer)
    requires Accounted(s, size, n)
    ensures Accounted(AfterOffer(s, size, n, o), size, n)
  {
    if Taken(s, size, n, o) {
      StoredBytesAdd(s.chunks, o.index, o.decoded.value, n);
    }
  }

  const NOTHING := Stored(map[], 0)

  lemma {:induction false} OffersKeep(pieces: seq<seq<Byte>>, size: nat, offers: seq<Offer>)
    requires OffersOf(pieces, offers)
    ensures var s := AfterOffers(NOTHING, size, |pieces|, offers);
            HoldsPieces(s, pieces) && Accounted(s, size, |pieces|)
  {
    if offers == [] {
      NothingStored(|pieces|);
    } else {
      var before := offers[..|offers| - 1];
      OffersKeep(pieces, size, before);
      OfferAccounted(AfterOffers(NOTHING, size, |pieces|, before), size, |pieces|, offers[|offers| - 1]);
    }
  }

  /** Over any run of offered chunks, refused ones included and in whatever order: the bytes counted are
      the bytes stored and never exceed the declared size, and once the count is full the result is the
      file. */
  lemma ReassemblyAnyOrder(pieces: seq<seq<Byte>>, size: nat, offers: seq<Offer>)
    requires OffersOf(pieces, offers)
    ensures var s := AfterOffers(NOTHING, size, |pieces|, offers);
            && s.received == StoredBytes(s.chunks, |pieces|) <= size
            && (|s.chunks| == |pieces| ==>
                  && (forall i :: 0 <= i < |pieces| ==> i in s.chunks)
                  && Assembled(s.chunks, |pieces|) == Flatten(pieces))
  {
    var s := AfterOffers(NOTHING, size, |pieces|, offers);
    OffersKeep(pieces, size, offers);
    FullCountMeansComplete(s.chunks, |pieces|);
    if |s.chunks| == |pieces| {
      AssembledPieces(s.chunks, pieces, |pieces|);
      assert pieces[..|pieces|] == pieces;
    }
  }

  // ----- every piece gets through -----

  lemma {:induction false} StoredWithin(chunks: Chunks, pieces: seq<seq<Byte>>, n: nat)
    requires n <= |pieces| && forall i :: i in chunks && 0 <= i < n ==> chunks[i] == pieces[i]
    ensures StoredBytes(chunks, n) <= |Flatten(pieces[..n])|
  {
    if n > 0 {
      StoredWithin(chunks, pieces, n - 1);
      assert pieces[..n][..n - 1] == pieces[..n - 1];
    }
  }

  /** A canonical offer of a piece not stored yet is taken, if the file is no larger than declared. */
  lemma PieceTaken(s: Stored, pieces: seq<seq<Byte>>, size: nat, o: Offer)
    requires HoldsPieces(s, pieces) && Accounted(s, size, |pieces|) && |Flatten(pieces)| <= size
    requires 0 <= o.index < |pieces| && o.index !in s.chunks
    requires o.decoded == Some(pieces[o.index]) && o.encoded == Encode(pieces[o.index])
    ensures Taken(s, size, |pieces|, o)
  {
    var n, piece := |pieces|, pieces[o.index];
    StoredBytesAdd(s.chunks, o.index, piece, n);
    StoredWithin(s.chunks[o.index := piece], pieces, n);
    assert pieces[..n] == pieces;
    CanonicalTakenIff(s, size, n, o);
  }

  predicate Offers(offers: seq<Offer>, pieces: seq<seq<Byte>>, i: int) {
    0 <= i < |pieces| && Offer(i, Encode(pieces[i]), Some(pieces[i])) in offers
  }

  lemma {:induction false} OfferedIsStored(pieces: seq<seq<Byte>>, size: nat, offers: seq<Offer>, i: int)
    requires OffersOf(pieces, offers) && |Flatten(pieces)| <= size && Offers(offers, pieces, i)
    ensures i in AfterOffers(NOTHING, size, |pieces|, offers).chunks
  {
    var before, last := offers[..|offers| - 1], offers[|offers| - 1];
    var s := AfterOffers(NOTHING, size, |pieces|, before);
    assert offers == before + [last];
    if Offers(before, pieces, i) {
      OfferedIsStored(pieces, size, before, i);
    } else if i !in s.chunks {
      OffersKeep(pieces, size, before);
      PieceTaken(s, pieces, size, last);
    }
  }

  /** A file no larger than declared, of which every piece is offered in canonical form at some point, is
      complete afterwards, whatever else was offered and in whatever order. */
  lemma UploadCompletes(pieces: seq<seq<Byte>>, size: nat, offers: seq<Offer>)
    requires OffersOf(pieces, offers) && |Flatten(pieces)| <= size
    requires forall i :: 0 <= i < |pieces| ==> Offers(offers, pieces, i)
    ensures var s := AfterOffers(NOTHING, size, |pieces|, offers);
            && |s.chunks| == |pieces| && (forall i :: 0 <= i < |pieces| ==> i in s.chunks)
            && Assembled(s.chunks, |pieces|) == Flatten(pieces)
  {
    var s := AfterOffers(NOTHING, size, |pieces|, offers);
    forall i | 0 <= i < |pieces| ensures i in s.chunks {
      OfferedIsStored(pieces, size, offers, i);
    }
    OffersKeep(pieces, size, offers);
    FullCountMeansComplete(s.chunks, |pieces|);
    ReassemblyAnyOrder(pieces, size, offers);
  }

  // ----- sessions -----

  datatype UploadError = NotFound | AliasRequired | BadSize | TooLarge | BadChunkCount
    | OutOfRange | Duplicate | ExceedsSize | InvalidData | Missing(indices: seq<int>)

  datatype Result<T> = Ok(value: T) | Err(error: UploadError)

  /** Why a chunk is refused: its place first, then its length as sent, its encoding, and its real length. */
  function Refusal(s: Stored, size: nat, n: nat, o: Offer): UploadError {
    if o.index < 0 || n <= o.index then OutOfRange
    else if o.index in s.chunks then Duplicate
    else if o.decoded.None? && |o.encoded| <= EncodedLen(if size < s.received then 0 else size - s.received) then InvalidData
    else ExceedsSize
  }

  class Session {
    const totalSize: int
    const totalChunks: nat
    var chunks: Chunks
    var receivedBytes: int

    ghost predicate Valid()
      reads this
    {
      && 0 < totalSize <= MAX_UPLOAD_SIZE && 0 < totalChunks
      && InRange(chunks, totalChunks)
      && receivedBytes == StoredBytes(chunks, totalChunks) <= totalSize
    }

    constructor (totalSize: int, totalChunks: nat)
      requires 0 < totalSize <= MAX_UPLOAD_SIZE && 0 < totalChunks
      ensures Valid() && chunks == map[] && this.totalSize == totalSize && this.totalChunks == totalChunks
    {
      this.totalSize, this.totalChunks := totalSize, totalChunks;
      chunks, receivedBytes := map[], 0;
      new;
      NothingStored(totalChunks);
    }

    function View(): Stored
      reads this
    {
      Stored(chunks, receivedBytes)
    }

    /** Takes one chunk, or refuses it and changes nothing. `decoded` is what base64 decoding makes
        of `encoded`. */
    method AddChunk(index: int, encoded: string, decoded: Option<seq<Byte>>) returns (r: Result<(int, bool)>)
      requires Valid()
      modifies this
      ensures Valid()
      ensures View() == AfterOffer(old(View()), totalSize, totalChunks, Offer(index, encoded, decoded))
      ensures r.Ok? <==> Taken(old(View()), totalSize, totalChunks, Offer(index, encoded, decoded))
      ensures r.Ok? ==> r.value == (|chunks|, forall i :: 0 <= i < totalChunks ==> i in chunks)
      ensures r.Err? ==> r.error == Refusal(old(View()), totalSize, totalChunks, Offer(index, encoded, decoded))
    {
      if index < 0 || index >= totalChunks {
        return Err(OutOfRange);
      }
      if index in chunks {
        return Err(Duplicate);
      }
      var limit := if totalSize > MAX_UPLOAD_SIZE then MAX_UPLOAD_SIZE else totalSize;
      var remaining := if limit - receivedBytes < 0 then 0 else limit - receivedBytes;
      if |encoded| > EncodedLen(remaining) {
        return Err(ExceedsSize);
      }
      if decoded.None? {
        return Err(InvalidData);
      }
      var data := decoded.value;
      if receivedBytes + |data| > limit {
        return Err(ExceedsSize);
      }
      StoredBytesAdd(chunks, index, data, totalChunks);
      receivedBytes := receivedBytes + |data|;
      chunks := chunks[index := data];
      FullCountMeansComplete(chunks, totalChunks);
      return Ok((|chunks|, |chunks| == totalChunks));
    }

    /** The missing indices, or all chunks in index order. */
    method Assemble() returns (r: Result<seq<Byte>>)
      requires Valid()
      ensures r.Ok? <==> forall i :: 0 <= i < totalChunks ==> i in chunks
      ensures r.Ok? ==> r.value == Assembled(chunks, totalChunks) && |r.value| == receivedBytes <= totalSize
      ensures r.Err? ==> r.error.Missing? && forall i :: i in r.error.indices <==> 0 <= i < totalChunks && i !in chunks
      ensures r.Err? ==> forall j, k :: 0 <= j < k < |r.error.indices| ==> r.error.indices[j] < r.error.indices[k]
    {
      FullCountMeansComplete(chunks, totalChunks);
      if |chunks| != totalChunks {
        var missing: seq<int> := [];
        for i := 0 to totalChunks
          invariant forall j :: j in missing <==> 0 <= j < i && j !in chunks
          invariant forall j, k :: 0 <= j < k < |missing| ==> missing[j] < missing[k]
          invariant forall j :: 0 <= j < |missing| ==> missing[j] in missing
        {
          if i !in chunks {
            missing := missing + [i];
          }
        }
        return Err(Missing(missing));
      }
      var out: seq<Byte> := [];
      for i := 0 to totalChunks
        invariant out == Assembled(chunks, i)
      {
        out := out + chunks[i];
      }
      AssembledSize(chunks, totalChunks);
      return Ok(out);
    }
  }

  lemma {:induction false} NothingStored(n: nat)
    ensures StoredBytes(map[], n) == 0
  {
    if n > 0 {
      NothingStored(n - 1);
    }
  }

  class UploadManager {
    var sessions: map<string, Session>

    ghost predicate Valid()
      reads this, set id | id in sessions :: sessions[id]
    {
      && (forall id :: id in sessions ==> sessions[id].Valid())
      && (forall id, id2 :: id in sessions && id2 in sessions && id != id2 ==> sessions[id] != sessions[id2])
    }

    constructor ()
      ensures Valid() && sessions == map[]
    {
      sessions := map[];
    }

    /** `id` is a fresh identifier. */
    method CreateSession(alias: string, totalSize: int, totalChunks: int, id: string) returns (r: Result<string>)
      requires Valid() && id !in sessions
      modifies this
      ensures Valid()
      ensures r.Ok? <==> TrimSpace(alias) != "" && 0 < totalSize <= MAX_UPLOAD_SIZE && totalChunks > 0
      ensures r.Ok? ==> r.value == id && id in sessions && fresh(sessions[id]) && sessions == old(sessions)[id := sessions[id]]
                        && sessions[id].chunks == map[] && sessions[id].totalChunks == totalChunks && sessions[id].totalSize == totalSize
      ensures r.Err? ==> sessions == old(sessions)
      ensures r.Err? ==> r.error == if TrimSpace(alias) == "" then AliasRequired
                                    else if totalSize <= 0 then BadSize
                                    else if totalSize > MAX_UPLOAD_SIZE then TooLarge
                                    else BadChunkCount
    {
      if TrimSpace(alias) == "" {
        return Err(AliasRequired);
      }
      if totalSize <= 0 {
        return Err(BadSize);
      }
      if totalSize > MAX_UPLOAD_SIZE {
        return Err(TooLarge);
      }
      if totalChunks <= 0 {
        return Err(BadChunkCount);
      }
      var session := new Session(totalSize, totalChunks);
      sessions := sessions[id := session];
      return Ok(id);
    }

    /** One chunk for the session it names; the other sessions are untouched. */
    method AddChunk(id: string, index: int, encoded: string, decoded: Option<seq<Byte>>) returns (r: Result<(int, bool)>)
      requires Valid()
      modifies set i | i in sessions && i == id :: sessions[i]
      ensures Valid() && sessions == old(sessions)
      ensures id !in sessions ==> r == Err(NotFound)
      ensures id in sessions ==>
                && sessions[id].View()
                   == AfterOffer(old(sessions[id].View()), sessions[id].totalSize, sessions[id].totalChunks, Offer(index, encoded, decoded))
                && (r.Ok? <==> sessions[id].View() != old(sessions[id].View()))
                && (r.Ok? ==> r.value == (|sessions[id].chunks|,
                                          forall i :: 0 <= i < sessions[id].totalChunks ==> i in sessions[id].chunks))
    {
      if id !in sessions {
        return Err(NotFound);
      }
      r := sessions[id].AddChunk(index, encoded, decoded);
    }

    /** A session is removed only once it has been put together. */
    method AssembleAndRemove(id: string) returns (r: Result<seq<Byte>>)
      requires Valid()
      modifies this
      ensures Valid()
      ensures id !in old(sessions) ==> r == Err(NotFound)
      ensures id in old(sessions) ==>
                (r.Ok? <==> forall i :: 0 <= i < old(sessions)[id].totalChunks ==> i in old(sessions)[id].chunks)
      ensures r.Ok? ==> id in old(sessions) && sessions == old(sessions) - {id}
                        && (forall i :: 0 <= i < old(sessions)[id].totalChunks ==> i in old(sessions)[id].chunks)
                        && r.value == Assembled(old(sessions)[id].chunks, old(sessions)[id].totalChunks)
      ensures r.Err? ==> sessions == old(sessions)
    {
      if id !in sessions {
        return Err(NotFound);
      }
      r := sessions[id].Assemble();
      if r.Ok? {
        sessions := sessions - {id};
      }
    }
  }
}
