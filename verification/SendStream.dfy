/** RUDPIOHandler::MakeSendStream: packing queued packets into one datagram. */
module SendStream {
  import opened Common

  const MAX_SEND_BUFFER_SIZE: nat := 32768

  // A SendPacketInfo as this function sees it; `erased` is what RefreshRetransmissionSendPacketInfo reads.
  datatype Item = Item(isReply: bool, sequence: nat, bytes: seq<bv8>, erased: bool)
  datatype Key = Key(isReply: bool, sequence: nat)
  datatype Placed = Placed(offset: nat, bytes: seq<bv8>)

  datatype Result = SUCCESS | STREAM_IS_FULL | OCCURED_ERROR

  datatype Build = Build(
    queue: seq<Item>,
    reserved: Option<Item>,
    keys: set<Key>,
    size: nat,            // totalSendSize
    result: Result,
    placed: seq<Placed>,  // history: what was copied where
    taken: seq<Item>)     // history: packets taken up and not put back

  function KeyOf(item: Item): Key {
    Key(item.isReply, item.sequence)
  }

  // ReservedSendPacketInfoToStream
  function PlaceReserved(queue: seq<Item>, reserved: Option<Item>): Build {
    var start := Build(queue, None, {}, 0, SUCCESS, [], []);
    match reserved
    case None => start
    case Some(item) =>
      var took := start.(taken := [item]);
      if |item.bytes| >= MAX_SEND_BUFFER_SIZE then took.(result := OCCURED_ERROR)
      else if item.erased then took
      else took.(keys := {KeyOf(item)}, size := |item.bytes|, placed := [Placed(0, item.bytes)])
  }

  // StoredSendPacketInfoToStream
  function PlaceNext(b: Build): Build {
    if b.queue == [] then b
    else
      var item := b.queue[0];
      var rest := b.(queue := b.queue[1..]);
      var took := rest.(taken := b.taken + [item]);
      var end := b.size + |item.bytes|;
      if KeyOf(item) in b.keys then took
      else if |item.bytes| > MAX_SEND_BUFFER_SIZE || |item.bytes| == 0 then took.(result := OCCURED_ERROR)
      else if end > MAX_SEND_BUFFER_SIZE then rest.(reserved := Some(item), result := STREAM_IS_FULL)
      else if item.erased then took.(size := end)
      else took.(size := end, keys := b.keys + {KeyOf(item)}, placed := b.placed + [Placed(b.size, item.bytes)])
  }

  function PlaceAll(b: Build, count: nat): Build
    decreases count
  {
    if count == 0 || b.result != SUCCESS then b else PlaceAll(PlaceNext(b), count - 1)
  }

  function Made(queue: seq<Item>, reserved: Option<Item>): Build {
    PlaceAll(PlaceReserved(queue, reserved), |queue|)
  }

  // --- The method ---

  ghost predicate Holds(buffer: seq<bv8>, placed: seq<Placed>) {
    forall p :: p in placed ==> p.offset + |p.bytes| <= |buffer| && buffer[p.offset..p.offset + |p.bytes|] == p.bytes
  }

  // Copies end to end, possibly with gaps, inside the part of the buffer in use.
  ghost predicate Packed(placed: seq<Placed>, size: nat) {
    && size <= MAX_SEND_BUFFER_SIZE
    && (forall p :: p in placed ==> p.offset + |p.bytes| <= size)
    && (forall i, j :: 0 <= i < j < |placed| ==> placed[i].offset + |placed[i].bytes| <= placed[j].offset)
  }

  lemma ReservedPacked(queue: seq<Item>, reserved: Option<Item>)
    ensures var b := PlaceReserved(queue, reserved); Packed(b.placed, b.size)
  {
  }

  lemma NextPacked(b: Build)
    requires Packed(b.placed, b.size)
    ensures Packed(PlaceNext(b).placed, PlaceNext(b).size)
  {
    var after := PlaceNext(b);
    if after.placed != b.placed {
      assert after.placed == b.placed + [Placed(b.size, b.queue[0].bytes)];
    }
  }

  class SendStreamBuilder {
    var sendPacketInfoQueue: seq<Item>
    var reservedSendPacketInfo: Option<Item>
    var cachedSequenceSet: set<Key>
    const rioSendBuffer: array<bv8>
    ghost var placed: seq<Placed>
    ghost var taken: seq<Item>

    ghost predicate Valid()
      reads this
    {
      rioSendBuffer.Length == MAX_SEND_BUFFER_SIZE
    }

    constructor ()
      ensures Valid() && fresh(rioSendBuffer) && sendPacketInfoQueue == [] && reservedSendPacketInfo == None
    {
      sendPacketInfoQueue := [];
      reservedSendPacketInfo := None;
      cachedSequenceSet := {};
      placed, taken := [], [];
      rioSendBuffer := new bv8[MAX_SEND_BUFFER_SIZE](_ => 0);
    }

    method PushSendPacketInfo(item: Item)
      modifies this`sendPacketInfoQueue
      ensures sendPacketInfoQueue == old(sendPacketInfoQueue) + [item]
    {
      sendPacketInfoQueue := sendPacketInfoQueue + [item];
    }

    ghost function View(size: nat, result: Result): Build
      reads this
    {
      Build(sendPacketInfoQueue, reservedSendPacketInfo, cachedSequenceSet, size, result, placed, taken)
    }

    method Copy(offset: nat, bytes: seq<bv8>)
      requires Valid() && offset + |bytes| <= MAX_SEND_BUFFER_SIZE
      modifies rioSendBuffer
      ensures rioSendBuffer[..] == old(rioSendBuffer[..])[..offset] + bytes + old(rioSendBuffer[..])[offset + |bytes|..]
    {
      forall i | 0 <= i < |bytes| {
        rioSendBuffer[offset + i] := bytes[i];
      }
    }

    method ReservedSendPacketInfoToStream() returns (size: nat, result: Result)
      requires Valid()
      modifies this, rioSendBuffer
      ensures Valid() && Holds(rioSendBuffer[..], placed) && Packed(placed, size)
      ensures View(size, result) == PlaceReserved(old(sendPacketInfoQueue), old(reservedSendPacketInfo))
    {
      ReservedPacked(sendPacketInfoQueue, reservedSendPacketInfo);
      size, result := 0, SUCCESS;
      cachedSequenceSet, placed, taken := {}, [], [];
      var info := reservedSendPacketInfo;
      reservedSendPacketInfo := None;
      if info.None? { return; }
      taken := [info.value];
      var useSize := |info.value.bytes|;
      if useSize >= MAX_SEND_BUFFER_SIZE {
        result := OCCURED_ERROR;
        return;
      }
      if info.value.erased { return; }
      Copy(0, info.value.bytes);
      cachedSequenceSet := {KeyOf(info.value)};
      placed := [Placed(0, info.value.bytes)];
      size := useSize;
    }

    method StoredSendPacketInfoToStream(totalSendSize: nat) returns (size: nat, result: Result)
      requires Valid() && Holds(rioSendBuffer[..], placed) && Packed(placed, totalSendSize)
      modifies this, rioSendBuffer
      ensures Valid() && Holds(rioSendBuffer[..], placed) && Packed(placed, size)
      ensures View(size, result) == PlaceNext(old(View(totalSendSize, SUCCESS)))
    {
      NextPacked(View(totalSendSize, SUCCESS));
      hide Holds, Packed;
      size, result := totalSendSize, SUCCESS;
      if sendPacketInfoQueue == [] { return; }
      var info := sendPacketInfoQueue[0];
      sendPacketInfoQueue := sendPacketInfoQueue[1..];
      if KeyOf(info) in cachedSequenceSet {
        taken := taken + [info];
        return;
      }
      var useSize := |info.bytes|;
      if useSize > MAX_SEND_BUFFER_SIZE || useSize == 0 {
        taken := taken + [info];
        result := OCCURED_ERROR;
        return;
      }
      if totalSendSize + useSize > MAX_SEND_BUFFER_SIZE {
        reservedSendPacketInfo := Some(info);
        result := STREAM_IS_FULL;
        return;
      }
      taken := taken + [info];
      size := totalSendSize + useSize;
      if info.erased { return; }
      cachedSequenceSet := cachedSequenceSet + {KeyOf(info)};
      ghost var was := rioSendBuffer[..];
      Copy(totalSendSize, info.bytes);
      CopyKeeps(was, placed, totalSendSize, info.bytes);
      placed := placed + [Placed(totalSendSize, info.bytes)];
    }

    method MakeSendStream() returns (succeeded: bool, totalSendSize: nat)
      requires Valid()
      modifies this, rioSendBuffer
      ensures Valid()
      ensures var b := Made(old(sendPacketInfoQueue), old(reservedSendPacketInfo));
              && succeeded == (b.result != OCCURED_ERROR)
              && totalSendSize == (if succeeded then b.size else 0)
              && sendPacketInfoQueue == b.queue && reservedSendPacketInfo == b.reserved
              && placed == b.placed && taken == b.taken
      ensures succeeded ==> Holds(rioSendBuffer[..], placed) && Packed(placed, totalSendSize)
    {
      var bufferCount := |sendPacketInfoQueue|;
      var size, result := ReservedSendPacketInfoToStream();
      if result == OCCURED_ERROR { return false, 0; }
      var i := 0;
      while i < bufferCount
        invariant 0 <= i <= bufferCount
        invariant Valid() && Holds(rioSendBuffer[..], placed) && Packed(placed, size)
        invariant PlaceAll(View(size, SUCCESS), bufferCount - i)
                  == Made(old(sendPacketInfoQueue), old(reservedSendPacketInfo))
      {
        size, result := StoredSendPacketInfoToStream(size);
        if result == OCCURED_ERROR { return false, 0; }
        if result == STREAM_IS_FULL { return true, size; }
        i := i + 1;
      }
      return true, size;
    }
  }

  lemma CopyKeeps(was: seq<bv8>, placed: seq<Placed>, offset: nat, bytes: seq<bv8>)
    requires |was| == MAX_SEND_BUFFER_SIZE && offset + |bytes| <= |was| && Holds(was, placed) && Packed(placed, offset)
    ensures Holds(was[..offset] + bytes + was[offset + |bytes|..], placed + [Placed(offset, bytes)])
  {
    var now := was[..offset] + bytes + was[offset + |bytes|..];
    forall p | p in placed ensures now[p.offset..p.offset + |p.bytes|] == p.bytes {
      assert now[p.offset..p.offset + |p.bytes|] == was[p.offset..p.offset + |p.bytes|];
    }
    assert now[offset..offset + |bytes|] == bytes;
  }
}
