/**
 * A three-message exchange for item 7, run through
 * the contracts of the writer, the reader and `apply`: a full update creates
 * the replica, a movement update changes its stuck flag but not its stack or
 * progress, and a movement update that arrives after the pipe dropped the
 * item evicts the cache entry and is itself dropped.
 */
module Scenario {
  import opened Wrappers
  import opened Bits
  import opened Directions
  import opened ItemUtils
  import opened Buffers
  import opened ItemCodec
  import opened Pipes
  import opened ItemUpdate

  /** Writes `sent` into a buffer and reads it back into a fresh packet addressed to `target`. */
  method Transfer(sent: PipeItem, syncStack: bool, target: TilePipe, cache: ItemIdCache)
    returns (recv: PacketItemUpdate)
    requires -0x8000 <= sent.id < 0x8000 && 0 <= sent.progress < 0x100
    ensures fresh(recv) && recv.tile == Pipe(target) && recv.cache == cache
    ensures recv.id == sent.id && recv.syncStack == syncStack && !recv.addWhenDone
    ensures InputOf(recv.dirs) == sent.input && OutputOf(recv.dirs) == sent.output
    ensures FlagSet(recv.flags, ReachedCenterBit) == sent.reachedCenter
    ensures FlagSet(recv.flags, StuckBit) == sent.stuck
    ensures recv.progress == sent.progress
    ensures syncStack ==> recv.stack == sent.stack
  {
    var buf := new ByteBuf([]);
    var out := new PacketItemUpdate.ForItem(Pipe(sent.owner), sent, syncStack, cache);
    out.WriteItemData(buf);
    EncodeDecode(sent.id, sent.input, sent.output, sent.reachedCenter, sent.stuck, syncStack, sent.progress, sent.stack, []);
    ToShortOfShort(sent.id);
    assert buf.Unread() == buf.data[..] + [];
    recv := new PacketItemUpdate(Pipe(target), cache);
    var outcome := recv.ReadItemData(buf);
    assert outcome.Read?;
  }

  /** The client tracks item 7 as `replica`: its pipe lists only it and the cache maps 7 to it. */
  ghost predicate Tracks(client: TilePipe, cache: ItemIdCache, replica: PipeItem)
    reads client, cache, replica
  {
    client.items == [replica] && replica.owner == client && replica.id == 7 && cache.entries == map[7 := Live(replica)]
  }

  /** A full update for an item the client does not know creates its replica. */
  method FullUpdate(sent: PipeItem, client: TilePipe, cache: ItemIdCache) returns (replica: PipeItem)
    requires sent.id == 7 && 0 <= sent.progress < 0x100
    requires client.items == [] && cache.entries == map[]
    modifies client, cache
    ensures fresh(replica) && Tracks(client, cache, replica)
    ensures replica.input == sent.input && replica.output == sent.output
    ensures replica.reachedCenter == sent.reachedCenter && replica.stuck == sent.stuck
    ensures replica.stack == sent.stack && replica.progress == sent.progress
  {
    var packet := Transfer(sent, true, client, cache);
    var res := packet.Apply();
    assert res.Created?;
    replica := packet.item;
  }

  /** A movement update for a tracked item refreshes its flags and keeps its stack and progress. */
  method MovementUpdate(sent: PipeItem, client: TilePipe, cache: ItemIdCache, replica: PipeItem)
    requires sent != replica && sent.id == 7 && 0 <= sent.progress < 0x100
    requires Tracks(client, cache, replica)
    modifies client, cache, replica
    ensures Tracks(client, cache, replica)
    ensures replica.input == sent.input && replica.output == sent.output
    ensures replica.reachedCenter == sent.reachedCenter && replica.stuck == sent.stuck
    ensures replica.stack == old(replica.stack) && replica.progress == old(replica.progress)
  {
    var packet := Transfer(sent, false, client, cache);
    var res := packet.Apply();
    assert res.FromCache?;
  }

  /** A movement update whose cached item the pipe no longer lists evicts it and is dropped. */
  method StaleUpdate(sent: PipeItem, client: TilePipe, cache: ItemIdCache, replica: PipeItem)
    requires sent.id == 7 && 0 <= sent.progress < 0x100
    requires client.items == [] && replica.owner == client && cache.entries == map[7 := Live(replica)]
    modifies client, cache
    ensures cache.entries == map[] && client.items == []
  {
    var packet := Transfer(sent, false, client, cache);
    var res := packet.Apply();
    assert res.Dropped?;
  }

  /** A server-side item 7 travelling North to South with the given state. */
  method ServerItem(reachedCenter: bool, stuck: bool, progress: int, stack: StackData) returns (sent: PipeItem)
    requires 0 <= progress < 0x100
    ensures fresh(sent) && sent.id == 7 && sent.input == Some(North) && sent.output == Some(South)
    ensures sent.reachedCenter == reachedCenter && sent.stuck == stuck
    ensures sent.progress == progress && sent.stack == stack
  {
    var server := new TilePipe();
    sent := new PipeItem(server, 7);
    sent.input, sent.output := Some(North), Some(South);
    sent.reachedCenter, sent.stuck := reachedCenter, stuck;
    sent.progress, sent.stack := progress, stack;
  }

  /**
   * Item 7 travels North to South. The replica is created by a full update,
   * refreshed by a movement update that keeps its stack and its progress,
   * and forgotten once the client's pipe no longer lists it.
   */
  method WorkedExample(payload: StackData)
  {
    var client := new TilePipe();
    var cache := new ItemIdCache();

    var created := ServerItem(true, false, 0, payload);
    var replica := FullUpdate(created, client, cache);
    assert replica.stack == payload && replica.progress == 0 && replica.reachedCenter && !replica.stuck;

    var moved := ServerItem(false, true, 128, EmptyData);
    MovementUpdate(moved, client, cache, replica);
    assert replica.stuck && replica.stack == payload && replica.progress == 0;

    client.RemoveItemClientSide(replica);
    var late := ServerItem(false, false, 255, EmptyData);
    StaleUpdate(late, client, cache, replica);
    assert cache.entries == map[] && client.items == [];
  }
}
