/**
 * The pipe-item update packet (`PacketItemUpdate`): the server writes one
 * item's movement state, and optionally its stack, into a packet; the client
 * reads it back and reconciles it with its replicas, using a process-wide
 * id -> item cache of weak references.
 */
module ItemUpdate {
  import opened Wrappers
  import opened Bits
  import opened Directions
  import opened ItemUtils
  import opened Buffers
  import opened ItemCodec
  import opened Pipes

  /** The packet's target tile entity: absent, some other tile, or a pipe. */
  datatype TileEntity = NoTile | OtherTile | Pipe(pipe: TilePipe)

  /** A weak reference: `Cleared` once the collector has reclaimed the item. */
  datatype Ref = Cleared | Live(item: PipeItem)

  /** How `apply` resolved the update. */
  datatype Resolution =
    | FromCache   // a valid cache entry
    | FromPipe    // the pipe's own item with that id
    | Created     // a new replica, built because a stack was sent
    | Dropped     // nothing known and no stack: the update is ignored
    | NoPipe      // no target tile: nothing to apply to
    | Aborted     // the target tile is not a pipe: the cast in `apply` throws
  {
    predicate Resolved() { FromCache? || FromPipe? || Created? }
  }

  /** What `readItemData` did with the buffer. */
  datatype ReadOutcome = Skipped | Read | Malformed

  /** The static `itemIdCache`, shared by every packet. */
  class ItemIdCache {
    var entries: map<int, Ref>

    constructor ()
      ensures entries == map[]
    {
      entries := map[];
    }
  }

  /** `ref != null ? ref.get() : null`. */
  function Lookup(entries: map<int, Ref>, id: int): (r: PipeItem?)
    ensures r != null <==> id in entries && entries[id].Live?
    ensures r != null ==> entries[id] == Live(r)
  {
    if id in entries && entries[id].Live? then entries[id].item else null
  }

  /** A cached item is stale when its owner is not the target tile or no longer lists it. */
  predicate IsStale(c: PipeItem, tile: TileEntity)
    reads c.owner
  {
    tile != Pipe(c.owner) || c !in c.owner.items
  }

  /** Every item the pipe lists names the pipe as its owner. */
  ghost predicate OwnsItems(p: TilePipe)
    reads p
  {
    forall it | it in p.items :: it.owner == p
  }

  /** Evicting a key and then registering it is the same as registering it. */
  lemma RegisterAfterEviction(entries: map<int, Ref>, id: int, r: Ref)
    ensures (entries - {id})[id := r] == entries[id := r]
  {
  }

  class PacketItemUpdate {
    /** The tile entity the packet is addressed to (`PacketTile.tile`). */
    const tile: TileEntity
    /** The item being sent (server) or the replica resolved (client). */
    var item: PipeItem?
    const cache: ItemIdCache
    var syncStack: bool
    var stack: StackData
    var id: int16
    var dirs: uint8
    var flags: uint8
    var progress: uint8
    var addWhenDone: bool

    /** `new PacketItemUpdate()`, before `readData` fills it; `tile` is set by `PacketTile`. */
    constructor (tile: TileEntity, cache: ItemIdCache)
      ensures this.tile == tile && this.cache == cache && item == null
      ensures !syncStack && !addWhenDone && id == 0 && dirs == 0 && flags == 0 && progress == 0
    {
      this.tile := tile;
      this.cache := cache;
      item := null;
      syncStack, addWhenDone := false, false;
      stack := EmptyData;
      id, dirs, flags, progress := 0, 0, 0, 0;
    }

    /** `new PacketItemUpdate(part, item, syncStack)` on the sending side. */
    constructor ForItem(tile: TileEntity, item: PipeItem, syncStack: bool, cache: ItemIdCache)
      ensures this.tile == tile && this.item == item && this.syncStack == syncStack && this.cache == cache
      ensures !addWhenDone
    {
      this.tile := tile;
      this.cache := cache;
      this.item := item;
      this.syncStack := syncStack;
      addWhenDone := false;
      stack := EmptyData;
      id, dirs, flags, progress := 0, 0, 0, 0;
    }

    /** The target as a pipe, or null when it is absent or not a pipe. */
    function Target(): TilePipe?
    {
      if tile.Pipe? then tile.pipe else null
    }

    /** The live cache entry for this packet's id, if any. */
    function Cached(): PipeItem?
      reads this, cache
    {
      Lookup(cache.entries, id)
    }

    /** The cache yields an item that fails the owner checks. */
    ghost predicate StaleHit()
      reads this, cache, if Cached() != null then {Cached().owner} else {}
    {
      Cached() != null && IsStale(Cached(), tile)
    }

    /** The cache yields an item that passes the owner checks. */
    ghost predicate ValidHit()
      reads this, cache, if Cached() != null then {Cached().owner} else {}
    {
      Cached() != null && !IsStale(Cached(), tile)
    }

    /** The resolution rules, evaluated on the state before `apply`. */
    ghost function Expected(): Resolution
      reads this, cache, if Cached() != null then {Cached().owner} else {}
      reads if tile.Pipe? then {tile.pipe} else {}
    {
      if ValidHit() then FromCache
      else if tile.NoTile? then NoPipe
      else if tile.OtherTile? then Aborted
      else if HasId(tile.pipe.items, id) then FromPipe
      else if syncStack then Created
      else Dropped
    }

    /**
     * `writeItemData`: the id as a short, the packed directions, the flags,
     * the progress byte, and the item's stack only when `syncStack` is set.
     */
    method WriteItemData(buf: ByteBuf)
      requires item != null
      modifies buf`data
      ensures buf.data == old(buf.data) + EncodeItemData(item.id, item.input, item.output, item.reachedCenter,
                                                          item.IsStuck(), syncStack, item.progress, item.stack)
    {
      buf.WriteShort(item.id);
      buf.WriteByte(PackDirections(item.input, item.output));
      buf.WriteByte(PackFlags(item.reachedCenter, item.IsStuck(), syncStack));
      buf.WriteByte(item.progress);
      if syncStack {
        buf.WriteItemStack(item.stack);
      }
    }

    /** The id, direction, flags and progress reads at the start of `readItemData`. */
    method ReadHeader(buf: ByteBuf) returns (h: Option<ItemFields>)
      requires buf.Valid()
      modifies buf`readerIndex
      ensures buf.Valid()
      ensures h == DecodeHeader(old(buf.Unread()))
      ensures h.Some? ==> buf.readerIndex == old(buf.readerIndex) + 5
    {
      ghost var u := buf.Unread();
      var s := buf.ReadShort();
      if s.None? {
        return None;
      }
      var d := buf.ReadUnsignedByte();
      if d.None? {
        return None;
      }
      var f := buf.ReadUnsignedByte();
      if f.None? {
        return None;
      }
      var p := buf.ReadUnsignedByte();
      if p.None? {
        return None;
      }
      return Some(ItemFields(s.value, d.value, f.value, p.value, None));
    }

    /**
     * `readItemData`: nothing is read unless the target is a pipe; otherwise
     * the fields are those the decoder finds, the stack is read exactly when
     * flag bit 2 says so, and the cursor moves past what was read.
     */
    method ReadItemData(buf: ByteBuf) returns (outcome: ReadOutcome)
      requires buf.Valid()
      modifies this`id, this`dirs, this`flags, this`progress, this`addWhenDone, this`syncStack, this`stack
      modifies buf`readerIndex
      ensures buf.Valid()
      ensures !tile.Pipe? ==> outcome.Skipped? && unchanged(this) && unchanged(buf)
      ensures tile.Pipe? && DecodeItemData(old(buf.Unread())).None? ==> outcome.Malformed?
      ensures tile.Pipe? && DecodeItemData(old(buf.Unread())).Some? ==>
        var (f, n) := DecodeItemData(old(buf.Unread())).value;
        && outcome.Read?
        && id == f.id && dirs == f.dirs && flags == f.flags && progress == f.progress
        && !addWhenDone
        && syncStack == f.stack.Some?
        && stack == (if syncStack then f.stack.value else old(stack))
        && buf.readerIndex == old(buf.readerIndex) + n
    {
      if !tile.Pipe? {
        return Skipped;
      }
      var h := ReadHeader(buf);
      if h.None? {
        return Malformed;
      }
      id, dirs, flags, progress := h.value.id, h.value.dirs, h.value.flags, h.value.progress;
      addWhenDone := false;
      syncStack := FlagSet(flags, SyncStackBit);
      if syncStack {
        var st := buf.ReadItemStack();
        if st.None? {
          return Malformed;
        }
        stack := st.value;
      }
      return Read;
    }
    /**
     * The first step of `apply`: the cache entry for `id`, if live and still
     * owned by the target pipe; a stale one is taken off its owner and evicted.
     */
    method ResolveFromCache() returns (c: PipeItem?)
      modifies cache
      modifies if Cached() != null then {Cached().owner} else {}
      ensures c == if old(ValidHit()) then old(Cached()) else null
      ensures old(StaleHit()) ==> cache.entries == old(cache.entries) - {id}
      ensures old(StaleHit()) ==> old(Cached().owner).items == Without(old(Cached().owner.items), old(Cached()))
      ensures !old(StaleHit()) ==> cache.entries == old(cache.entries)
      ensures !old(StaleHit()) && old(Cached()) != null ==> unchanged(old(Cached().owner))
    {
      c := Lookup(cache.entries, id);
      if c != null && (tile != Pipe(c.owner) || c !in c.owner.items) {
        c.owner.RemoveItemClientSide(c);
        cache.entries := cache.entries - {id};
        c := null;
      }
    }

    /**
     * Steps 1-3 of `apply`: the replica the update is for, found in the
     * cache, found in the pipe, or created when a stack was sent.
     */
    method Resolve() returns (res: Resolution)
      modifies this`item, this`addWhenDone, cache
      modifies if Cached() != null then {Cached().owner} else {}
      ensures res == old(Expected())
      ensures res.Resolved() <==> item != null
      ensures old(StaleHit()) ==> cache.entries == old(cache.entries) - {id}
      ensures old(StaleHit()) ==> old(Cached().owner).items == Without(old(Cached().owner.items), old(Cached()))
      ensures !old(StaleHit()) ==> cache.entries == old(cache.entries)
      ensures Target() != null ==> Target().items == old(Target().items)
      ensures res.FromCache? ==> item == old(Cached()) && Target() != null && item in Target().items
      ensures res.FromPipe? ==> Target() != null && item in Target().items && item.id == id
      ensures res.Created? ==> item != null && fresh(item) && item.id == id && item.owner == Target()
      ensures res.Created? ==> Target() != null && !HasId(Target().items, id)
      ensures addWhenDone == (old(addWhenDone) || res.Created?)
    {
      ghost var stale := StaleHit();
      ghost var owner := if Cached() != null then Cached().owner else null;
      ghost var ownerItems := if owner != null then owner.items else [];
      item := ResolveFromCache();
      if stale && owner == Target() {
        assert Target().items == Without(ownerItems, old(Cached()));
      }
      if item != null {
        return FromCache;
      }
      if tile.NoTile? {
        return NoPipe;
      } else if tile.OtherTile? {
        return Aborted;
      }
      item := tile.pipe.GetItemByID(id);
      if item != null {
        return FromPipe;
      }
      if syncStack {
        item := new PipeItem(tile.pipe, id);
        addWhenDone := true;
        return Created;
      }
      return Dropped;
    }

    /** The field updates of `apply` on the resolved replica `it`. */
    method Overwrite(it: PipeItem)
      modifies it`input, it`output, it`reachedCenter, it`blocksSinceSync, it`progress, it`stuck, it`stack
      ensures it.input == InputOf(dirs) && it.output == OutputOf(dirs)
      ensures it.reachedCenter == FlagSet(flags, ReachedCenterBit)
      ensures it.stuck == FlagSet(flags, StuckBit)
      ensures it.blocksSinceSync == 0
      ensures it.progress == if addWhenDone then progress else old(it.progress)
      ensures it.stack == if syncStack then stack else old(it.stack)
    {
      it.input := InputOf(dirs);
      it.output := OutputOf(dirs);
      it.reachedCenter := FlagSet(flags, ReachedCenterBit);
      it.blocksSinceSync := 0;
      if addWhenDone {
        it.progress := progress;
      }
      var stuck := FlagSet(flags, StuckBit);
      it.SetStuckFlagClient(stuck);
      if syncStack {
        it.stack := stack;
      }
    }

    /**
     * The last steps of `apply` on the resolved replica: overwrite its
     * movement state, register it in the cache, and add it to the pipe when
     * it was created by this update.
     */
    method Register()
      requires item != null && Target() != null
      modifies item`input, item`output, item`reachedCenter, item`blocksSinceSync, item`progress, item`stuck, item`stack
      modifies cache, Target()`items
      ensures item.input == InputOf(dirs) && item.output == OutputOf(dirs)
      ensures item.reachedCenter == FlagSet(flags, ReachedCenterBit)
      ensures item.stuck == FlagSet(flags, StuckBit)
      ensures item.blocksSinceSync == 0
      ensures item.progress == if addWhenDone then progress else old(item.progress)
      ensures item.stack == if syncStack then stack else old(item.stack)
      ensures cache.entries == old(cache.entries)[id := Live(item)]
      ensures Target().items == if addWhenDone && item !in old(Target().items) then old(Target().items) + [item]
                                else old(Target().items)
      ensures old(UniqueIds(Target().items)) && (addWhenDone ==> !HasId(old(Target().items), item.id)) ==>
        UniqueIds(Target().items)
      ensures old(OwnsItems(Target())) && item.owner == Target() ==> OwnsItems(Target())
    {
      ghost var before := Target().items;
      Overwrite(item);
      cache.entries := cache.entries[id := Live(item)];
      if addWhenDone {
        Target().AddItemClientSide(item);
        if UniqueIds(before) && !HasId(before, item.id) {
          AppendUnique(before, item);
        }
      }
    }

    /**
     * `apply`: resolves the update to a replica through the cache, then the
     * pipe, then by creating one when a stack was sent (otherwise the update
     * is dropped), evicting a stale cache entry on the way; overwrites the
     * replica's movement state, registers it in the cache, and adds a new
     * replica to the pipe last.
     */
    method Apply() returns (res: Resolution)
      modifies this`item, this`addWhenDone, cache
      modifies if Cached() != null then {Cached().owner} else {}
      modifies if tile.Pipe? then {tile.pipe} else {}
      modifies if tile.Pipe? then set it: PipeItem | it in tile.pipe.items else {}
      // which rule applied
      ensures res == old(Expected())
      // a stale entry is evicted and its item taken off its owner
      ensures old(StaleHit()) ==> old(Cached()) !in old(Cached().owner).items
      ensures old(StaleHit()) && old(Cached().owner) != Target() ==>
        old(Cached().owner).items == Without(old(Cached().owner.items), old(Cached()))
      ensures !res.Resolved() ==>
        cache.entries == if old(StaleHit()) then old(cache.entries) - {id} else old(cache.entries)
      ensures !res.Resolved() ==> item == null && addWhenDone == old(addWhenDone)
      // the replica the update resolved to
      ensures res.FromCache? ==> item == old(Cached()) && Target() != null && item in old(Target().items)
      ensures res.FromPipe? ==> Target() != null && item in old(Target().items) && item.id == id
      ensures res.Created? ==> item != null && fresh(item) && item.id == id && item.owner == Target()
      ensures res.Resolved() && old(StaleHit()) && Target() != null && old(OwnsItems(Target())) ==>
        item != old(Cached())
      // its new state
      ensures res.Resolved() ==>
        && item != null
        && item.input == InputOf(dirs) && item.output == OutputOf(dirs)
        && item.reachedCenter == FlagSet(flags, ReachedCenterBit)
        && item.stuck == FlagSet(flags, StuckBit)
        && item.blocksSinceSync == 0
        && (syncStack ==> item.stack == stack)
        && cache.entries == old(cache.entries)[id := Live(item)]
      ensures res.Created? ==> item != null && item.progress == progress && addWhenDone
      ensures res.FromCache? || res.FromPipe? ==> var it := item;
        && it != null && Target() != null && it in old(Target().items)
        && it.progress == (if old(addWhenDone) then progress else old(it.progress))
        && (!syncStack ==> it.stack == old(it.stack))
        && addWhenDone == old(addWhenDone)
      // the target pipe gains the new replica and nothing else
      ensures Target() != null ==> Target().items == old(Target().items) + (if res.Created? then [item] else [])
      ensures Target() != null && old(UniqueIds(Target().items)) ==> UniqueIds(Target().items)
      ensures Target() != null ==> forall it | it in old(Target().items) && it != item :: unchanged(it)
      ensures old(StaleHit()) && old(UniqueIds(Cached().owner.items)) ==> UniqueIds(old(Cached().owner).items)
      // afterwards the cache entry names an item that the target pipe lists and owns
      ensures Target() != null && old(OwnsItems(Target())) ==>
        OwnsItems(Target()) && (res.Resolved() ==> item.owner == Target())
    {
      ghost var entries := cache.entries;
      res := Resolve();
      if !res.Resolved() {
        return;
      }
      RegisterAfterEviction(entries, id, Live(item));
      Register();
    }
  }
}
