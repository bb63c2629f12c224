/**
 * Item-stack value predicates (`ItemUtils`): equality under three match
 * flags, merge compatibility, metadata equality, the hash, the first
 * non-empty stack of several, and lazy creation of a stack's tag compound.
 *
 * `ItemStack` is a mutable game object: `getTagCompound` updates its tag in
 * place and `equals` first compares references, so it is a class here.
 * `ItemStack` itself is not part of this model; the few of its queries the
 * utilities call are modelled after the game's definitions (see README).
 */
module ItemUtils {
  import opened Wrappers
  import opened Bits

  /** An item type: its registry id and whether it takes durability damage. */
  datatype Item = Item(id: int, damageable: bool)

  /** An NBT tag compound, compared by value. */
  datatype TagCompound = TagCompound(entries: map<string, int>)

  /** The contents of a stack, as the wire carries them. */
  datatype StackData = StackData(item: Option<Item>, count: int, damage: int, tag: Option<TagCompound>)
  {
    /**
     * `ItemStack.isEmpty()` on these contents: air, a count of zero or less,
     * or a damage value outside -32768..65535.
     */
    predicate IsEmpty()
    {
      item.None? || count <= 0 || damage < -0x8000 || damage > 0xFFFF
    }
  }

  /** The contents of `ItemStack.EMPTY`. */
  const EmptyData := StackData(None, 0, 0, None)

  class ItemStack {
    /** `None` is air: the stack holds no item. */
    var item: Option<Item>
    var count: int
    var damage: int
    /** `None` is a null tag compound. */
    var tag: Option<TagCompound>

    constructor (data: StackData)
      ensures Data() == data
    {
      item := data.item;
      count := data.count;
      damage := data.damage;
      tag := data.tag;
    }

    /** `isEmpty()`, decided by the stack's contents. */
    predicate IsEmpty()
      reads this
    {
      Data().IsEmpty()
    }

    /** `getItem()`: an empty stack reports air. */
    function GetItem(): (r: Option<Item>)
      reads this
      ensures r.None? <==> IsEmpty()
      ensures r.Some? ==> r == item
    {
      if IsEmpty() then None else item
    }

    /** The stack's current contents. */
    function Data(): StackData
      reads this
    {
      StackData(item, count, damage, tag)
    }
  }

  /** `Item.getIdFromItem(stack.getItem())`; air has id 0. */
  function ItemId(stack: ItemStack): int
    reads stack
  {
    match stack.GetItem()
    case None => 0
    case Some(it) => it.id
  }

  /**
   * `ItemStack.areItemStackTagsEqual`: two empty stacks agree; an empty and a
   * non-empty one do not; otherwise the optional compounds must be equal.
   */
  predicate TagsEqual(a: ItemStack, b: ItemStack)
    reads a, b
  {
    if a.IsEmpty() && b.IsEmpty() then true
    else if a.IsEmpty() || b.IsEmpty() then false
    else a.tag == b.tag
  }

  /**
   * `ItemUtils.equals`: the same reference is always equal; an empty source
   * equals only an empty target; otherwise the items must agree, and each
   * match flag adds one more field that must agree.
   */
  function Equals(source: ItemStack, target: ItemStack, matchStackSize: bool, matchDamage: bool, matchNBT: bool): (r: bool)
    reads source, target
    ensures source == target ==> r
    ensures source.IsEmpty() ==> (r <==> target.IsEmpty())
    ensures r && !source.IsEmpty() ==> !target.IsEmpty() && target.item == source.item
    ensures r && matchStackSize && !source.IsEmpty() ==> target.count == source.count
    ensures r && matchDamage && !source.IsEmpty() ==> target.damage == source.damage
    ensures r && matchNBT && !source.IsEmpty() ==> target.tag == source.tag
  {
    if source == target then true
    else if source.IsEmpty() then target.IsEmpty()
    else if source.GetItem() != target.GetItem() then false
    else if matchStackSize && source.count != target.count then false
    else if matchDamage && source.damage != target.damage then false
    else if matchNBT && !TagsEqual(source, target) then false
    else true
  }

  /**
   * The same relation on stack contents alone, with no reference check:
   * both empty, or both non-empty with the same item and every field a
   * flag asks for equal.
   */
  ghost predicate SameContents(s: StackData, t: StackData, matchStackSize: bool, matchDamage: bool, matchNBT: bool)
  {
    if s.IsEmpty() || t.IsEmpty() then
      s.IsEmpty() && t.IsEmpty()
    else
      && s.item == t.item
      && (matchStackSize ==> s.count == t.count)
      && (matchDamage ==> s.damage == t.damage)
      && (matchNBT ==> s.tag == t.tag)
  }

  /** The reference shortcut in `equals` never changes its answer. */
  lemma EqualsByContents(source: ItemStack, target: ItemStack, matchStackSize: bool, matchDamage: bool, matchNBT: bool)
    ensures Equals(source, target, matchStackSize, matchDamage, matchNBT)
        <==> SameContents(source.Data(), target.Data(), matchStackSize, matchDamage, matchNBT)
  {
  }

  /** Each match flag only adds a check: stricter flags give fewer matches. */
  lemma EqualsMonotone(source: ItemStack, target: ItemStack,
                       size: bool, dmg: bool, nbt: bool, size': bool, dmg': bool, nbt': bool)
    requires size' ==> size
    requires dmg' ==> dmg
    requires nbt' ==> nbt
    requires Equals(source, target, size, dmg, nbt)
    ensures Equals(source, target, size', dmg', nbt')
  {
  }

  /** `equals` is symmetric for every choice of flags. */
  lemma EqualsSymmetric(a: ItemStack, b: ItemStack, size: bool, dmg: bool, nbt: bool)
    ensures Equals(a, b, size, dmg, nbt) == Equals(b, a, size, dmg, nbt)
  {
  }

  /** `equals` is transitive for every choice of flags. */
  lemma EqualsTransitive(a: ItemStack, b: ItemStack, c: ItemStack, size: bool, dmg: bool, nbt: bool)
    requires Equals(a, b, size, dmg, nbt) && Equals(b, c, size, dmg, nbt)
    ensures Equals(a, c, size, dmg, nbt)
  {
  }

  /** `canMerge`: stacks that could be combined into one, whatever their sizes. */
  function CanMerge(source: ItemStack, target: ItemStack): (r: bool)
    reads source, target
    ensures r <==> SameContents(source.Data(), target.Data(), false, true, true)
    ensures r <==> Equals(source, target, false, true, true)
  {
    Equals(source, target, false, true, true)
  }

  /**
   * `equalsMeta`: an empty source matches only an empty target; otherwise
   * size and NBT are ignored and damage counts only for items that are not
   * damageable (where damage is a metadata variant).
   */
  function EqualsMeta(source: ItemStack, target: ItemStack): (r: bool)
    reads source, target
    ensures source.IsEmpty() ==> (r <==> target.IsEmpty())
    ensures !source.IsEmpty() ==>
      (r <==> !target.IsEmpty() && target.item == source.item
              && (!source.item.value.damageable ==> target.damage == source.damage))
  {
    if source.IsEmpty() then target.IsEmpty()
    else Equals(source, target, false, !source.GetItem().value.damageable, false)
  }

  /**
   * `ItemUtils.hashCode`: 0 for an empty stack, otherwise the count, item id
   * and damage combined with Java `int` arithmetic, which wraps at each step.
   * The result is the single expression `7 * (31 * count + id) + damage`
   * reduced to 32 bits.
   */
  function HashCode(stack: ItemStack): (h: int32)
    reads stack
    ensures stack.IsEmpty() ==> h == 0
    ensures !stack.IsEmpty() ==> h == Wrap32(7 * (31 * stack.count + ItemId(stack)) + stack.damage)
  {
    if stack.IsEmpty() then 0
    else
      var hash := Wrap32(stack.count);
      var hash := Wrap32(31 * hash + ItemId(stack));
      var hash := Wrap32(7 * hash + stack.damage);
      Wrap32MulAdd(31, stack.count, ItemId(stack));
      Wrap32MulAdd(7, 31 * stack.count + ItemId(stack), stack.damage);
      hash
  }

  /** Stacks that `equals` matches on size and damage hash alike, whatever the NBT flag. */
  lemma HashConsistentWithEquals(a: ItemStack, b: ItemStack, matchNBT: bool)
    requires Equals(a, b, true, true, matchNBT)
    ensures HashCode(a) == HashCode(b)
  {
  }

  /**
   * `firstNonEmpty`: the first non-empty stack in argument order, or the
   * `ItemStack.EMPTY` constant `emptyStack` when every stack is empty.
   */
  method FirstNonEmpty(stacks: seq<ItemStack>, emptyStack: ItemStack) returns (r: ItemStack)
    requires emptyStack.IsEmpty()
    ensures (forall k | 0 <= k < |stacks| :: stacks[k].IsEmpty()) ==> r == emptyStack
    ensures (exists k | 0 <= k < |stacks| :: !stacks[k].IsEmpty()) ==>
      exists k | 0 <= k < |stacks| :: r == stacks[k] && !r.IsEmpty() && forall j | 0 <= j < k :: stacks[j].IsEmpty()
  {
    for i := 0 to |stacks|
      invariant forall j | 0 <= j < i :: stacks[j].IsEmpty()
    {
      if !stacks[i].IsEmpty() {
        return stacks[i];
      }
    }
    return emptyStack;
  }

  /** `hasTagCompound()`: a non-empty stack whose tag is not null. */
  predicate HasTagCompound(stack: ItemStack)
    reads stack
  {
    !stack.IsEmpty() && stack.tag.Some?
  }

  /**
   * `getTagCompound`: with `create` set, a stack that does not have a tag
   * compound (an empty stack counts as having none) gets a fresh empty one;
   * returns the stack's tag field (`None` for null).
   */
  method GetTagCompound(stack: ItemStack, create: bool) returns (r: Option<TagCompound>)
    modifies stack`tag
    ensures create ==> stack.tag.Some? && r == stack.tag
    ensures create && old(HasTagCompound(stack)) ==> stack.tag == old(stack.tag)
    ensures create && !old(HasTagCompound(stack)) ==> stack.tag == Some(TagCompound(map[]))
    ensures !create ==> stack.tag == old(stack.tag) && r == stack.tag
  {
    if create && !HasTagCompound(stack) {
      stack.tag := Some(TagCompound(map[]));
    }
    r := stack.tag;
  }
}
