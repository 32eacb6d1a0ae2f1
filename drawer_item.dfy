/**
 * The data side of the abstract drawer item: the state a navigation-drawer
 * list item carries, its fluent `with*` setters, the three ways of attaching
 * sub-items (which differ in whether they stamp the children's `parent`), and
 * the identity operations (numeric and structural equality, hash).
 *
 * One `DrawerItem` object stands for one item. Its `kind` is the concrete
 * runtime class of the item (`javaClass`), fixed when it is created. The
 * sub-item list is a sequence value, so a list the item has stored cannot
 * change behind its back.
 */
module DrawerItems {
  import opened Wrappers
  import opened JvmIntegers

  /** A foreign object the item stores but never looks into: the tag and the listeners. */
  datatype Handle = Handle(ref: nat)

  /** A snapshot of every mutable field of an item, for "nothing else changes" contracts. */
  datatype ItemState = ItemState(
    identifier: Long,
    tag: Option<Handle>,
    isEnabled: bool,
    isSelected: bool,
    isSelectable: bool,
    isSelectedBackgroundAnimated: bool,
    contentDescription: Option<string>,
    onDrawerItemClickListener: Option<Handle>,
    onPostBindViewListener: Option<Handle>,
    parent: DrawerItem?,
    subItems: Option<seq<DrawerItem>>,
    isExpanded: bool)

  /** The children held by an optional list: none when there is no list. */
  function Children(items: Option<seq<DrawerItem>>): seq<DrawerItem> {
    items.GetOr([])
  }

  class DrawerItem {
    /** The concrete class of the item; equality compares it. */
    const kind: string

    var identifier: Long
    var tag: Option<Handle>
    var isEnabled: bool
    var isSelected: bool
    var isSelectable: bool
    var isSelectedBackgroundAnimated: bool
    var contentDescription: Option<string>
    var onDrawerItemClickListener: Option<Handle>
    var onPostBindViewListener: Option<Handle>
    /** The enclosing item; not owned, and nothing keeps the parent links acyclic. */
    var parent: DrawerItem?
    /** The backing field of the `subItems` property (`mSubItems`). */
    var subItems: Option<seq<DrawerItem>>
    var isExpanded: bool

    ghost function State(): ItemState
      reads this
    {
      ItemState(identifier, tag, isEnabled, isSelected, isSelectable,
                isSelectedBackgroundAnimated, contentDescription,
                onDrawerItemClickListener, onPostBindViewListener,
                parent, subItems, isExpanded)
    }

    /** A new item of the given concrete class, with every field at its default. */
    constructor (kind: string)
      ensures this.kind == kind
      ensures identifier == MINUS_ONE
      ensures tag == None
      ensures isEnabled && !isSelected && isSelectable && isSelectedBackgroundAnimated
      ensures contentDescription == None
      ensures onDrawerItemClickListener == None && onPostBindViewListener == None
      ensures parent == null && subItems == None
      ensures !isExpanded
      ensures IsAutoExpanding()
    {
      this.kind := kind;
      identifier := MINUS_ONE;
      tag := None;
      isEnabled := true;
      isSelected := false;
      isSelectable := true;
      isSelectedBackgroundAnimated := true;
      contentDescription := None;
      onDrawerItemClickListener := None;
      onPostBindViewListener := None;
      parent := null;
      subItems := None;
      isExpanded := false;
    }

    /** The base class always asks the adapter to expand the item on click. */
    function IsAutoExpanding(): (b: bool)
      ensures b
    {
      true
    }

    method WithIdentifier(id: Long) returns (r: DrawerItem)
      modifies this`identifier
      ensures r == this
      ensures State() == old(State()).(identifier := id)
    {
      identifier := id;
      r := this;
    }

    method WithTag(t: Handle) returns (r: DrawerItem)
      modifies this`tag
      ensures r == this
      ensures State() == old(State()).(tag := Some(t))
    {
      tag := Some(t);
      r := this;
    }

    method WithEnabled(enabled: bool) returns (r: DrawerItem)
      modifies this`isEnabled
      ensures r == this
      ensures State() == old(State()).(isEnabled := enabled)
    {
      isEnabled := enabled;
      r := this;
    }

    method WithSelected(selected: bool) returns (r: DrawerItem)
      modifies this`isSelected
      ensures r == this
      ensures State() == old(State()).(isSelected := selected)
    {
      isSelected := selected;
      r := this;
    }

    method WithSelectable(selectable: bool) returns (r: DrawerItem)
      modifies this`isSelectable
      ensures r == this
      ensures State() == old(State()).(isSelectable := selectable)
    {
      isSelectable := selectable;
      r := this;
    }

    /** Takes an optional description: passing none clears it. */
    method WithContentDescription(description: Option<string>) returns (r: DrawerItem)
      modifies this`contentDescription
      ensures r == this
      ensures State() == old(State()).(contentDescription := description)
    {
      contentDescription := description;
      r := this;
    }

    method WithSelectedBackgroundAnimated(animated: bool) returns (r: DrawerItem)
      modifies this`isSelectedBackgroundAnimated
      ensures r == this
      ensures State() == old(State()).(isSelectedBackgroundAnimated := animated)
    {
      isSelectedBackgroundAnimated := animated;
      r := this;
    }

    method WithOnDrawerItemClickListener(listener: Handle) returns (r: DrawerItem)
      modifies this`onDrawerItemClickListener
      ensures r == this
      ensures State() == old(State()).(onDrawerItemClickListener := Some(listener))
    {
      onDrawerItemClickListener := Some(listener);
      r := this;
    }

    method WithPostOnBindViewListener(listener: Handle) returns (r: DrawerItem)
      modifies this`onPostBindViewListener
      ensures r == this
      ensures State() == old(State()).(onPostBindViewListener := Some(listener))
    {
      onPostBindViewListener := Some(listener);
      r := this;
    }

    /** Sets the parent link only; the parent's own sub-items are not touched. */
    method WithParent(p: DrawerItem) returns (r: DrawerItem)
      modifies this`parent
      ensures r == this
      ensures State() == old(State()).(parent := p)
    {
      parent := p;
      r := this;
    }

    method WithSetExpanded(expanded: bool) returns (r: DrawerItem)
      modifies this`isExpanded
      ensures r == this
      ensures State() == old(State()).(isExpanded := expanded)
    {
      isExpanded := expanded;
      r := this;
    }

    /**
     * Assignment to the `subItems` property: stores the list, then makes this
     * item the parent of every child in it. Assigning no list stamps nothing.
     * The item may be among its own children; then it becomes its own parent.
     * The frame lets nothing else change, in this item or in any other.
     */
    method AssignSubItems(items: Option<seq<DrawerItem>>)
      modifies this`subItems, Children(items)`parent
      ensures State() == old(State()).(
        subItems := items,
        parent := if this in Children(items) then this else old(parent))
      ensures forall c :: c in Children(items) ==> c.parent == this
    {
      subItems := items;
      var children := Children(items);
      for i := 0 to |children|
        invariant subItems == items
        invariant forall c :: c in children[..i] ==> c.parent == this
        invariant forall c :: c in children && c !in children[..i] ==> c.parent == old(c.parent)
      {
        children[i].parent := this;
      }
      assert children[..|children|] == children;
    }

    /**
     * `withSubItems(list)`: writes the backing field directly, bypassing the
     * property setter, so no child's `parent` changes.
     */
    method WithSubItemsList(items: seq<DrawerItem>) returns (r: DrawerItem)
      modifies this`subItems
      ensures r == this
      ensures State() == old(State()).(subItems := Some(items))
    {
      subItems := Some(items);
      r := this;
    }

    /**
     * `setSubItems(vararg)`: makes this item the parent of each new child, then
     * replaces the list by a copy of the current children (none if there was
     * no list) followed by the new ones in argument order. Children that were
     * already held are not stamped again, and the frame lets nothing else change.
     */
    method SetSubItems(added: seq<DrawerItem>)
      modifies this`subItems, added`parent
      ensures State() == old(State()).(
        subItems := Some(Children(old(subItems)) + added),
        parent := if this in added then this else old(parent))
      ensures forall c :: c in added ==> c.parent == this
      ensures forall c :: c in Children(old(subItems)) && c !in added ==>
        c.parent == old(c.parent)
    {
      if subItems.None? {
        subItems := Some([]);
      }
      for i := 0 to |added|
        invariant subItems == Some(Children(old(subItems)))
        invariant forall c :: c in added[..i] ==> c.parent == this
        invariant forall c :: c in added && c !in added[..i] ==> c.parent == old(c.parent)
      {
        added[i].parent := this;
      }
      assert added[..|added|] == added;
      var current := subItems.value + added;
      subItems := Some(current);
    }

    /** `withSubItems(vararg)`: the same as `SetSubItems`, returning this item. */
    method WithSubItems(added: seq<DrawerItem>) returns (r: DrawerItem)
      modifies this`subItems, added`parent
      ensures r == this
      ensures State() == old(State()).(
        subItems := Some(Children(old(subItems)) + added),
        parent := if this in added then this else old(parent))
      ensures forall c :: c in added ==> c.parent == this
      ensures forall c :: c in Children(old(subItems)) && c !in added ==>
        c.parent == old(c.parent)
    {
      SetSubItems(added);
      r := this;
    }

    /** `equals(id: Long)`: the item's identifier is the given number. */
    function EqualsLong(id: Long): (r: bool)
      reads this
      ensures r <==> LongValue(id) == LongValue(identifier)
    {
      LongValueIsInjective(id, identifier);
      id == identifier
    }

    /** `equals(id: Int)`: the identifier is the given `Int` widened to a `Long`. */
    function EqualsInt(id: Int): (r: bool)
      reads this
      ensures r <==> IntValue(id) == LongValue(identifier)
      ensures r <==> EqualsLong(IntToLong(id))
    {
      IntToLongKeepsValue(id);
      EqualsLong(IntToLong(id))
    }

    /**
     * `equals(other: Any?)`: the same object, or an object of the same
     * concrete class with the same identifier. Objects of other classes,
     * drawer items or not, are modelled as items of another `kind`.
     */
    function Equals(other: DrawerItem?): (r: bool)
      reads this, other
      ensures other == this ==> r
      ensures other == null ==> !r
      ensures other != null && other.kind != kind ==> !r
      ensures other != null && other.kind == kind ==> (r <==> other.identifier == identifier)
    {
      if this == other then true
      else if other == null || kind != other.kind then false
      else identifier == other.identifier
    }

    /**
     * `hashCode`: `Long.hashCode` of the identifier. An identifier that is an
     * `Int` widened hashes to that `Int` when it is non-negative and to its
     * bitwise complement when it is negative.
     */
    function HashCode(): (h: Int)
      reads this
      ensures identifier == IntToLong(Low32(identifier)) ==>
        h == if Low32(identifier) < 0x8000_0000 then Low32(identifier) else !Low32(identifier)
    {
      LongHashCodeOfInt(Low32(identifier));
      LongHashCode(identifier)
    }
  }

  lemma EqualsIsReflexive(a: DrawerItem)
    ensures a.Equals(a)
  {
  }

  lemma EqualsIsSymmetric(a: DrawerItem, b: DrawerItem)
    ensures a.Equals(b) <==> b.Equals(a)
  {
  }

  lemma EqualsIsTransitive(a: DrawerItem, b: DrawerItem, c: DrawerItem)
    requires a.Equals(b) && b.Equals(c)
    ensures a.Equals(c)
  {
  }

  /** Between objects of one class, structural equality is equality with the other's identifier. */
  lemma EqualsMatchesEqualsLong(a: DrawerItem, b: DrawerItem)
    requires a.kind == b.kind
    ensures a.Equals(b) <==> a.EqualsLong(b.identifier)
  {
  }

  /** The hash reads nothing but the identifier. */
  lemma HashCodeDependsOnlyOnIdentifier(a: DrawerItem, b: DrawerItem)
    requires a.identifier == b.identifier
    ensures a.HashCode() == b.HashCode()
  {
  }

  lemma EqualItemsHaveEqualHashes(a: DrawerItem, b: DrawerItem)
    requires a.Equals(b)
    ensures a.HashCode() == b.HashCode()
  {
  }

  /** On an identifier that is an `Int` widened, the hash is that `Int` or its complement. */
  lemma HashCodeOfIntIdentifier(a: DrawerItem, i: Int)
    requires a.identifier == IntToLong(i)
    ensures a.HashCode() == if i < 0x8000_0000 then i else !i
  {
    LongHashCodeOfInt(i);
  }

  /**
   * Two items of one class whose identifiers `0` and `2^32 + 1` differ share a
   * hash: equal hashes do not make equal items.
   */
  lemma UnequalItemsMayShareAHash(a: DrawerItem, b: DrawerItem)
    requires a.kind == b.kind && a.identifier == 0 && b.identifier == 0x1_0000_0001
    ensures a.HashCode() == b.HashCode() && !a.Equals(b)
  {
    assert LongHashCode(0) == 0 && LongHashCode(0x1_0000_0001) == 0;
  }

  /** A client comparing two items by identifier. */
  method IdentityExample() {
    var a := new DrawerItem("Primary");
    var b := new DrawerItem("Secondary");
    assert a.HashCode() == 0 by { MinusOneHashesToZero(); }
    var r := a.WithIdentifier(5);
    r := b.WithIdentifier(7);
    assert a.EqualsInt(5) && !a.EqualsInt(7);
    assert b.EqualsInt(7) && !b.EqualsInt(5);
    assert !a.Equals(b);
  }

  /** A client appending children twice through the vararg form. */
  method AppendExample() {
    var root := new DrawerItem("Primary");
    var a := new DrawerItem("Primary");
    var b := new DrawerItem("Secondary");

    var r := root.WithSubItems([a]);
    assert root.State().subItems == root.subItems;
    assert [] + [a] == [a];
    assert root.subItems == Some([a]) && a.parent == root;

    r := root.WithSubItems([b]);
    assert root.State().subItems == root.subItems;
    assert [a] + [b] == [a, b];
    assert root.subItems == Some([a, b]) && b.parent == root;
    assert a.parent == root;
  }

  /** A client showing that only the property setter stamps the children. */
  method StampExample() {
    var a := new DrawerItem("Primary");
    var other := new DrawerItem("Primary");

    var r := other.WithSubItemsList([a]);
    assert other.State().subItems == other.subItems;
    assert other.subItems == Some([a]) && a.parent == null;

    other.AssignSubItems(Some([a]));
    assert a in Children(Some([a]));
    assert a.parent == other;
  }
}
