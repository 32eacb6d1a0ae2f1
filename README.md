# Drawer item model

A Dafny model of the data side of `AbstractDrawerItem`, the base class of the
items in a navigation drawer. Each item carries:

- an identifier, a Kotlin `Long` that defaults to `-1`;
- the flags enabled, selected, selectable and selected-background-animated;
- an optional content description;
- an optional tag and two optional listeners;
- a non-owning `parent` link;
- an optional ordered list of sub-items;
- an expanded flag.

The model covers:

- the defaults of a new item;
- the fluent `with*` setters, each of which assigns one field and returns the same object;
- the three ways of attaching sub-items, which differ in whether they stamp the children's `parent` link;
- the identity operations: equality with a `Long` or an `Int` identifier, structural equality, and the hash.

Files:

- `wrappers.dfy`: `Option`, for Kotlin's nullable values.
- `jvm_integers.dfy`: Kotlin `Long` and `Int` as 64- and 32-bit two's-complement patterns, and the numbers they stand for. It also holds `Int.toLong()` (sign extension) and `java.lang.Long.hashCode`. The Java SE API documents that hash as `(int)(value ^ (value >>> 32))`.
- `drawer_item.dfy`: the class `DrawerItem`, whose fields are updated in place by its methods. The module also holds the lemmas about equality and hashing.

Modelling choices:

- `kind` stands for the item's concrete runtime class (`javaClass`). It is fixed when the item is created.
- Structural equality takes a `DrawerItem?`. An object that is not a drawer item is modelled as an item of another `kind`, which never compares equal.
- `parent` is a `DrawerItem?`. The source allows any parent item. Nothing keeps the parent links acyclic, and the model does not assume it. An item may even be among its own children, and the contracts handle that case.
- Sub-item lists are `seq` values.
- The setters state their new state in two ways. Their `modifies` frame names the only field each one may write. Their `ensures` gives the whole new state as the old snapshot (`State()`) with that one field replaced.
- The sub-item methods frame `this`subItems` and the `parent` field of the children they are given. Nothing else in any object can change.

## Model

| member | source | states |
|---|---|---|
| `DrawerItems.DrawerItem.constructor` | library/src/main/java/com/mikepenz/materialdrawer/model/AbstractDrawerItem.kt:24-70 | A new item has identifier `-1`, no tag, and is enabled, not selected, selectable and background-animated. It has no description, no listeners, no parent, no sub-item list, is not expanded, and is auto-expanding. |
| `DrawerItems.DrawerItem.IsAutoExpanding` | library/src/main/java/com/mikepenz/materialdrawer/model/AbstractDrawerItem.kt:69-70 | The base class always reports auto-expanding. |
| `DrawerItems.DrawerItem.WithIdentifier` | library/src/main/java/com/mikepenz/materialdrawer/model/AbstractDrawerItem.kt:72-75 | Sets only the identifier to the argument and returns the same item. Every other field is unchanged. |
| `DrawerItems.DrawerItem.WithTag` | library/src/main/java/com/mikepenz/materialdrawer/model/AbstractDrawerItem.kt:77-80 | Sets only the tag to the given value and returns the same item. |
| `DrawerItems.DrawerItem.WithEnabled` | library/src/main/java/com/mikepenz/materialdrawer/model/AbstractDrawerItem.kt:82-85 | Sets only the enabled flag and returns the same item. |
| `DrawerItems.DrawerItem.WithSelected` | library/src/main/java/com/mikepenz/materialdrawer/model/AbstractDrawerItem.kt:87-90 | Sets only the selected flag and returns the same item. |
| `DrawerItems.DrawerItem.WithSelectable` | library/src/main/java/com/mikepenz/materialdrawer/model/AbstractDrawerItem.kt:92-95 | Sets only the selectable flag and returns the same item. |
| `DrawerItems.DrawerItem.WithContentDescription` | library/src/main/java/com/mikepenz/materialdrawer/model/AbstractDrawerItem.kt:97-100 | Sets only the description, possibly to none, and returns the same item. |
| `DrawerItems.DrawerItem.WithSelectedBackgroundAnimated` | library/src/main/java/com/mikepenz/materialdrawer/model/AbstractDrawerItem.kt:108-111 | Sets only the background-animation flag and returns the same item. |
| `DrawerItems.DrawerItem.WithOnDrawerItemClickListener` | library/src/main/java/com/mikepenz/materialdrawer/model/AbstractDrawerItem.kt:121-124 | Sets only the click listener and returns the same item. |
| `DrawerItems.DrawerItem.WithPostOnBindViewListener` | library/src/main/java/com/mikepenz/materialdrawer/model/AbstractDrawerItem.kt:132-135 | Sets only the post-bind listener and returns the same item. |
| `DrawerItems.DrawerItem.WithParent` | library/src/main/java/com/mikepenz/materialdrawer/model/AbstractDrawerItem.kt:147-150 | Sets only the parent link and returns the same item. The parent's sub-items are not touched. |
| `DrawerItems.DrawerItem.WithSetExpanded` | library/src/main/java/com/mikepenz/materialdrawer/model/AbstractDrawerItem.kt:182-185 | Sets only the expanded flag and returns the same item. |
| `DrawerItems.DrawerItem.AssignSubItems` | library/src/main/java/com/mikepenz/materialdrawer/model/AbstractDrawerItem.kt:49-59 | The property setter stores the given list, or none. Every child in the list then has this item as parent. Assigning none stamps no child, and no other field of any item changes. |
| `DrawerItems.DrawerItem.WithSubItemsList` | library/src/main/java/com/mikepenz/materialdrawer/model/AbstractDrawerItem.kt:152-155 | Stores the list as given and returns the same item. No child's parent changes, because only this item's list field is in the frame. |
| `DrawerItems.DrawerItem.SetSubItems` | library/src/main/java/com/mikepenz/materialdrawer/model/AbstractDrawerItem.kt:164-175 | Afterwards the list exists and equals the previous children (none if there was no list) followed by the new ones in argument order. Each new child has this item as parent. Previous children that are not passed again keep their parent. |
| `DrawerItems.DrawerItem.WithSubItems` | library/src/main/java/com/mikepenz/materialdrawer/model/AbstractDrawerItem.kt:177-180 | The same effect as `SetSubItems`, and returns the same item. |
| `DrawerItems.DrawerItem.EqualsLong` | library/src/main/java/com/mikepenz/materialdrawer/model/AbstractDrawerItem.kt:282-284 | True iff the given `Long` and the identifier stand for the same number. |
| `DrawerItems.DrawerItem.EqualsInt` | library/src/main/java/com/mikepenz/materialdrawer/model/AbstractDrawerItem.kt:286-288 | True iff the number of the given `Int` equals the number of the identifier. It agrees with `EqualsLong` on the `Int` widened to a `Long`. |
| `DrawerItems.DrawerItem.Equals` | library/src/main/java/com/mikepenz/materialdrawer/model/AbstractDrawerItem.kt:296-301 | True for the same object. False for none, or for an object of another concrete class even when the identifiers match. Otherwise true iff the identifiers are equal. |
| `DrawerItems.DrawerItem.HashCode` | library/src/main/java/com/mikepenz/materialdrawer/model/AbstractDrawerItem.kt:308-310 | `java.lang.Long.hashCode` of the identifier: an identifier that is a widened `Int` hashes to that `Int` when non-negative and to its complement when negative. Its other properties are `HashCodeDependsOnlyOnIdentifier`, `EqualItemsHaveEqualHashes` and `UnequalItemsMayShareAHash`. |
| `DrawerItems.EqualsIsReflexive` | library/src/main/java/com/mikepenz/materialdrawer/model/AbstractDrawerItem.kt:296-301 | Every item equals itself. |
| `DrawerItems.EqualsIsSymmetric` | library/src/main/java/com/mikepenz/materialdrawer/model/AbstractDrawerItem.kt:296-301 | `a` equals `b` iff `b` equals `a`. |
| `DrawerItems.EqualsIsTransitive` | library/src/main/java/com/mikepenz/materialdrawer/model/AbstractDrawerItem.kt:296-301 | Equality is transitive. |
| `DrawerItems.EqualsMatchesEqualsLong` | library/src/main/java/com/mikepenz/materialdrawer/model/AbstractDrawerItem.kt:282-301 | Between items of one concrete class, structural equality is numeric equality with the other item's identifier. |
| `DrawerItems.HashCodeDependsOnlyOnIdentifier` | library/src/main/java/com/mikepenz/materialdrawer/model/AbstractDrawerItem.kt:308-310 | Items with the same identifier have the same hash, whatever their other fields or class. |
| `DrawerItems.EqualItemsHaveEqualHashes` | library/src/main/java/com/mikepenz/materialdrawer/model/AbstractDrawerItem.kt:296-310 | Equal items have equal hashes. |
| `DrawerItems.UnequalItemsMayShareAHash` | library/src/main/java/com/mikepenz/materialdrawer/model/AbstractDrawerItem.kt:296-310 | Two items of one class with identifiers `0` and `2^32 + 1` have equal hashes but are not equal: the hash does not decide equality. |
| `DrawerItems.HashCodeOfIntIdentifier` | library/src/main/java/com/mikepenz/materialdrawer/model/AbstractDrawerItem.kt:308-310 | When the identifier is an `Int` widened to a `Long`, the hash is that `Int` if it is non-negative and its bitwise complement if it is negative. |
| `JvmIntegers.LongValueIsInjective` | library/src/main/java/com/mikepenz/materialdrawer/model/AbstractDrawerItem.kt:282-284 | Two `Long` patterns are equal iff the numbers they stand for are equal, so comparing patterns is comparing values. |
| `JvmIntegers.IntToLongKeepsValue` | library/src/main/java/com/mikepenz/materialdrawer/model/AbstractDrawerItem.kt:286-288 | `Int.toLong()` (sign extension) keeps the numeric value. |
| `JvmIntegers.LongHashCodeOfInt` | library/src/main/java/com/mikepenz/materialdrawer/model/AbstractDrawerItem.kt:308-310 | On the range of `Int`, `Long.hashCode` is the value itself when non-negative and its bitwise complement when negative. |
| `JvmIntegers.LongHashCodeIsNotInjective` | library/src/main/java/com/mikepenz/materialdrawer/model/AbstractDrawerItem.kt:308-310 | The hash does not determine the identifier: two different `Long`s (`0` and `2^32 + 1`) hash alike, so equal hashes do not imply equal items. |
| `JvmIntegers.MinusOneHashesToZero` | library/src/main/java/com/mikepenz/materialdrawer/model/AbstractDrawerItem.kt:24 | The default identifier pattern stands for `-1` and hashes to `0`. |

## Left out

- View generation and view holders (`generateView`, both `getViewHolder`s): they inflate Android layout resources.
- `bindView`, `unbindView`, `attachToWindow`, `detachFromWindow` and `failedToRecycle`. They act on Android views or are empty hooks, and `failedToRecycle` returns a constant `false`.
- `onPostBindView`: it only forwards to a foreign listener. The listeners and the tag are opaque `Handle`s that the setters store and nothing reads.
- Subclass overrides: every `open` or `override` member of the class can be redefined by a subclass. That includes the properties `identifier`, `tag`, `isEnabled`, `isSelected`, `isSelectable`, `parent`, `subItems`, `isExpanded` and `onDrawerItemClickListener`. It also includes `isAutoExpanding`, `withSelectable`, `withContentDescription`, `withOnDrawerItemClickListener`, `equals` and `hashCode`. The model is the base class's behaviour: every property is a plain field and every method is the one defined here.
- AssignSubItems, SetSubItems and WithSubItems: children and parents are modelled as base-class drawer items. In the source a child is any `ISubItem` and a parent any `IParentItem`. Stamping a child (`subItem.parent = this`) is modelled as a plain write of its `parent` field. In the source that line calls the child's `parent` setter, which another item type may override. The contracts that every child's parent is this item, and that nothing else changes, hold for children whose `parent` is the base class's plain property.
- The self-type parameter `T` and the `this as T` casts: each setter returns the same object.
- List identity: sub-item lists are values. A list that a caller passes to `withSubItems(list)` and then mutates is shared with the item in the source; the model does not capture that aliasing. The copy that `setSubItems` makes before appending is what the value semantics gives.
- `withSubItems(list)` (line 153) writes `mSubItems` directly and stamps no child's parent. The `subItems` property setter (lines 51-58) stamps every child. The model follows the code.

## Findings

None.
