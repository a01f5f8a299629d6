/** The item records the inventory service writes and the item queries it runs. */
module InventoryService {
  import opened Wrappers
  import opened Text
  import opened Records

  /** What a caller hands to `create`. The prices and the photo may come under
      either of two keys: the camel-case one (`purchasePrice`) or the stored
      field's own name (`purchase_price`, here `purchasePriceField`). */
  datatype ItemDraft = ItemDraft(
    name: string,
    sku: string,
    category: string,
    size: string,
    color: string,
    brand: string,
    purchasePrice: Option<int>,
    purchasePriceField: Option<int>,
    rentalPrice: Option<int>,
    rentalPriceField: Option<int>,
    status: Option<ItemStatus>,
    condition: Option<Condition>,
    photoUrl: Option<string>,
    photoUrlField: Option<string>)

  /** `a || b || 0` on numbers: a missing value and 0 both fall through. */
  function PriceOr(a: Option<int>, b: Option<int>): (v: int)
    ensures v != 0 ==> (a.Some? && v == a.value) || (b.Some? && v == b.value)
    ensures a.Some? && a.value != 0 ==> v == a.value
    ensures (a.None? || a.value == 0) && b.Some? ==> v == b.value
  {
    if a.Some? && a.value != 0 then a.value else if b.Some? && b.value != 0 then b.value else 0
  }

  /** `a || b || ''` on strings. */
  function UrlOr(a: Option<string>, b: Option<string>): (v: string)
    ensures v != "" ==> (a.Some? && v == a.value) || (b.Some? && v == b.value)
    ensures a.Some? && a.value != "" ==> v == a.value
  {
    if a.Some? && a.value != "" then a.value else if b.Some? && b.value != "" then b.value else ""
  }

  /** `status || 'available'`: a missing or empty status means available. */
  function StatusOr(s: Option<ItemStatus>): (v: ItemStatus)
    ensures StatusText(v) != ""
    ensures s.Some? && StatusText(s.value) != "" ==> v == s.value
  {
    if s.Some? && StatusText(s.value) != "" then s.value else Available
  }

  /** The record `create` stores for a draft under a fresh id at time `now`. */
  function NewItem(id: int, d: ItemDraft, now: int): (i: Item)
    ensures i.id == id && i.dateAdded == now
    ensures i.name == d.name && i.sku == d.sku && i.category == d.category
    ensures i.size == d.size && i.color == d.color && i.brand == d.brand
    ensures i.status == StatusOr(d.status)
    ensures d.status.None? ==> i.status == Available
    ensures d.condition.Some? ==> i.condition == d.condition.value
    ensures d.condition.None? ==> i.condition == Excellent
    ensures i.rentalPrice == PriceOr(d.rentalPrice, d.rentalPriceField)
    ensures i.purchasePrice == PriceOr(d.purchasePrice, d.purchasePriceField)
    ensures i.photoUrl == UrlOr(d.photoUrl, d.photoUrlField)
  {
    Item(id, d.name, d.sku, d.category, d.size, d.color, d.brand,
         PriceOr(d.purchasePrice, d.purchasePriceField), PriceOr(d.rentalPrice, d.rentalPriceField),
         StatusOr(d.status), d.condition.GetOr(Excellent), UrlOr(d.photoUrl, d.photoUrlField), now)
  }

  /** A draft that names no price under either key is stored with price 0. */
  lemma DraftWithoutPriceStoresZero(id: int, d: ItemDraft, now: int)
    requires d.rentalPrice.None? && d.rentalPriceField.None?
    ensures NewItem(id, d, now).rentalPrice == 0
  {
  }

  /** The fields `update` is given; `None` is a field left undefined. */
  datatype ItemPatch = ItemPatch(
    name: Option<string>,
    sku: Option<string>,
    category: Option<string>,
    size: Option<string>,
    color: Option<string>,
    brand: Option<string>,
    purchasePrice: Option<int>,
    rentalPrice: Option<int>,
    status: Option<ItemStatus>,
    condition: Option<Condition>,
    photoUrl: Option<string>)

  const NoItemChanges := ItemPatch(None, None, None, None, None, None, None, None, None, None, None)

  /** A patch that sets only the status and the condition. */
  function StatusAndCondition(s: ItemStatus, c: Condition): ItemPatch {
    NoItemChanges.(status := Some(s), condition := Some(c))
  }

  /** The stored item after `update`: each supplied field replaces the stored one. */
  function ApplyItemPatch(i: Item, p: ItemPatch): (i': Item)
    ensures i'.id == i.id && i'.dateAdded == i.dateAdded
    ensures Merged(p.name, i.name, i'.name) && Merged(p.sku, i.sku, i'.sku)
    ensures Merged(p.category, i.category, i'.category) && Merged(p.size, i.size, i'.size)
    ensures Merged(p.color, i.color, i'.color) && Merged(p.brand, i.brand, i'.brand)
    ensures Merged(p.purchasePrice, i.purchasePrice, i'.purchasePrice)
    ensures Merged(p.rentalPrice, i.rentalPrice, i'.rentalPrice)
    ensures Merged(p.status, i.status, i'.status) && Merged(p.condition, i.condition, i'.condition)
    ensures Merged(p.photoUrl, i.photoUrl, i'.photoUrl)
  {
    Item(i.id, p.name.GetOr(i.name), p.sku.GetOr(i.sku), p.category.GetOr(i.category),
         p.size.GetOr(i.size), p.color.GetOr(i.color), p.brand.GetOr(i.brand),
         p.purchasePrice.GetOr(i.purchasePrice), p.rentalPrice.GetOr(i.rentalPrice),
         p.status.GetOr(i.status), p.condition.GetOr(i.condition), p.photoUrl.GetOr(i.photoUrl),
         i.dateAdded)
  }

  predicate Keeps<T(==)>(supplied: Option<T>, current: T) {
    supplied.None? || supplied.value == current
  }

  /** An update leaves an item as it was exactly when every field it supplies
      already holds the supplied value. */
  lemma ItemPatchNoOp(i: Item, p: ItemPatch)
    ensures ApplyItemPatch(i, p) == i <==>
      Keeps(p.name, i.name) && Keeps(p.sku, i.sku) && Keeps(p.category, i.category)
      && Keeps(p.size, i.size) && Keeps(p.color, i.color) && Keeps(p.brand, i.brand)
      && Keeps(p.purchasePrice, i.purchasePrice) && Keeps(p.rentalPrice, i.rentalPrice)
      && Keeps(p.status, i.status) && Keeps(p.condition, i.condition) && Keeps(p.photoUrl, i.photoUrl)
  {
  }

  /** Setting status and condition changes those two fields and nothing else. */
  lemma StatusAndConditionOnly(i: Item, s: ItemStatus, c: Condition)
    ensures ApplyItemPatch(i, StatusAndCondition(s, c)) == i.(status := s, condition := c)
  {
  }

  /** Sending the same update twice is the same as sending it once. */
  lemma ItemPatchIdempotent(i: Item, p: ItemPatch)
    ensures ApplyItemPatch(ApplyItemPatch(i, p), p) == ApplyItemPatch(i, p)
  {
  }

  /** The `search` condition: the query occurs in the name, sku, brand or category. */
  predicate MatchesQuery(i: Item, query: string) {
    Contains(i.name, query) || Contains(i.sku, query) || Contains(i.brand, query)
    || Contains(i.category, query)
  }

  /** The empty query matches every item. */
  lemma EveryItemMatchesEmptyQuery(i: Item)
    ensures MatchesQuery(i, "")
  {
    ContainsEmpty(i.name);
  }

  /** A query that matches also matches when shortened to any part of itself. */
  lemma QueryPartMatches(i: Item, query: string, part: string)
    requires MatchesQuery(i, query) && Contains(query, part)
    ensures MatchesQuery(i, part)
  {
    if Contains(i.name, query) {
      ContainsTrans(i.name, query, part);
    } else if Contains(i.sku, query) {
      ContainsTrans(i.sku, query, part);
    } else if Contains(i.brand, query) {
      ContainsTrans(i.brand, query, part);
    } else {
      ContainsTrans(i.category, query, part);
    }
  }
}
