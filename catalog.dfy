/** The category record as the storefront reads it from the backend (shared by the product
    listing and the home page). */
module Catalog {
  import opened Wrappers

  /** A category's `parent` field: absent, an id or slug string, or an embedded parent object. */
  datatype ParentRef = NoParent | ParentKey(key: string) | ParentObject(id: string, slug: string)

  /** `isActive` and `order` may be absent; an absent string is "". */
  datatype Category = Category(
    id: string, slug: string, name: string, parent: ParentRef,
    isActive: Option<bool>, order: Option<int>, isFeatured: bool)

  /** `cat.parent` is truthy: an embedded object, or a non-empty string. */
  predicate HasParent(c: Category) {
    match c.parent
    case NoParent => false
    case ParentKey(k) => k != ""
    case ParentObject(_, _) => true
  }

  /** `cat.isActive !== false`: an absent flag counts as active. */
  predicate IsActive(c: Category) {
    c.isActive != Some(false)
  }

  /** `cat.order || 0`. */
  function OrderKey(c: Category): int {
    c.order.GetOr(0)
  }
}
