/** The scraped record and the Python truthiness rules the crawler applies to query results. */
module Items {
  import opened Wrappers

  /**
   * `YcCompanyItem`: a record with five optional fields. A field is `None`
   * until the spider assigns it; the names are the item's own keys.
   */
  datatype YcCompanyItem = YcCompanyItem(
    company_name: Option<string>,
    company_website: Option<string>,
    founders_name: Option<string>,
    founders_linkedin: Option<string>,
    founders_twitter: Option<string>)

  /** A freshly constructed `YcCompanyItem()` with no field set. */
  const EmptyItem := YcCompanyItem(None, None, None, None, None)

  /** Python truthiness of a string that may be `None`: both `None` and `''` are false. */
  predicate Truthy(v: Option<string>) {
    v.Some? && v.value != ""
  }

  /** Python's `a or b`: `a` when it is truthy, otherwise `b`. */
  function Or(a: Option<string>, b: Option<string>): (r: Option<string>)
    ensures Truthy(r) <==> Truthy(a) || Truthy(b)
    ensures r == a || r == b
    ensures Truthy(a) ==> r == a
    ensures !Truthy(a) ==> r == b
  {
    if Truthy(a) then a else b
  }
}
