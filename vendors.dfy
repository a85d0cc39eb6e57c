/**
 * The web vendor directory (`app/vendors/page.tsx`): the list shown is the loaded vendors
 * narrowed by a search term and then by a vendor type, where "all" means any type.
 */
module Vendors {
  import opened Text
  import opened Seqs
  import opened Types

  /** The `type` string a vendor carries. */
  function TypeName(t: VendorType): string {
    match t
    case Recycler => "recycler"
    case Ngo => "ngo"
    case Municipal => "municipal"
  }

  /** The lower-cased term occurs in the lower-cased name, address or one of the services. */
  predicate MatchesTerm(v: Vendor, term: string) {
    var needle := ToLower(term);
    || Includes(ToLower(v.name), needle)
    || Includes(ToLower(v.address), needle)
    || exists k :: 0 <= k < |v.services| && Includes(ToLower(v.services[k]), needle)
  }

  /** What each step lets through; an empty term and the type "all" let everything through. */
  predicate PassesSearch(v: Vendor, term: string) {
    term == "" || MatchesTerm(v, term)
  }

  predicate PassesType(v: Vendor, selectedType: string) {
    selectedType == "all" || TypeName(v.kind) == selectedType
  }

  /** The search step: skipped for an empty term. */
  function SearchStep(vendors: seq<Vendor>, term: string): (r: seq<Vendor>)
    ensures r == Filter(vendors, (v: Vendor) => PassesSearch(v, term))
  {
    if term != "" then
      FilterExtensional(vendors, (v: Vendor) => MatchesTerm(v, term),
                        (v: Vendor) => PassesSearch(v, term));
      Filter(vendors, (v: Vendor) => MatchesTerm(v, term))
    else
      FilterKeepsAll(vendors, (v: Vendor) => PassesSearch(v, term));
      vendors
  }

  /** The type step: skipped for "all". */
  function TypeStep(vendors: seq<Vendor>, selectedType: string): (r: seq<Vendor>)
    ensures r == Filter(vendors, (v: Vendor) => PassesType(v, selectedType))
  {
    if selectedType != "all" then
      FilterExtensional(vendors, (v: Vendor) => TypeName(v.kind) == selectedType,
                        (v: Vendor) => PassesType(v, selectedType));
      Filter(vendors, (v: Vendor) => TypeName(v.kind) == selectedType)
    else
      FilterKeepsAll(vendors, (v: Vendor) => PassesType(v, selectedType));
      vendors
  }

  /** `filteredVendors`: the search step, then the type step. */
  function FilteredVendors(vendors: seq<Vendor>, term: string, selectedType: string)
    : (r: seq<Vendor>)
    ensures term == "" && selectedType == "all" ==> r == vendors
    ensures IsSubsequence(r, vendors)
    ensures forall v :: v in r <==> v in vendors && PassesSearch(v, term)
                                               && PassesType(v, selectedType)
    ensures forall v :: v in vendors ==>
      multiset(r)[v] == if PassesSearch(v, term) && PassesType(v, selectedType)
                        then multiset(vendors)[v] else 0
  {
    var searched := SearchStep(vendors, term);
    FilterIsSubsequence(vendors, (v: Vendor) => PassesSearch(v, term));
    FilterIsSubsequence(searched, (v: Vendor) => PassesType(v, selectedType));
    SubsequenceTransitive(TypeStep(searched, selectedType), searched, vendors);
    TypeStep(searched, selectedType)
  }

  /** Searching the result again for the same term, or narrowing it again to the same type,
    * changes nothing. */
  lemma StepsIdempotent(vendors: seq<Vendor>, term: string, selectedType: string)
    ensures SearchStep(SearchStep(vendors, term), term) == SearchStep(vendors, term)
    ensures TypeStep(TypeStep(vendors, selectedType), selectedType)
            == TypeStep(vendors, selectedType)
  {
    FilterIdempotent(vendors, (v: Vendor) => PassesSearch(v, term));
    FilterIdempotent(vendors, (v: Vendor) => PassesType(v, selectedType));
  }

  /** Narrowing by type first and searching afterwards gives the same list. */
  lemma StepsCommute(vendors: seq<Vendor>, term: string, selectedType: string)
    ensures FilteredVendors(vendors, term, selectedType)
            == SearchStep(TypeStep(vendors, selectedType), term)
  {
    FilterCommutes(vendors, (v: Vendor) => PassesSearch(v, term),
                   (v: Vendor) => PassesType(v, selectedType));
  }

  /** The search ignores ASCII case: the term and its lower-cased form find the same
    * vendors. */
  lemma SearchIgnoresCase(vendors: seq<Vendor>, term: string)
    requires term != ""
    ensures SearchStep(vendors, term) == SearchStep(vendors, ToLower(term))
  {
    LowerIdempotent(term);
    FilterExtensional(vendors, (v: Vendor) => PassesSearch(v, term),
                      (v: Vendor) => PassesSearch(v, ToLower(term)));
  }

  lemma LowerIdempotent(s: string)
    ensures ToLower(ToLower(s)) == ToLower(s)
  {
  }
}
