/** The medicine catalog the billing screen holds (`allMedicines`), and the
    local search box that filters it as the cashier types. */
module Catalog {
  import opened Seqs

  /** One medicine record as the backend returns it. `quantity` is the stock
      on hand; prices are exact rationals here (see README). */
  datatype Medicine = Medicine(
    id: int,
    name: string,
    category: string,
    batchNumber: Option<string>,
    quantity: int,
    sellingPrice: real,
    gstPercent: real,
    barcode: Option<string>,
    expiryDate: Option<string>)

  /** The "+" button of a search row is disabled when there is no stock. */
  predicate CanAdd(m: Medicine) {
    m.quantity > 0
  }

  /** Lower-casing of one character, for the ASCII letters. */
  function LowerChar(c: char): char {
    if 'A' <= c <= 'Z' then (c as int + 32) as char else c
  }

  function ToLower(s: string): string {
    seq(|s|, i requires 0 <= i < |s| => LowerChar(s[i]))
  }

  lemma ToLowerIdempotent(s: string)
    ensures ToLower(ToLower(s)) == ToLower(s)
  {
    var t := ToLower(s);
    assert forall i :: 0 <= i < |t| ==> LowerChar(t[i]) == t[i];
  }

  predicate IsInfixAt(s: string, sub: string, i: nat) {
    i + |sub| <= |s| && s[i..i + |sub|] == sub
  }

  /** `String.prototype.includes`. */
  predicate Includes(s: string, sub: string) {
    exists i: nat :: i <= |s| && IsInfixAt(s, sub, i)
  }

  /** A barcode is used only when it is present and not the empty string. */
  predicate HasBarcode(m: Medicine) {
    m.barcode.Some? && m.barcode.value != ""
  }

  /** The search predicate for an already lower-cased needle: the lower-cased
      name contains it, or the barcode, as stored, contains it. */
  predicate Matches(m: Medicine, needle: string): (b: bool)
    ensures needle == "" ==> b
    ensures |needle| > |m.name| && (!HasBarcode(m) || |needle| > |m.barcode.value|) ==> !b
  {
    assert needle == "" ==> IsInfixAt(ToLower(m.name), needle, 0);
    Includes(ToLower(m.name), needle) || (HasBarcode(m) && Includes(m.barcode.value, needle))
  }

  function SearchLowered(catalog: seq<Medicine>, needle: string): seq<Medicine> {
    Filter(catalog, m => Matches(m, needle))
  }

  /** The `input` handler of the search box: the catalog filtered by the
      lower-cased text typed, in catalog order. */
  function Search(catalog: seq<Medicine>, query: string): (r: seq<Medicine>)
    ensures |r| <= |catalog|
    ensures forall i :: 0 <= i < |r| ==> r[i] in catalog && Matches(r[i], ToLower(query))
    ensures forall j :: 0 <= j < |catalog| && Matches(catalog[j], ToLower(query)) ==> catalog[j] in r
  {
    SearchLowered(catalog, ToLower(query))
  }

  /** An empty search box shows the whole catalog, in order. */
  lemma SearchEmptyQuery(catalog: seq<Medicine>)
    ensures Search(catalog, "") == catalog
  {
    assert ToLower("") == "";
    forall j | 0 <= j < |catalog|
      ensures Matches(catalog[j], "")
    {
      assert IsInfixAt(ToLower(catalog[j].name), "", 0);
    }
    FilterKeepsAll(catalog, m => Matches(m, ""));
  }

  /** The search keeps catalog order: the rows found in a catalog made of two
      parts are the rows found in the first part, followed by those found in
      the second. */
  lemma SearchConcat(a: seq<Medicine>, b: seq<Medicine>, query: string)
    ensures Search(a + b, query) == Search(a, query) + Search(b, query)
  {
    FilterConcat(a, b, m => Matches(m, ToLower(query)));
  }

  /** Typing in upper or lower case gives the same result list. */
  lemma SearchIgnoresQueryCase(catalog: seq<Medicine>, query: string)
    ensures Search(catalog, query) == Search(catalog, ToLower(query))
  {
    ToLowerIdempotent(query);
  }

  /** Because the needle is lower-cased and the barcode is not, a barcode
      with an upper-case letter is never found by its own full text. */
  lemma UppercaseBarcodeNotMatchedByItself(m: Medicine)
    requires HasBarcode(m) && 'A' <= m.barcode.value[0] <= 'Z'
    requires !Includes(ToLower(m.name), ToLower(m.barcode.value))
    ensures !Matches(m, ToLower(m.barcode.value))
  {
    var b := m.barcode.value;
    assert ToLower(b)[0] != b[0];
  }
}
