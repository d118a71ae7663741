/**
 * Subscription records and the pure parts of the tracker's handlers:
 * the form validation, the id lookups, the id filter of delete, the seed
 * list and the initial load.
 */
module Records {
  import opened Wrappers
  import Seqs

  /** One subscription, as the tracker stores it and persists it. */
  datatype Subscription = Subscription(
    id: int,
    name: string,
    price: real,
    renewalDate: string,
    renewalCycle: string)

  /** The value `parseFloat` gives for the price field: not-a-number, or a number. */
  datatype Price = NaN | Num(amount: real)

  /** The form fields as the submit handler reads them, before trimming the name. */
  datatype Form = Form(name: string, price: Price, renewalDate: string, renewalCycle: string)

  /** The two blocking messages the submit handler can show. */
  datatype Alert = FillAllFields | PriceNotNumber

  // ---------------------------------------------------------------------------
  // String.prototype.trim

  /** The characters JavaScript's `trim` removes: WhiteSpace and LineTerminator. */
  predicate IsJsWhitespace(c: char) {
    c in {'\t', '\n', '\U{B}', '\U{C}', '\r', ' ', '\U{A0}', '\U{1680}',
          '\U{2028}', '\U{2029}', '\U{202F}', '\U{205F}', '\U{3000}', '\U{FEFF}'}
    || ('\U{2000}' <= c <= '\U{200A}')
  }

  /** The length of the whitespace prefix of `s`. */
  function LeadingSpace(s: string): (n: nat)
    ensures n <= |s|
    ensures forall k :: 0 <= k < n ==> IsJsWhitespace(s[k])
    ensures n < |s| ==> !IsJsWhitespace(s[n])
  {
    if s == [] || !IsJsWhitespace(s[0]) then 0 else 1 + LeadingSpace(s[1..])
  }

  /** The length of the whitespace suffix of `s`. */
  function TrailingSpace(s: string): (n: nat)
    ensures n <= |s|
    ensures forall k :: |s| - n <= k < |s| ==> IsJsWhitespace(s[k])
    ensures n < |s| ==> !IsJsWhitespace(s[|s| - 1 - n])
  {
    if s == [] || !IsJsWhitespace(s[|s| - 1]) then 0 else 1 + TrailingSpace(s[..|s| - 1])
  }

  /**
   * `s` without its leading and trailing whitespace: a contiguous slice of `s`
   * that is empty exactly when `s` is all whitespace, and otherwise starts and
   * ends with a character that is not whitespace.
   */
  function Trim(s: string): (r: string)
    ensures LeadingSpace(s) + |r| <= |s|
    ensures r == s[LeadingSpace(s)..LeadingSpace(s) + |r|]
    ensures forall k :: 0 <= k < LeadingSpace(s) || LeadingSpace(s) + |r| <= k < |s| ==> IsJsWhitespace(s[k])
    ensures r == [] <==> forall k :: 0 <= k < |s| ==> IsJsWhitespace(s[k])
    ensures r != [] ==> !IsJsWhitespace(r[0]) && !IsJsWhitespace(r[|r| - 1])
  {
    var i := LeadingSpace(s);
    var rest := s[i..];
    var j := TrailingSpace(rest);
    assert forall k :: i + |rest| - j <= k < |s| ==> s[k] == rest[k - i];
    rest[..|rest| - j]
  }

  /** Trimming a string with no surrounding whitespace gives it back. */
  lemma TrimUnpadded(s: string)
    requires s != [] && !IsJsWhitespace(s[0]) && !IsJsWhitespace(s[|s| - 1])
    ensures Trim(s) == s
  {
  }

  // ---------------------------------------------------------------------------
  // Validation and the new record

  /** JavaScript truthiness of the parsed price: `NaN`, `0` and `-0` are falsy. */
  predicate PriceTruthy(p: Price) {
    p.Num? && p.amount != 0.0
  }

  /**
   * The two validation checks of the submit handler, in their order. The
   * first already rejects a `NaN` price, so the second never fires.
   */
  function Check(f: Form): (alert: Option<Alert>)
    ensures alert.None? <==>
      Trim(f.name) != [] && f.price.Num? && f.price.amount != 0.0 &&
      f.renewalDate != [] && f.renewalCycle != []
    ensures alert != Some(PriceNotNumber)
    ensures f.price == Num(0.0) || f.price == NaN ==> alert == Some(FillAllFields)
    ensures (forall k :: 0 <= k < |f.name| ==> IsJsWhitespace(f.name[k])) ==> alert == Some(FillAllFields)
  {
    if Trim(f.name) == [] || !PriceTruthy(f.price) || f.renewalDate == [] || f.renewalCycle == [] then
      Some(FillAllFields)
    else if f.price.NaN? then
      Some(PriceNotNumber)
    else
      None
  }

  /**
   * The record a valid submission builds, with the given id: it carries the
   * trimmed name and the parsed price, and once the form has passed `Check`
   * no field is empty, the name has no surrounding whitespace, and the price
   * is not zero.
   */
  function NewRecord(f: Form, id: int): (r: Subscription)
    requires f.price.Num?
    ensures r.id == id && r.name == Trim(f.name) && r.price == f.price.amount
    ensures r.renewalDate == f.renewalDate && r.renewalCycle == f.renewalCycle
    ensures Check(f).None? ==>
      r.name != [] && !IsJsWhitespace(r.name[0]) && !IsJsWhitespace(r.name[|r.name| - 1]) &&
      r.price != 0.0 && r.renewalDate != [] && r.renewalCycle != []
  {
    Subscription(id, Trim(f.name), f.price.amount, f.renewalDate, f.renewalCycle)
  }

  /** JavaScript truthiness of `editingId`: `null` and `0` are falsy. */
  predicate IsEditing(editingId: Option<int>) {
    editingId.Some? && editingId.value != 0
  }

  // ---------------------------------------------------------------------------
  // Ids

  predicate HasId(s: seq<Subscription>, id: int) {
    exists k :: 0 <= k < |s| && s[k].id == id
  }

  /** Two records hold different ids. */
  predicate DistinctIds(x: Subscription, y: Subscription) {
    x.id != y.id
  }

  /** No two records of `s` share an id. */
  predicate UniqueIds(s: seq<Subscription>) {
    Seqs.Pairwise(s, DistinctIds)
  }

  /** `findIndex(sub => sub.id === id)`: the first position holding `id`, or -1. */
  function FirstIndex(s: seq<Subscription>, id: int): (i: int)
    ensures -1 <= i < |s|
    ensures i == -1 <==> !HasId(s, id)
    ensures i >= 0 ==> s[i].id == id && forall k :: 0 <= k < i ==> s[k].id != id
  {
    if s == [] then -1
    else if s[0].id == id then 0
    else
      var j := FirstIndex(s[1..], id);
      assert HasId(s[1..], id) ==> HasId(s, id) by {
        if HasId(s[1..], id) {
          var k :| 0 <= k < |s| - 1 && s[1..][k].id == id;
          assert s[k + 1].id == id;
        }
      }
      assert HasId(s, id) ==> HasId(s[1..], id) by {
        if HasId(s, id) {
          var k :| 0 <= k < |s| && s[k].id == id;
          assert s[1..][k - 1].id == id;
        }
      }
      if j == -1 then -1 else j + 1
  }

  /** `find(sub => sub.id === id)`: the first record holding `id`, if any. */
  function Find(s: seq<Subscription>, id: int): (r: Option<Subscription>)
    ensures r.None? <==> !HasId(s, id)
    ensures r.Some? ==> r.value in s && r.value.id == id
    ensures r.Some? ==> r.value == s[FirstIndex(s, id)]
  {
    var i := FirstIndex(s, id);
    if i < 0 then None else Some(s[i])
  }

  /** In a list with unique ids the first position holding `id` is the only one. */
  lemma FirstIndexUnique(s: seq<Subscription>, i: nat)
    requires UniqueIds(s) && i < |s|
    ensures FirstIndex(s, s[i].id) == i
  {
  }

  // ---------------------------------------------------------------------------
  // Delete's id filter

  /** `filter(sub => sub.id !== id)`: every record except those holding `id`. */
  function RemoveId(s: seq<Subscription>, id: int): (r: seq<Subscription>)
    ensures |r| <= |s|
    ensures forall x :: x in r <==> x in s && x.id != id
    ensures !HasId(r, id)
  {
    Seqs.FilterMembers(s, (x: Subscription) => x.id != id);
    Seqs.Filter(s, (x: Subscription) => x.id != id)
  }

  /** Removing an id that no record holds changes nothing. */
  lemma RemoveAbsentId(s: seq<Subscription>, id: int)
    requires !HasId(s, id)
    ensures RemoveId(s, id) == s
  {
    Seqs.FilterKeepsAll(s, (x: Subscription) => x.id != id);
  }

  /** Removal keeps the survivors' relative order: it distributes over concatenation. */
  lemma RemoveIdConcat(a: seq<Subscription>, b: seq<Subscription>, id: int)
    ensures RemoveId(a + b, id) == RemoveId(a, id) + RemoveId(b, id)
  {
    Seqs.FilterConcat(a, b, (x: Subscription) => x.id != id);
  }

  /** With unique ids, removing a present id deletes exactly its one position. */
  lemma RemoveUniqueId(s: seq<Subscription>, i: nat)
    requires UniqueIds(s) && i < |s|
    ensures RemoveId(s, s[i].id) == s[..i] + s[i + 1..]
    ensures |RemoveId(s, s[i].id)| == |s| - 1
  {
    Seqs.FilterDropsOne(s, i, (x: Subscription) => x.id != s[i].id);
  }

  /** Removal never introduces a duplicate id. */
  lemma RemoveKeepsUnique(s: seq<Subscription>, id: int)
    requires UniqueIds(s)
    ensures UniqueIds(RemoveId(s, id))
  {
    Seqs.FilterPairwise(s, (x: Subscription) => x.id != id, DistinctIds);
  }

  /** Appending a record whose id is not yet present keeps the ids unique. */
  lemma AppendKeepsUnique(s: seq<Subscription>, x: Subscription)
    requires UniqueIds(s) && !HasId(s, x.id)
    ensures UniqueIds(s + [x])
  {
  }

  /** Replacing a record by one with the same id keeps the ids unique. */
  lemma ReplaceKeepsUnique(s: seq<Subscription>, i: nat, x: Subscription)
    requires UniqueIds(s) && i < |s| && x.id == s[i].id
    ensures UniqueIds(s[i := x])
  {
  }

  // ---------------------------------------------------------------------------
  // The seed list and the initial load

  /** The six example records used when nothing has been persisted. */
  const Seed: seq<Subscription> := [
    Subscription(1, "Myntra Insider", 599.0, "2025-11-25", "Yearly"),
    Subscription(2, "Spotify Premium", 129.0, "2025-09-20", "Monthly"),
    Subscription(3, "Meesho Exclusive", 249.0, "2025-10-15", "Monthly"),
    Subscription(4, "Flipkart Plus", 499.0, "2025-12-01", "Yearly"),
    Subscription(5, "Amazon Prime", 1499.0, "2026-01-10", "Yearly"),
    Subscription(6, "Netflix Premium", 649.0, "2025-09-30", "Monthly")
  ]

  /** The seed holds six records with ids 1 to 6 in order, so its ids are unique. */
  lemma SeedShape()
    ensures |Seed| == 6
    ensures forall k :: 0 <= k < |Seed| ==> Seed[k].id == k + 1
    ensures UniqueIds(Seed)
  {
  }

  /** The value under the storage key `subscriptions`, as `JSON.parse` would read it. */
  datatype Persisted = Absent | Unparsable | Saved(records: seq<Subscription>)

  /** `JSON.parse` throws on a value it cannot parse. */
  datatype LoadError = SyntaxError

  /**
   * `JSON.parse(getItem(...)) || seed`: a saved list wins, even an empty one
   * (an array is truthy); a missing key parses to `null` and gives the seed;
   * an unparsable value throws.
   */
  function Load(p: Persisted): (r: Result<seq<Subscription>, LoadError>)
    ensures r.Failure? <==> p.Unparsable?
    ensures p.Absent? ==> r == Success(Seed)
    ensures p.Saved? ==> r == Success(p.records)
  {
    match p
    case Absent => Success(Seed)
    case Unparsable => Failure(SyntaxError)
    case Saved(records) => Success(records)
  }
}
