/**
 * Shared vocabulary of the storefront model: handler outcomes, the caller
 * identity that the authentication middleware attaches to a request, the
 * JavaScript "merge" idioms the controllers use to apply partial updates,
 * the list helpers (`findIndex`, `filter`) the handlers rely on, slugs and
 * the page arithmetic shared by every paginated listing.
 */
module Common {

  /** A value that a request may or may not carry (`undefined` is `None`). */
  datatype Option<T> = None | Some(value: T) {
    /** `x !== undefined ? x : fallback`, and `x || fallback` for values that are never falsy. */
    function Or(fallback: T): T {
      if Some? then value else fallback
    }
  }

  /** Outcome of a handler: the JSON body, or the HTTP status and message of the thrown error. */
  datatype Result<T> = Ok(value: T) | Err(status: nat, message: string)

  /** Document identifiers (MongoDB ObjectIds); only compared for equality. */
  type Id = nat

  /** The authenticated user of a request. */
  datatype Caller = Caller(id: Id, isAdmin: bool, email: string)

  /** The ownership rule of every "Not authorized" check: the owner or an administrator. */
  predicate OwnerOrAdmin(owner: Id, caller: Caller) {
    owner == caller.id || caller.isAdmin
  }

  /** `given || old` on a string field: an absent or empty string keeps the current value. */
  function OrStr(given: Option<string>, current: string): string {
    if given.Some? && given.value != "" then given.value else current
  }

  /** `given || old` on a number: an absent value or 0 keeps the current value. */
  function OrInt(given: Option<int>, current: int): int {
    if given.Some? && given.value != 0 then given.value else current
  }

  function Min(a: int, b: int): int {
    if a <= b then a else b
  }

  // ---------------------------------------------------------------------
  // Array.prototype.findIndex and Array.prototype.filter
  // ---------------------------------------------------------------------

  /** Index of the first element satisfying `p`, or -1. */
  function FindIndex<T>(s: seq<T>, p: T -> bool): (i: int)
    ensures -1 <= i < |s|
    ensures 0 <= i ==> p(s[i]) && forall j :: 0 <= j < i ==> !p(s[j])
    ensures i == -1 ==> forall j :: 0 <= j < |s| ==> !p(s[j])
  {
    if s == [] then -1
    else if p(s[0]) then 0
    else
      var k := FindIndex(s[1..], p);
      if k < 0 then -1 else k + 1
  }

  /** The elements of `s` satisfying `p`, in their original order. */
  function Filter<T>(s: seq<T>, p: T -> bool): (r: seq<T>)
    ensures |r| <= |s|
    ensures forall x :: x in r ==> x in s && p(x)
    ensures forall x :: x in s && p(x) ==> x in r
  {
    if s == [] then []
    else (if p(s[0]) then [s[0]] else []) + Filter(s[1..], p)
  }

  /** Filtering distributes over concatenation, so it keeps the relative order of what it keeps. */
  lemma {:induction false} FilterAppend<T>(s: seq<T>, t: seq<T>, p: T -> bool)
    ensures Filter(s + t, p) == Filter(s, p) + Filter(t, p)
  {
    if s == [] {
      assert s + t == t;
    } else {
      assert (s + t)[0] == s[0];
      assert (s + t)[1..] == s[1..] + t;
      FilterAppend(s[1..], t, p);
    }
  }

  /** Filtering with a predicate every element satisfies changes nothing. */
  lemma {:induction false} FilterKeepsAll<T>(s: seq<T>, p: T -> bool)
    requires forall i :: 0 <= i < |s| ==> p(s[i])
    ensures Filter(s, p) == s
  {
    if s != [] {
      FilterKeepsAll(s[1..], p);
    }
  }

  /** Filtering with a predicate no element satisfies leaves nothing. */
  lemma {:induction false} FilterKeepsNone<T>(s: seq<T>, p: T -> bool)
    requires forall i :: 0 <= i < |s| ==> !p(s[i])
    ensures Filter(s, p) == []
  {
    if s != [] {
      FilterKeepsNone(s[1..], p);
    }
  }

  // ---------------------------------------------------------------------
  // Strings: String.prototype.toLowerCase (ASCII letters) and slugs
  // ---------------------------------------------------------------------

  predicate IsUpper(c: char) {
    'A' <= c <= 'Z'
  }

  function LowerChar(c: char): char {
    if IsUpper(c) then (c as int + 32) as char else c
  }

  function Lower(s: string): (r: string)
    ensures |r| == |s|
    ensures forall i :: 0 <= i < |s| ==> !IsUpper(r[i])
    ensures forall i :: 0 <= i < |s| ==> r[i] == LowerChar(s[i])
  {
    seq(|s|, i requires 0 <= i < |s| => LowerChar(s[i]))
  }

  /** `replace(/ /g, "-")` */
  function DashSpaces(s: string): string {
    seq(|s|, i requires 0 <= i < |s| => if s[i] == ' ' then '-' else s[i])
  }

  /** The slug rule shared by products and categories: lower-cased, every space a dash. */
  function Slugify(name: string): (slug: string)
    ensures |slug| == |name|
    ensures forall i :: 0 <= i < |slug| ==> slug[i] != ' ' && !IsUpper(slug[i])
    ensures forall i :: 0 <= i < |slug| ==> (slug[i] == '-' <==> name[i] == ' ' || name[i] == '-')
    ensures forall i :: 0 <= i < |slug| ==> slug[i] == if name[i] == ' ' then '-' else LowerChar(name[i])
  {
    DashSpaces(Lower(name))
  }

  /** Slugs are already normal: deriving a slug from a slug gives it back. */
  lemma SlugifyIdempotent(name: string)
    ensures Slugify(Slugify(name)) == Slugify(name)
  {
    var s := Slugify(name);
    forall i | 0 <= i < |s| ensures Slugify(s)[i] == s[i] {
      assert !IsUpper(s[i]) && s[i] != ' ';
    }
  }

  /** Names that differ only in letter case or in space versus dash get the same slug. */
  lemma SlugCollision()
    ensures Slugify("Red Shirt") == Slugify("red-shirt") == "red-shirt"
  {
    assert Slugify("Red Shirt") == "red-shirt";
    assert Slugify("red-shirt") == "red-shirt";
  }

  // ---------------------------------------------------------------------
  // Pagination: pageSize 10, page = Number(pageNumber) || 1,
  // skip(pageSize * (page - 1)).limit(pageSize), pages = ceil(count / pageSize)
  // ---------------------------------------------------------------------

  const PageSize: nat := 10

  /** `Number(req.query.pageNumber) || 1`: a missing, non-numeric (None) or zero page is page 1. */
  function PageNumber(requested: Option<int>): (page: int)
    ensures page != 0
    ensures requested == None || requested == Some(0) ==> page == 1
    ensures requested.Some? && requested.value != 0 ==> page == requested.value
  {
    OrInt(requested, 1)
  }

  /** `Math.ceil(count / pageSize)` */
  function PageCount(count: nat): nat {
    (count + PageSize - 1) / PageSize
  }

  lemma PageCountIsCeiling(count: nat)
    ensures PageSize * PageCount(count) >= count
    ensures count > 0 ==> PageSize * (PageCount(count) - 1) < count
    ensures count == 0 ==> PageCount(count) == 0
  {
  }

  datatype Page<T> = Page(items: seq<T>, page: int, pages: nat)

  /**
   * One page of a listing the database has already filtered and sorted.
   * None when the page number is negative: the database refuses a negative skip.
   */
  function GetPage<T>(listing: seq<T>, requested: Option<int>): (r: Option<Page<T>>)
    ensures r.Some? <==> PageNumber(requested) >= 1
    ensures r.Some? ==> r.value.page == PageNumber(requested) && r.value.pages == PageCount(|listing|)
    ensures r.Some? ==> |r.value.items| <= PageSize
    ensures r.Some? ==> forall j :: 0 <= j < |r.value.items| ==>
              PageSize * (r.value.page - 1) + j < |listing| &&
              r.value.items[j] == listing[PageSize * (r.value.page - 1) + j]
  {
    var page := PageNumber(requested);
    if page < 1 then None
    else
      var skip := PageSize * (page - 1);
      Some(Page(listing[Min(skip, |listing|)..Min(skip + PageSize, |listing|)], page, PageCount(|listing|)))
  }

  /** A page has items exactly when its number is at most the page count. */
  lemma PageNonEmptyIff<T>(listing: seq<T>, p: int)
    requires p >= 1
    ensures GetPage(listing, Some(p)).Some?
    ensures |GetPage(listing, Some(p)).value.items| > 0 <==> p <= PageCount(|listing|)
  {
    PageCountIsCeiling(|listing|);
    var n := |listing|;
    if p <= PageCount(n) {
      assert PageSize * (p - 1) <= PageSize * (PageCount(n) - 1);
    } else {
      assert PageSize * (p - 1) >= PageSize * PageCount(n);
    }
  }

  /** Every element of a listing is on exactly one page: element k is item k % 10 of page k / 10 + 1. */
  lemma ElementOnPage<T>(listing: seq<T>, k: nat)
    requires k < |listing|
    ensures GetPage(listing, Some(k / PageSize + 1)).Some?
    ensures var pg := GetPage(listing, Some(k / PageSize + 1)).value;
            k % PageSize < |pg.items| && pg.items[k % PageSize] == listing[k]
  {
    var page := k / PageSize + 1;
    assert PageSize * (page - 1) + k % PageSize == k;
  }

  /**
   * `ids` lists every key of `table` exactly once: the order in which the
   * database returns a sorted query, which the model takes as given.
   */
  predicate ListsAll<D>(table: map<Id, D>, ids: seq<Id>) {
    (forall i :: 0 <= i < |ids| ==> ids[i] in table) &&
    (forall id :: id in table ==> id in ids) &&
    (forall i, j :: 0 <= i < j < |ids| ==> ids[i] != ids[j])
  }

  /** The documents of a list of ids, in that order. */
  function Lookup<D>(table: map<Id, D>, ids: seq<Id>): (r: seq<D>)
    requires forall i :: 0 <= i < |ids| ==> ids[i] in table
    ensures |r| == |ids| && forall i :: 0 <= i < |ids| ==> r[i] == table[ids[i]]
  {
    seq(|ids|, i requires 0 <= i < |ids| => table[ids[i]])
  }

  /** A listing of every document, each once, is as long as the table, so `count` is its length. */
  lemma CountListed<D>(table: map<Id, D>, ids: seq<Id>)
    requires ListsAll(table, ids)
    ensures |ids| == |table|
  {
    assert (set i | 0 <= i < |ids| :: ids[i]) == table.Keys;
    DistinctCount(ids);
  }

  /** The page of a looked-up listing, item by item. */
  lemma PageOfLookup<D>(table: map<Id, D>, ids: seq<Id>, requested: Option<int>)
    requires forall i :: 0 <= i < |ids| ==> ids[i] in table
    ensures var r := GetPage(Lookup(table, ids), requested);
            (r.Some? <==> PageNumber(requested) >= 1) &&
            (r.Some? ==> r.value.page == PageNumber(requested) && r.value.pages == PageCount(|ids|)) &&
            (r.Some? ==> |r.value.items| <= PageSize) &&
            (r.Some? ==> forall j :: 0 <= j < |r.value.items| ==>
               PageSize * (r.value.page - 1) + j < |ids| &&
               r.value.items[j] == table[ids[PageSize * (r.value.page - 1) + j]])
  {
    var listing := Lookup(table, ids);
    var r := GetPage(listing, requested);
    if r.Some? {
      var base := PageSize * (r.value.page - 1);
      forall j | 0 <= j < |r.value.items|
        ensures base + j < |ids| && r.value.items[j] == table[ids[base + j]]
      {
        assert r.value.items[j] == listing[base + j];
      }
    }
  }

  /**
   * `r` is page `requested` of a listing of the whole table in the order `ids`:
   * absent for a negative page number, otherwise at most ten documents, the
   * j-th being the document listed at 10·(page−1)+j, with the page count over
   * the whole table.
   */
  predicate IsListedPage<D(==)>(r: Option<Page<D>>, table: map<Id, D>, ids: seq<Id>, requested: Option<int>) {
    (r.Some? <==> PageNumber(requested) >= 1) &&
    (r.Some? ==> r.value.page == PageNumber(requested) && r.value.pages == PageCount(|table|)) &&
    (r.Some? ==> |r.value.items| <= PageSize) &&
    (r.Some? ==> forall j :: 0 <= j < |r.value.items| ==>
       PageSize * (r.value.page - 1) + j < |ids| && ids[PageSize * (r.value.page - 1) + j] in table &&
       r.value.items[j] == table[ids[PageSize * (r.value.page - 1) + j]])
  }

  /** Paging the looked-up listing gives the listed page. */
  lemma ListedPage<D>(table: map<Id, D>, ids: seq<Id>, requested: Option<int>)
    requires ListsAll(table, ids)
    ensures IsListedPage(GetPage(Lookup(table, ids), requested), table, ids, requested)
  {
    CountListed(table, ids);
    PageOfLookup(table, ids, requested);
  }

  lemma {:induction false} DistinctCount(s: seq<Id>)
    requires forall i, j :: 0 <= i < j < |s| ==> s[i] != s[j]
    ensures |set i | 0 <= i < |s| :: s[i]| == |s|
  {
    if s != [] {
      var t := s[..|s| - 1];
      DistinctCount(t);
      var last := s[|s| - 1];
      assert (set i | 0 <= i < |s| :: s[i]) == (set i | 0 <= i < |t| :: t[i]) + {last};
      assert last !in (set i | 0 <= i < |t| :: t[i]);
    }
  }
}
