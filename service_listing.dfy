/** The service listing: the category filter, the sort key chosen from
    `sortBy`, the skip/limit window and the page count. The database's
    `find().sort().skip().limit()` is replaced by an insertion sort over the
    stored documents in their natural order. */
module ServiceListing {
  import opened Common
  import opened ServiceModel
  import opened ResponseFormatter

  /** A stored service and its id, in the order the collection yields them. */
  type Entry = (Id, Service)

  /** The sort options `getServices` builds from `sortBy`. */
  datatype SortKey = PriceAscending | PriceDescending | RatingDescending | NewestFirst

  /** The `switch (sortBy)`: the three named keys, and newest first for
      "newest", for any other string and for no `sortBy` at all. */
  function SortKeyOf(sortBy: Option<string>): (k: SortKey)
    ensures k == PriceAscending <==> sortBy == Some("price_asc")
    ensures k == PriceDescending <==> sortBy == Some("price_desc")
    ensures k == RatingDescending <==> sortBy == Some("rating")
    ensures k == NewestFirst <==> sortBy !in {Some("price_asc"), Some("price_desc"), Some("rating")}
  {
    if sortBy == Some("price_asc") then PriceAscending
    else if sortBy == Some("price_desc") then PriceDescending
    else if sortBy == Some("rating") then RatingDescending
    else NewestFirst
  }

  /** The position a service sorts at under the key, smallest first: the
      descending keys negate the field. */
  function Rank(key: SortKey, a: Service): real
  {
    match key
    case PriceAscending => a.price as real
    case PriceDescending => -(a.price as real)
    case RatingDescending => -a.rating
    case NewestFirst => -(a.createdAt as real)
  }

  /** `a` may come before `b` under the key. */
  predicate Before(key: SortKey, a: Service, b: Service)
  {
    Rank(key, a) <= Rank(key, b)
  }

  /** What each key orders by: price ascending, price descending, rating
      descending, creation time descending. */
  lemma BeforeByKey(key: SortKey, a: Service, b: Service)
    ensures Before(key, a, b) <==>
              match key
              case PriceAscending => a.price <= b.price
              case PriceDescending => a.price >= b.price
              case RatingDescending => a.rating >= b.rating
              case NewestFirst => a.createdAt >= b.createdAt
  {
  }

  /** Every key orders all services: any two are comparable. */
  lemma BeforeTotal(key: SortKey, a: Service, b: Service)
    ensures Before(key, a, b) || Before(key, b, a)
  {
  }

  predicate SortedBy(key: SortKey, s: seq<Entry>)
  {
    forall i, j :: 0 <= i < j < |s| ==> Before(key, s[i].1, s[j].1)
  }

  /** Insert one entry into a sorted list. */
  function Insert(key: SortKey, x: Entry, s: seq<Entry>): (r: seq<Entry>)
    requires SortedBy(key, s)
    ensures SortedBy(key, r)
    ensures multiset(r) == multiset(s) + multiset{x}
    ensures |r| == |s| + 1
    decreases |s|
  {
    if s == [] then [x]
    else if Rank(key, x.1) <= Rank(key, s[0].1) then [x] + s
    else
      var rest := Insert(key, x, s[1..]);
      assert s == [s[0]] + s[1..];
      HeadBeforeAll(key, s, x, rest);
      [s[0]] + rest
  }

  /** The head of a sorted list goes before anything built from its tail and
      an entry that sorts after it. */
  lemma HeadBeforeAll(key: SortKey, s: seq<Entry>, x: Entry, rest: seq<Entry>)
    requires s != [] && SortedBy(key, s) && Rank(key, s[0].1) < Rank(key, x.1)
    requires multiset(rest) == multiset(s[1..]) + multiset{x}
    ensures forall j :: 0 <= j < |rest| ==> Rank(key, s[0].1) <= Rank(key, rest[j].1)
  {
    forall j | 0 <= j < |rest| ensures Rank(key, s[0].1) <= Rank(key, rest[j].1) {
      assert rest[j] in multiset(rest);
      if rest[j] != x {
        assert rest[j] in multiset(s[1..]);
        var k :| 0 <= k < |s[1..]| && s[1..][k] == rest[j];
        assert s[k + 1] == rest[j];
      }
    }
  }

  /** The sorted order of the entries: sorted by the key and a permutation of
      them. Ties keep no particular order, as in the database. */
  function SortEntries(key: SortKey, s: seq<Entry>): (r: seq<Entry>)
    ensures SortedBy(key, r)
    ensures multiset(r) == multiset(s)
    ensures |r| == |s|
    decreases |s|
  {
    if s == [] then []
    else
      assert s == [s[0]] + s[1..];
      Insert(key, s[0], SortEntries(key, s[1..]))
  }

  /** The `query.category` filter; an absent or empty `category` matches all. */
  predicate Matches(e: Entry, category: Option<Id>)
  {
    category.None? || e.1.category == category.value
  }

  /** The documents the query selects, in their natural order. */
  function Matching(s: seq<Entry>, category: Option<Id>): (r: seq<Entry>)
    ensures |r| <= |s|
    ensures forall e :: e in r <==> e in s && Matches(e, category)
  {
    if s == [] then []
    else if Matches(s[0], category) then [s[0]] + Matching(s[1..], category)
    else Matching(s[1..], category)
  }

  /** Without a category every document is selected. */
  lemma {:induction false} MatchingAll(s: seq<Entry>)
    ensures Matching(s, None) == s
  {
    if s != [] {
      MatchingAll(s[1..]);
    }
  }

  /** `.skip(skip).limit(limit)`: from position `skip`, `limit` documents, or
      all the rest when the limit is 0; a negative limit returns as many as
      its absolute value. */
  function Window(s: seq<Entry>, skip: nat, limit: int): (r: seq<Entry>)
    ensures skip >= |s| ==> r == []
    ensures skip < |s| && limit == 0 ==> r == s[skip..]
    ensures limit != 0 ==> |r| == Min(Abs(limit), if skip < |s| then |s| - skip else 0)
    ensures forall i :: 0 <= i < |r| ==> skip + i < |s| && r[i] == s[skip + i]
  {
    if skip >= |s| then []
    else if limit == 0 then s[skip..]
    else s[skip..][..Min(Abs(limit), |s| - skip)]
  }

  function Abs(x: int): nat
  {
    if x < 0 then -x else x
  }

  function Min(a: nat, b: nat): nat
  {
    if a <= b then a else b
  }

  /** The listing's body: the page of services and the pagination block. */
  datatype Listing = Listing(services: seq<Entry>, total: nat, page: int, pages: PageCount)

  /** The page `.find().sort().skip(skip).limit(limit)` yields: the window at
      `skip` of a sorted order of the selection, fixing no order among ties. */
  function Shown(stored: seq<Entry>, category: Option<Id>, key: SortKey, skip: nat, limit: int)
    : (w: seq<Entry>)
    ensures exists t :: && SortedBy(key, t)
                        && multiset(t) == multiset(Matching(stored, category))
                        && w == Window(t, skip, limit)
  {
    ShownAt(stored, category, key, skip, limit);
    Window(SortEntries(key, Matching(stored, category)), skip, limit)
  }

  /** Any window at `skip` of a sorted order of the selection is sorted,
      holds only stored documents of the category, and has the window's size. */
  lemma PageOfSorted(stored: seq<Entry>, category: Option<Id>, key: SortKey, skip: nat, limit: int,
                     w: seq<Entry>)
    requires exists t :: && SortedBy(key, t)
                         && multiset(t) == multiset(Matching(stored, category))
                         && w == Window(t, skip, limit)
    ensures SortedBy(key, w)
    ensures forall e :: e in w ==> e in stored && Matches(e, category)
    ensures var n := |Matching(stored, category)|;
            |w| == (if skip >= n then 0 else if limit == 0 then n - skip else Min(Abs(limit), n - skip))
  {
    var t :| && SortedBy(key, t)
             && multiset(t) == multiset(Matching(stored, category))
             && w == Window(t, skip, limit);
    WindowSorted(key, t, skip, limit);
    WindowWithin(t, Matching(stored, category), skip, limit);
    assert |t| == |multiset(t)| == |Matching(stored, category)|;
    WindowSize(t, skip, limit);
  }

  /** `GET /services`. A negative skip `(page-1)*limit` is refused by the
      database and becomes a 500. Otherwise the body lists the window at
      `skip` of some sorted order of the selection (ties in any order), the
      number of selected documents, the page and the page count
      `Math.ceil(total / limit)`. The title search is not modelled. */
  function GetServices(stored: seq<Entry>, category: Option<Id>, sortBy: Option<string>,
                       page: int, limit: int): (r: Reply<Listing>)
    ensures r.Err? <==> (page - 1) * limit < 0
    ensures r.Err? ==> r == Err(500, ServerError)
    ensures r.Ok? ==>
              var selected := Matching(stored, category);
              && r.status == 200
              && r.value.total == |selected|
              && r.value.page == page
              && r.value.pages == PageCountOf(|selected|, limit)
              && SortedBy(SortKeyOf(sortBy), r.value.services)
              && (forall e :: e in r.value.services ==> e in stored && Matches(e, category))
              && var skip := (page - 1) * limit;
                 |r.value.services| == (if skip >= |selected| then 0
                                        else if limit == 0 then |selected| - skip
                                        else Min(Abs(limit), |selected| - skip))
    ensures r.Ok? ==>
              exists t :: && SortedBy(SortKeyOf(sortBy), t)
                          && multiset(t) == multiset(Matching(stored, category))
                          && r.value.services == Window(t, (page - 1) * limit, limit)
  {
    var skip := (page - 1) * limit;
    if skip < 0 then Err(500, ServerError)
    else
      var selected := Matching(stored, category);
      var shown := Shown(stored, category, SortKeyOf(sortBy), skip, limit);
      PageOfSorted(stored, category, SortKeyOf(sortBy), skip, limit, shown);
      Ok(200, Listing(shown, |selected|, page, PageCountOf(|selected|, limit)))
  }

  /** The shown page is the window at `skip` of a sorted permutation of the
      selection. */
  lemma ShownAt(stored: seq<Entry>, category: Option<Id>, key: SortKey, skip: nat, limit: int)
    ensures exists t :: && SortedBy(key, t)
                        && multiset(t) == multiset(Matching(stored, category))
                        && Window(SortEntries(key, Matching(stored, category)), skip, limit)
                           == Window(t, skip, limit)
  {
    var t := SortEntries(key, Matching(stored, category));
    assert SortedBy(key, t) && multiset(t) == multiset(Matching(stored, category));
  }

  /** The size of a window. */
  lemma WindowSize(s: seq<Entry>, skip: nat, limit: int)
    ensures |Window(s, skip, limit)| == (if skip >= |s| then 0
                                         else if limit == 0 then |s| - skip
                                         else Min(Abs(limit), |s| - skip))
  {
  }

  /** A window of a sorted list is sorted. */
  lemma WindowSorted(key: SortKey, s: seq<Entry>, skip: nat, limit: int)
    requires SortedBy(key, s)
    ensures SortedBy(key, Window(s, skip, limit))
  {
    var w := Window(s, skip, limit);
    forall i, j | 0 <= i < j < |w| ensures Before(key, w[i].1, w[j].1) {
      assert w[i] == s[skip + i] && w[j] == s[skip + j];
    }
  }

  /** A window of a permutation holds only elements of the original. */
  lemma WindowWithin(s: seq<Entry>, t: seq<Entry>, skip: nat, limit: int)
    requires multiset(s) == multiset(t)
    ensures forall e :: e in Window(s, skip, limit) ==> e in t
  {
    var w := Window(s, skip, limit);
    forall e | e in w ensures e in t {
      var i :| 0 <= i < |w| && w[i] == e;
      assert s[skip + i] == e;
      assert e in multiset(s);
    }
  }

  /** Two windows of the same positive limit, the second starting where the
      first ends, together make the window of twice the limit. */
  lemma AdjacentWindows(s: seq<Entry>, skip: nat, limit: nat)
    requires limit > 0
    ensures Window(s, skip, limit) + Window(s, skip + limit, limit) == Window(s, skip, 2 * limit)
  {
    if skip < |s| && skip + limit < |s| {
      var m := skip + limit + Min(limit, |s| - skip - limit);
      assert Window(s, skip, limit) == s[skip..skip + limit];
      assert Window(s, skip + limit, limit) == s[skip + limit..m];
      assert Window(s, skip, 2 * limit) == s[skip..m];
      assert s[skip..skip + limit] + s[skip + limit..m] == s[skip..m];
    }
  }

  /** With a positive limit, page `p` and page `p + 1` are adjacent: together
      they are the window of twice the size starting at page `p`. */
  lemma ConsecutivePages(s: seq<Entry>, p: nat, limit: nat)
    requires limit > 0
    ensures Window(s, p * limit, limit) + Window(s, (p + 1) * limit, limit)
            == Window(s, p * limit, 2 * limit)
  {
    assert (p + 1) * limit == p * limit + limit;
    AdjacentWindows(s, p * limit, limit);
  }
}
