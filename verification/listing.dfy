/** Keyset pagination over an organisation's documents, while documents are being inserted. */
module Listing {
  import opened Model
  import opened Cursor

  datatype Doc = Doc(id: nat, createdAt: int, org: nat, filename: string, email: string, status: DocumentStatus)

  datatype Item = Item(id: nat, filename: string, uploadedBy: string, status: DocumentStatus, createdAt: int)

  datatype Page = Page(items: seq<Item>, nextCursor: Option<string>)

  // ---- the query ----

  function KeyOf(d: Doc): Key { (d.createdAt, d.id) }

  /** SQL's row-value `a < b`. */
  predicate Below(a: Key, b: Key) {
    a.0 < b.0 || (a.0 == b.0 && a.1 < b.1)
  }

  predicate Selects(org: nat, after: Option<Key>, d: Doc) {
    d.org == org && (after.Some? ==> Below(KeyOf(d), after.value))
  }

  function Where(table: seq<Doc>, org: nat, after: Option<Key>): (r: seq<Doc>)
    ensures forall d :: d in r <==> d in table && Selects(org, after, d)
  {
    if table == [] then []
    else
      var rest := Where(table[1..], org, after);
      if Selects(org, after, table[0]) then [table[0]] + rest else rest
  }

  /** The primary key. */
  ghost predicate DistinctIds(table: seq<Doc>) {
    forall i, j :: 0 <= i < j < |table| ==> table[i].id != table[j].id
  }

  lemma {:induction false} WhereKeepsIds(table: seq<Doc>, org: nat, after: Option<Key>)
    requires DistinctIds(table)
    ensures DistinctIds(Where(table, org, after))
  {
    if table != [] {
      var rest := Where(table[1..], org, after);
      WhereKeepsIds(table[1..], org, after);
      forall i | 0 <= i < |rest| ensures rest[i].id != table[0].id {
        assert rest[i] in table[1..];
      }
    }
  }

  function Insert(d: Doc, sorted: seq<Doc>): (r: seq<Doc>)
    ensures |r| == |sorted| + 1
    ensures forall e :: e in r <==> e == d || e in sorted
  {
    if sorted == [] || Below(KeyOf(sorted[0]), KeyOf(d)) then [d] + sorted
    else [sorted[0]] + Insert(d, sorted[1..])
  }

  /** `ORDER BY created_at DESC, id DESC` */
  function OrderBy(docs: seq<Doc>): (r: seq<Doc>)
    ensures |r| == |docs|
    ensures forall e :: e in r <==> e in docs
  {
    if docs == [] then [] else Insert(docs[0], OrderBy(docs[1..]))
  }

  function Limited<T>(s: seq<T>, limit: nat): seq<T> {
    if |s| <= limit then s else s[..limit]
  }

  /** All matching rows, newest first. */
  function Matches(table: seq<Doc>, org: nat, after: Option<Key>): seq<Doc> {
    OrderBy(Where(table, org, after))
  }

  /** `list_org_documents` */
  function ListOrgDocuments(table: seq<Doc>, org: nat, limit: nat, after: Option<Key>): seq<Doc> {
    Limited(Matches(table, org, after), limit)
  }

  // ---- order ----

  function KeysOf(docs: seq<Doc>): seq<Key> {
    seq(|docs|, i requires 0 <= i < |docs| => KeyOf(docs[i]))
  }

  ghost predicate Descending(keys: seq<Key>) {
    forall i, j :: 0 <= i < j < |keys| ==> Below(keys[j], keys[i])
  }

  ghost predicate AllBelow(keys: seq<Key>, bound: Option<Key>) {
    bound.Some? ==> forall i :: 0 <= i < |keys| ==> Below(keys[i], bound.value)
  }

  lemma {:induction false} InsertDescends(d: Doc, sorted: seq<Doc>)
    requires Descending(KeysOf(sorted)) && forall e :: e in sorted ==> e.id != d.id
    ensures Descending(KeysOf(Insert(d, sorted)))
  {
    var r := Insert(d, sorted);
    if sorted == [] || Below(KeyOf(sorted[0]), KeyOf(d)) {
      assert forall i :: 0 < i < |r| ==> KeysOf(r)[i] == KeysOf(sorted)[i-1];
      assert forall i :: 0 < i < |sorted| ==> Below(KeysOf(sorted)[i], KeysOf(sorted)[0]);
    } else {
      var rest := Insert(d, sorted[1..]);
      TailDescends(sorted);
      InsertDescends(d, sorted[1..]);
      assert d.id != sorted[0].id;
      forall i | 0 <= i < |rest| ensures Below(KeyOf(rest[i]), KeyOf(sorted[0])) {
        assert rest[i] in rest;
        if rest[i] != d {
          var j :| 0 <= j < |sorted[1..]| && sorted[1..][j] == rest[i];
          assert Below(KeysOf(sorted)[j+1], KeysOf(sorted)[0]);
        }
      }
      ConsDescends(sorted[0], rest);
    }
  }

  lemma TailDescends(docs: seq<Doc>)
    requires docs != [] && Descending(KeysOf(docs))
    ensures Descending(KeysOf(docs[1..]))
  {
    assert forall i :: 0 <= i < |docs[1..]| ==> KeysOf(docs[1..])[i] == KeysOf(docs)[i+1];
  }

  lemma ConsDescends(d: Doc, docs: seq<Doc>)
    requires Descending(KeysOf(docs)) && forall i :: 0 <= i < |docs| ==> Below(KeyOf(docs[i]), KeyOf(d))
    ensures Descending(KeysOf([d] + docs))
  {
    var r := [d] + docs;
    assert forall i :: 0 < i < |r| ==> KeysOf(r)[i] == KeysOf(docs)[i-1];
    assert forall i :: 0 <= i < |docs| ==> KeysOf(docs)[i] == KeyOf(docs[i]);
  }

  lemma {:induction false} OrderByDescends(docs: seq<Doc>)
    requires DistinctIds(docs)
    ensures Descending(KeysOf(OrderBy(docs)))
    ensures var sorted := OrderBy(docs); forall i, j :: 0 <= i < j < |sorted| ==>
      sorted[i].createdAt > sorted[j].createdAt
      || (sorted[i].createdAt == sorted[j].createdAt && sorted[i].id > sorted[j].id)
  {
    if docs != [] {
      OrderByDescends(docs[1..]);
      forall e | e in OrderBy(docs[1..]) ensures e.id != docs[0].id {
        var j :| 0 <= j < |docs[1..]| && docs[1..][j] == e;
        assert docs[j+1].id != docs[0].id;
      }
      InsertDescends(docs[0], OrderBy(docs[1..]));
    }
    DescendingDocs(OrderBy(docs));
  }

  lemma DescendingDocs(docs: seq<Doc>)
    requires Descending(KeysOf(docs))
    ensures forall i, j :: 0 <= i < j < |docs| ==>
      docs[i].createdAt > docs[j].createdAt || (docs[i].createdAt == docs[j].createdAt && docs[i].id > docs[j].id)
  {
    forall i, j | 0 <= i < j < |docs|
      ensures docs[i].createdAt > docs[j].createdAt
           || (docs[i].createdAt == docs[j].createdAt && docs[i].id > docs[j].id)
    {
      assert Below(KeysOf(docs)[j], KeysOf(docs)[i]);
    }
  }

  lemma MatchesDescend(table: seq<Doc>, org: nat, after: Option<Key>)
    requires DistinctIds(table)
    ensures Descending(KeysOf(Matches(table, org, after)))
  {
    WhereKeepsIds(table, org, after);
    OrderByDescends(Where(table, org, after));
  }

  /** Keys determine documents, so sorted lists of the same documents are the same list. */
  lemma {:induction false} SortedListsAgree(a: seq<Doc>, b: seq<Doc>)
    requires Descending(KeysOf(a)) && Descending(KeysOf(b))
    requires forall d :: d in a <==> d in b
    ensures a == b
  {
    if a == [] || b == [] {
      MembersOrEmpty(a);
      MembersOrEmpty(b);
    } else {
      assert a[0] in b;
      FirstIsGreatest(a, b[0]);
      FirstIsGreatest(b, a[0]);
      TailDescends(a);
      TailDescends(b);
      TailMembers(a);
      TailMembers(b);
      SortedListsAgree(a[1..], b[1..]);
      assert a == [a[0]] + a[1..] && b == [b[0]] + b[1..];
    }
  }

  lemma MembersOrEmpty(docs: seq<Doc>)
    ensures docs == [] || exists d :: d in docs
  {
    if docs != [] {
      assert docs[0] in docs;
    }
  }

  lemma FirstIsGreatest(docs: seq<Doc>, d: Doc)
    requires Descending(KeysOf(docs)) && d in docs
    ensures d == docs[0] || Below(KeyOf(d), KeyOf(docs[0]))
  {
    var i :| 0 <= i < |docs| && docs[i] == d;
    if i > 0 {
      assert Below(KeysOf(docs)[i], KeysOf(docs)[0]);
    }
  }

  lemma TailMembers(docs: seq<Doc>)
    requires docs != [] && Descending(KeysOf(docs))
    ensures forall d :: d in docs[1..] <==> d in docs && d != docs[0]
  {
    forall d | d in docs[1..] ensures d in docs && d != docs[0] {
      var i :| 0 <= i < |docs[1..]| && docs[1..][i] == d;
      assert Below(KeysOf(docs)[i+1], KeysOf(docs)[0]);
    }
  }

  // ---- one page ----

  function ItemOf(d: Doc): Item {
    Item(d.id, d.filename, d.email, d.status, d.createdAt)
  }

  function ItemsOf(docs: seq<Doc>): seq<Item> {
    seq(|docs|, i requires 0 <= i < |docs| => ItemOf(docs[i]))
  }

  /** `b` was created before `a`, or at the same time with a smaller id. */
  ghost predicate Newer(a: Item, b: Item) {
    a.createdAt > b.createdAt || (a.createdAt == b.createdAt && a.id > b.id)
  }

  ghost predicate NewestFirst(items: seq<Item>) {
    forall i, j :: 0 <= i < j < |items| ==> Newer(items[i], items[j])
  }

  /** The document, column by column. */
  ghost predicate Describes(item: Item, d: Doc) {
    && item.id == d.id && item.createdAt == d.createdAt && item.filename == d.filename
    && item.uploadedBy == d.email && item.status == d.status
  }

  /** Row `d` of the organisation is due on this page or a later one: it is older than the cursor. */
  ghost predicate Due(org: nat, after: Option<Key>, d: Doc) {
    && d.org == org
    && (after.Some? ==> d.createdAt < after.value.0 || (d.createdAt == after.value.0 && d.id < after.value.1))
  }

  lemma ItemsDescend(all: seq<Doc>, limit: nat)
    requires Descending(KeysOf(all))
    ensures NewestFirst(ItemsOf(Limited(all, limit)))
  {
    var items := ItemsOf(Limited(all, limit));
    forall i, j | 0 <= i < j < |items| ensures Newer(items[i], items[j]) {
      assert Below(KeysOf(all)[j], KeysOf(all)[i]);
    }
  }

  /** What a page holds, in plain terms: rows that are due, newest first, and every due row that it leaves out
      is older than all of its items. */
  lemma PageIsNewestFirst(f: Formats, table: seq<Doc>, org: nat, limit: nat, after: Option<Key>, d: Doc)
    requires Lawful(f) && limit >= 1 && DistinctIds(table) && d in table
    ensures var items := PageAfter(f, table, org, limit, after).items;
      && NewestFirst(items) && |items| <= limit
      && (Due(org, after, d) ==>
            || (exists i :: 0 <= i < |items| && Describes(items[i], d))
            || (|items| == limit && forall i :: 0 <= i < |items| ==>
                  items[i].createdAt > d.createdAt || (items[i].createdAt == d.createdAt && items[i].id > d.id)))
      && (!Due(org, after, d) ==> forall i :: 0 <= i < |items| ==> items[i].id != d.id)
  {
    var all := Matches(table, org, after);
    var items := ItemsOf(Limited(all, limit));
    MatchesDescend(table, org, after);
    ItemsDescend(all, limit);
    if Due(org, after, d) {
      assert d in all;
      var k :| 0 <= k < |all| && all[k] == d;
      if k < |items| {
        assert Describes(items[k], d);
      } else {
        forall i | 0 <= i < |items|
          ensures items[i].createdAt > d.createdAt || (items[i].createdAt == d.createdAt && items[i].id > d.id)
        {
          assert Below(KeysOf(all)[k], KeysOf(all)[i]);
        }
      }
    } else {
      forall i | 0 <= i < |items| ensures items[i].id != d.id {
        assert all[i] in all;
        OthersHaveOtherIds(table, all[i], d);
      }
    }
  }

  lemma OthersHaveOtherIds(table: seq<Doc>, d: Doc, e: Doc)
    requires DistinctIds(table) && d in table && e in table && d != e
    ensures d.id != e.id
  {}

  /** What a cursor parameter asks for: `Some(None)` is the first page, `None` is a ValueError. */
  function AfterOf(f: Formats, cursor: Option<string>): Option<Option<Key>> {
    if cursor == None || cursor.value == "" then Some(None)
    else match DecodeCursor(f, cursor.value)
      case None => None
      case Some(key) => Some(Some(key))
  }

  /** The page that starts after `after`, in terms of everything that matches. */
  ghost function PageAfter(f: Formats, table: seq<Doc>, org: nat, limit: nat, after: Option<Key>): Page
    requires Lawful(f) && limit >= 1
  {
    var all := Matches(table, org, after);
    Page(ItemsOf(Limited(all, limit)),
         if |all| <= limit then None
         else (CursorRoundTrip(f, KeyOf(all[limit-1])); Some(EncodeCursor(f, KeyOf(all[limit-1])))))
  }

  ghost function Fetched(f: Formats, table: seq<Doc>, org: nat, limit: nat, cursor: Option<string>): Option<Page>
    requires Lawful(f) && limit >= 1
  {
    match AfterOf(f, cursor)
    case None => None
    case Some(after) => Some(PageAfter(f, table, org, limit, after))
  }

  /** `list_documents`: one row more than the page holds tells whether another page exists. `None` is the
      ValueError of a malformed cursor. */
  method ListDocuments(f: Formats, table: seq<Doc>, org: nat, limit: nat, cursor: Option<string>)
    returns (page: Option<Page>)
    requires Lawful(f) && limit >= 1
    ensures page == Fetched(f, table, org, limit, cursor)
    ensures page == None <==> cursor.Some? && cursor.value != "" && DecodeCursor(f, cursor.value) == None
    ensures page.Some? && DistinctIds(table) ==> NewestFirst(page.value.items)
  {
    hide DecodeCursor, EncodeCursor, RawCursor, Where, OrderBy, Lawful, NewestFirst, DistinctIds;
    var after := None;
    if cursor.Some? && cursor.value != "" {
      after := DecodeCursor(f, cursor.value);
      if after == None {
        return None;
      }
    }
    ghost var all := Matches(table, org, after);
    var rows := ListOrgDocuments(table, org, limit + 1, after);
    var hasMore := |rows| > limit;
    if |rows| > limit {
      rows := rows[..limit];
    }
    assert rows == Limited(all, limit);
    var items := [];
    for i := 0 to |rows|
      invariant items == ItemsOf(rows[..i])
    {
      items := items + [ItemOf(rows[i])];
    }
    assert rows[..|rows|] == rows;
    var nextCursor := None;
    if hasMore {
      var key := KeyOf(rows[|rows|-1]);
      CursorRoundTrip(f, key);
      nextCursor := Some(EncodeCursor(f, key));
    }
    page := Some(Page(items, nextCursor));
    if DistinctIds(table) {
      MatchesDescend(table, org, after);
      ItemsDescend(all, limit);
    }
  }

  // ---- walks ----

  function PageKeys(page: Page): seq<Key> {
    seq(|page.items|, i requires 0 <= i < |page.items| => (page.items[i].createdAt, page.items[i].id))
  }

  function WalkKeys(pages: seq<Page>): seq<Key> {
    if pages == [] then [] else PageKeys(pages[0]) + WalkKeys(pages[1..])
  }

  function WalkItems(pages: seq<Page>): seq<Item> {
    if pages == [] then [] else pages[0].items + WalkItems(pages[1..])
  }

  /** Rows are inserted and updated, but keep their id, creation time and organisation, and none is deleted. */
  ghost predicate Grows(table: seq<Doc>, table': seq<Doc>) {
    forall d :: d in table ==> Persists(d, table')
  }

  ghost predicate Persists(d: Doc, table: seq<Doc>) {
    exists d' :: d' in table && KeyOf(d') == KeyOf(d) && d'.org == d.org
  }

  /** A client fetches `pages` one after another, following next_cursor, from the table as it stands then. */
  ghost predicate IsWalk(f: Formats, org: nat, limit: nat, tables: seq<seq<Doc>>, cursor: Option<string>,
                         pages: seq<Page>)
    requires Lawful(f) && limit >= 1
  {
    && |tables| == |pages| > 0
    && DistinctIds(tables[0])
    && Fetched(f, tables[0], org, limit, cursor) == Some(pages[0])
    && (|pages| > 1 ==>
          && pages[0].nextCursor.Some?
          && Grows(tables[0], tables[1])
          && IsWalk(f, org, limit, tables[1..], pages[0].nextCursor, pages[1..]))
  }

  ghost predicate Finished(pages: seq<Page>) {
    pages != [] && pages[|pages|-1].nextCursor == None
  }

  /** What a page holds, given where it starts. */
  lemma PageFacts(f: Formats, table: seq<Doc>, org: nat, limit: nat, after: Option<Key>)
    requires Lawful(f) && limit >= 1 && DistinctIds(table)
    ensures var all, page := Matches(table, org, after), PageAfter(f, table, org, limit, after);
      && Descending(KeysOf(all)) && AllBelow(KeysOf(all), after)
      && PageKeys(page) == KeysOf(Limited(all, limit))
      && (page.nextCursor.Some? <==> |all| > limit)
      && (|all| > limit ==> AfterOf(f, page.nextCursor) == Some(Some(KeyOf(all[limit-1]))))
  {
    var all, page := Matches(table, org, after), PageAfter(f, table, org, limit, after);
    MatchesDescend(table, org, after);
    forall i | 0 <= i < |all| && after.Some? ensures Below(KeysOf(all)[i], after.value) {
      assert all[i] in all;
    }
    if |all| > limit {
      CursorRoundTrip(f, KeyOf(all[limit-1]));
    }
  }

  /** Two runs of descending keys, the second below the last key of the first. */
  lemma AppendDescends(a: seq<Key>, b: seq<Key>, bound: Option<Key>)
    requires a != [] && Descending(a) && AllBelow(a, bound)
    requires Descending(b) && AllBelow(b, Some(a[|a|-1]))
    ensures Descending(a + b) && AllBelow(a + b, bound)
  {
    var c := a + b;
    forall i, j | 0 <= i < j < |c| ensures Below(c[j], c[i]) {
      if i < |a| <= j {
        assert Below(b[j - |a|], a[|a|-1]);
        assert i == |a| - 1 || Below(a[|a|-1], a[i]);
      }
    }
    forall i | 0 <= i < |c| && bound.Some? ensures Below(c[i], bound.value) {
      if i >= |a| {
        assert Below(b[i - |a|], a[|a|-1]) && Below(a[|a|-1], bound.value);
      }
    }
  }

  lemma LimitedDescends(all: seq<Doc>, limit: nat, after: Option<Key>)
    requires Descending(KeysOf(all)) && AllBelow(KeysOf(all), after)
    ensures Descending(KeysOf(Limited(all, limit))) && AllBelow(KeysOf(Limited(all, limit)), after)
  {
    assert forall i :: 0 <= i < |Limited(all, limit)| ==> KeysOf(Limited(all, limit))[i] == KeysOf(all)[i];
  }

  lemma LastOfFullPage(all: seq<Doc>, limit: nat)
    requires 1 <= limit < |all|
    ensures var keys := KeysOf(Limited(all, limit)); keys != [] && keys[|keys|-1] == KeyOf(all[limit-1])
  {}

  lemma {:induction false} WalkDescendsFrom(f: Formats, org: nat, limit: nat, tables: seq<seq<Doc>>,
                                            cursor: Option<string>, after: Option<Key>, pages: seq<Page>)
    requires Lawful(f) && limit >= 1 && IsWalk(f, org, limit, tables, cursor, pages)
    requires AfterOf(f, cursor) == Some(after)
    ensures Descending(WalkKeys(pages)) && AllBelow(WalkKeys(pages), after)
    decreases |pages|
  {
    hide Descending, AllBelow, DistinctIds, OrderBy, Where;
    var all := Matches(tables[0], org, after);
    PageFacts(f, tables[0], org, limit, after);
    LimitedDescends(all, limit, after);
    if |pages| == 1 {
      assert WalkKeys(pages) == PageKeys(pages[0]) + WalkKeys([]) == PageKeys(pages[0]);
    } else {
      var last := KeyOf(all[limit-1]);
      WalkDescendsFrom(f, org, limit, tables[1..], pages[0].nextCursor, Some(last), pages[1..]);
      LastOfFullPage(all, limit);
      AppendDescends(PageKeys(pages[0]), WalkKeys(pages[1..]), after);
    }
  }

  lemma LaterIsBelow(docs: seq<Doc>, i: nat, j: nat)
    requires Descending(KeysOf(docs)) && i < j < |docs|
    ensures Below(KeyOf(docs[j]), KeyOf(docs[i]))
  {
    assert Below(KeysOf(docs)[j], KeysOf(docs)[i]);
  }

  lemma {:induction false} WalkCoversFrom(f: Formats, org: nat, limit: nat, tables: seq<seq<Doc>>,
                                          cursor: Option<string>, after: Option<Key>, pages: seq<Page>, d: Doc)
    requires Lawful(f) && limit >= 1 && IsWalk(f, org, limit, tables, cursor, pages)
    requires AfterOf(f, cursor) == Some(after)
    requires Finished(pages) && d in tables[0] && Selects(org, after, d)
    ensures KeyOf(d) in WalkKeys(pages)
    decreases |pages|
  {
    hide Descending, AllBelow, DistinctIds, OrderBy;
    var all := Matches(tables[0], org, after);
    PageFacts(f, tables[0], org, limit, after);
    assert d in all;
    var i :| 0 <= i < |all| && all[i] == d;
    if i < |Limited(all, limit)| {
      assert PageKeys(pages[0])[i] == KeyOf(d);
    } else {
      var last := KeyOf(all[limit-1]);
      LaterIsBelow(all, limit - 1, i);
      assert Persists(d, tables[1]);
      var d' :| d' in tables[1] && KeyOf(d') == KeyOf(d) && d'.org == d.org;
      WalkCoversFrom(f, org, limit, tables[1..], pages[0].nextCursor, Some(last), pages[1..], d');
    }
  }

  lemma {:induction false} DescendingOnce(keys: seq<Key>, k: Key)
    requires Descending(keys) && k in keys
    ensures multiset(keys)[k] == 1
  {
    assert keys == [keys[0]] + keys[1..];
    if keys[0] == k {
      assert forall i :: 0 < i < |keys| ==> Below(keys[i], keys[0]);
    } else {
      DescendingOnce(keys[1..], k);
    }
  }

  /** While rows are being inserted, following next_cursor shows strictly decreasing keys, and every
      document of the organisation that existed at the first page exactly once. */
  lemma WalkSeesEachDocumentOnce(f: Formats, org: nat, limit: nat, tables: seq<seq<Doc>>, pages: seq<Page>)
    requires Lawful(f) && limit >= 1 && IsWalk(f, org, limit, tables, None, pages)
    ensures Descending(WalkKeys(pages)) && NewestFirst(WalkItems(pages))
    ensures Finished(pages) ==>
      forall d :: d in tables[0] && d.org == org ==> multiset(WalkKeys(pages))[KeyOf(d)] == 1
  {
    hide NewestFirst;
    WalkDescendsFrom(f, org, limit, tables, None, None, pages);
    WalkIsNewestFirst(f, org, limit, tables, None, pages);
    if Finished(pages) {
      forall d | d in tables[0] && d.org == org ensures multiset(WalkKeys(pages))[KeyOf(d)] == 1 {
        WalkCoversFrom(f, org, limit, tables, None, None, pages, d);
        DescendingOnce(WalkKeys(pages), KeyOf(d));
      }
    }
  }

  /** Every item shows a document of the organisation, column by column, as it was stored when its page was
      fetched. */
  lemma {:induction false} WalkShowsOwnDocuments(f: Formats, org: nat, limit: nat, tables: seq<seq<Doc>>,
                                                 cursor: Option<string>, pages: seq<Page>, k: nat, i: nat)
    requires Lawful(f) && limit >= 1 && IsWalk(f, org, limit, tables, cursor, pages)
    requires k < |pages| && i < |pages[k].items|
    ensures DistinctIds(tables[k])
    ensures exists d :: d in tables[k] && d.org == org && Describes(pages[k].items[i], d)
    decreases |pages|
  {
    if k > 0 {
      WalkShowsOwnDocuments(f, org, limit, tables[1..], pages[0].nextCursor, pages[1..], k - 1, i);
    } else {
      var all := Matches(tables[0], org, AfterOf(f, cursor).value);
      assert all[i] in all;
      assert Describes(pages[0].items[i], all[i]);
    }
  }

  // ---- newest first, over whole walks ----

  lemma {:induction false} WalkKeysAreItems(pages: seq<Page>, i: nat)
    requires i < |WalkItems(pages)|
    ensures |WalkKeys(pages)| == |WalkItems(pages)|
    ensures WalkKeys(pages)[i] == (WalkItems(pages)[i].createdAt, WalkItems(pages)[i].id)
  {
    WalkLengths(pages);
    if i >= |pages[0].items| {
      WalkKeysAreItems(pages[1..], i - |pages[0].items|);
    }
  }

  lemma {:induction false} WalkLengths(pages: seq<Page>)
    ensures |WalkKeys(pages)| == |WalkItems(pages)|
  {
    if pages != [] {
      WalkLengths(pages[1..]);
    }
  }

  /** A walk shows newer documents before older ones, over all its pages, while rows are being inserted. */
  lemma WalkIsNewestFirst(f: Formats, org: nat, limit: nat, tables: seq<seq<Doc>>, cursor: Option<string>,
                          pages: seq<Page>)
    requires Lawful(f) && limit >= 1 && IsWalk(f, org, limit, tables, cursor, pages)
    ensures NewestFirst(WalkItems(pages))
  {
    WalkDescendsFrom(f, org, limit, tables, cursor, AfterOf(f, cursor).value, pages);
    var items := WalkItems(pages);
    forall i, j | 0 <= i < j < |items| ensures Newer(items[i], items[j]) {
      WalkKeysAreItems(pages, i);
      WalkKeysAreItems(pages, j);
    }
  }

  lemma {:induction false} ItemIsInWalk(pages: seq<Page>, m: nat, i: nat) returns (at: nat)
    requires m < |pages| && i < |pages[m].items|
    ensures i <= at < |WalkItems(pages)| && WalkItems(pages)[at] == pages[m].items[i]
    ensures m > 0 ==> at >= |pages[0].items|
  {
    if m == 0 {
      at := i;
    } else {
      var rest := ItemIsInWalk(pages[1..], m - 1, i);
      at := |pages[0].items| + rest;
    }
  }

  /** Each item of a later page is older than each item of an earlier one. */
  lemma {:induction false} LaterPagesAreOlder(f: Formats, org: nat, limit: nat, tables: seq<seq<Doc>>,
                                              cursor: Option<string>, pages: seq<Page>, k: nat, m: nat, i: nat, j: nat)
    requires Lawful(f) && limit >= 1 && IsWalk(f, org, limit, tables, cursor, pages)
    requires k < m < |pages| && i < |pages[k].items| && j < |pages[m].items|
    ensures Newer(pages[k].items[i], pages[m].items[j])
    decreases |pages|
  {
    if k == 0 {
      WalkIsNewestFirst(f, org, limit, tables, cursor, pages);
      var at := ItemIsInWalk(pages, m, j);
      assert WalkItems(pages)[i] == pages[0].items[i];
    } else {
      LaterPagesAreOlder(f, org, limit, tables[1..], pages[0].nextCursor, pages[1..], k - 1, m - 1, i, j);
    }
  }

  /** A document that is newer than what a page ended with, inserted at whatever time, is on no later page: a
      walk goes back in time only, and insertions do not shift it. */
  lemma NewcomersStayAway(f: Formats, org: nat, limit: nat, tables: seq<seq<Doc>>, cursor: Option<string>,
                          pages: seq<Page>, k: nat, m: nat, d: Doc, j: nat)
    requires Lawful(f) && limit >= 1 && IsWalk(f, org, limit, tables, cursor, pages)
    requires k < m < |pages| && pages[k].items != [] && d in tables[m] && j < |pages[m].items|
    requires d.createdAt > pages[k].items[|pages[k].items|-1].createdAt
    ensures pages[m].items[j].id != d.id
  {
    LaterPagesAreOlder(f, org, limit, tables, cursor, pages, k, m, |pages[k].items| - 1, j);
    WalkShowsOwnDocuments(f, org, limit, tables, cursor, pages, m, j);
    var e :| e in tables[m] && e.org == org && Describes(pages[m].items[j], e);
    OthersHaveOtherIds(tables[m], d, e);
  }

  // ---- a table that stands still ----

  /** The number of pages that `n` rows fill. */
  function PagesFor(n: nat, limit: nat): nat
    requires limit >= 1
  {
    if n == 0 then 1 else (n + limit - 1) / limit
  }

  lemma OnePageMore(n: nat, limit: nat)
    requires 1 <= limit < n
    ensures PagesFor(n, limit) == 1 + PagesFor(n - limit, limit)
  {
    DivideMore(n - 1, limit);
  }

  lemma DivideMore(x: nat, d: nat)
    requires 1 <= d
    ensures (x + d) / d == x / d + 1
  {
    var q := x / d;
    assert x == d * q + x % d;
    assert x + d == d * (q + 1) + x % d;
    Quotient(x + d, d, q + 1, x % d);
  }

  lemma Quotient(x: nat, d: nat, q: nat, r: nat)
    requires x == d * q + r && r < d
    ensures x / d == q
  {
    var p := x / d;
    assert d * p + x % d == x;
    assert d * (p - q) == d * p - d * q;
    SmallMultiple(d, p - q);
  }

  lemma SmallMultiple(d: nat, k: int)
    requires 0 - d < d * k < d
    ensures k == 0
  {
    if k >= 1 {
      Larger(d, k);
    } else if k <= -1 {
      assert d * -k == -(d * k);
      Larger(d, -k);
    }
  }

  lemma Larger(d: nat, k: nat)
    requires k >= 1
    ensures d * k >= d
  {}

  lemma OnePage(n: nat, limit: nat)
    requires 1 <= limit && n <= limit
    ensures PagesFor(n, limit) == 1
  {
    if n > 0 {
      Quotient(n + limit - 1, limit, 1, n - 1);
    }
  }

  /** What matches after the last row of a page is what was left of this page's matches. */
  lemma RestMatches(table: seq<Doc>, org: nat, after: Option<Key>, n: nat)
    requires DistinctIds(table) && 0 < n <= |Matches(table, org, after)|
    ensures Matches(table, org, Some(KeyOf(Matches(table, org, after)[n-1]))) == Matches(table, org, after)[n..]
  {
    var all := Matches(table, org, after);
    var last := KeyOf(all[n-1]);
    var rest := Matches(table, org, Some(last));
    MatchesDescend(table, org, after);
    MatchesDescend(table, org, Some(last));
    var tail := all[n..];
    forall i, j | 0 <= i < j < |tail| ensures Below(KeysOf(tail)[j], KeysOf(tail)[i]) {
      assert Below(KeysOf(all)[n+j], KeysOf(all)[n+i]);
    }
    forall d | d in tail ensures d in rest {
      var i :| 0 <= i < |tail| && tail[i] == d;
      assert all[n+i] in all && Below(KeysOf(all)[n+i], KeysOf(all)[n-1]);
    }
    forall d | d in rest ensures d in tail {
      BelowIsSelected(table, org, after, all[n-1], d);
      assert d in all;
      var i :| 0 <= i < |all| && all[i] == d;
      BelowComesLater(KeysOf(all), n - 1, i);
      assert tail[i-n] == d;
    }
    SortedListsAgree(rest, tail);
  }

  lemma BelowComesLater(keys: seq<Key>, i: nat, j: nat)
    requires Descending(keys) && i < |keys| && j < |keys| && Below(keys[j], keys[i])
    ensures j > i
  {}

  lemma BelowIsSelected(table: seq<Doc>, org: nat, after: Option<Key>, last: Doc, d: Doc)
    requires last in Matches(table, org, after) && d in Matches(table, org, Some(KeyOf(last)))
    ensures d in table && Selects(org, after, d)
  {}

  /** Where a walk over one table stands, when `all` was what matched its first page. */
  ghost predicate FixedOutcome(all: seq<Doc>, limit: nat, pages: seq<Page>)
    requires limit >= 1
  {
    && |pages| <= PagesFor(|all|, limit)
    && (Finished(pages) <==> |pages| == PagesFor(|all|, limit))
    && (Finished(pages) ==> WalkItems(pages) == ItemsOf(all))
  }

  lemma {:induction false} FixedWalkFrom(f: Formats, org: nat, limit: nat, table: seq<Doc>, tables: seq<seq<Doc>>,
                                         cursor: Option<string>, after: Option<Key>, pages: seq<Page>)
    requires Lawful(f) && limit >= 1 && IsWalk(f, org, limit, tables, cursor, pages)
    requires AfterOf(f, cursor) == Some(after)
    requires forall k :: 0 <= k < |tables| ==> tables[k] == table
    ensures FixedOutcome(Matches(table, org, after), limit, pages)
    decreases |pages|
  {
    var all := Matches(table, org, after);
    PageFacts(f, table, org, limit, after);
    if |all| <= limit {
      LastPage(all, limit, pages);
    } else if |pages| == 1 {
      FirstPage(all, limit, pages);
    } else {
      RestMatches(table, org, after, limit);
      FixedWalkFrom(f, org, limit, table, tables[1..], pages[0].nextCursor, Some(KeyOf(all[limit-1])), pages[1..]);
      PageThenRest(all, limit, pages);
    }
  }

  lemma LastPage(all: seq<Doc>, limit: nat, pages: seq<Page>)
    requires limit >= 1 && |all| <= limit && |pages| == 1 && pages[0] == Page(ItemsOf(all), None)
    ensures FixedOutcome(all, limit, pages)
  {
    OnePage(|all|, limit);
    assert WalkItems(pages) == pages[0].items + WalkItems([]);
  }

  lemma FirstPage(all: seq<Doc>, limit: nat, pages: seq<Page>)
    requires limit >= 1 && |all| > limit && |pages| == 1 && pages[0].nextCursor.Some?
    ensures FixedOutcome(all, limit, pages)
  {
    OnePageMore(|all|, limit);
    OnePageAtLeast(|all| - limit, limit);
  }

  lemma PageThenRest(all: seq<Doc>, limit: nat, pages: seq<Page>)
    requires limit >= 1 && |all| > limit && |pages| > 1 && pages[0].items == ItemsOf(all[..limit])
    requires FixedOutcome(all[limit..], limit, pages[1..])
    ensures FixedOutcome(all, limit, pages)
  {
    OnePageMore(|all|, limit);
    assert ItemsOf(all[..limit]) + ItemsOf(all[limit..]) == ItemsOf(all);
  }

  lemma OnePageAtLeast(n: nat, limit: nat)
    requires limit >= 1
    ensures PagesFor(n, limit) >= 1
  {
    if n > limit {
      OnePageMore(n, limit);
    } else {
      OnePage(n, limit);
    }
  }

  /** On a fixed table the pages concatenate to the sorted list, in max(1, ceil(n / limit)) pages: a walk
      is finished exactly when it has that many. */
  lemma FixedTableWalk(f: Formats, org: nat, limit: nat, table: seq<Doc>, tables: seq<seq<Doc>>, pages: seq<Page>)
    requires Lawful(f) && limit >= 1 && IsWalk(f, org, limit, tables, None, pages)
    requires forall k :: 0 <= k < |tables| ==> tables[k] == table
    ensures NewestFirst(ItemsOf(Matches(table, org, None)))
    ensures forall d :: d in Matches(table, org, None) <==> d in table && d.org == org
    ensures FixedOutcome(Matches(table, org, None), limit, pages)
  {
    MatchesDescend(table, org, None);
    ItemsDescend(Matches(table, org, None), |Matches(table, org, None)|);
    FixedWalkFrom(f, org, limit, table, tables, None, None, pages);
  }
}
