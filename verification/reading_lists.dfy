/** src/components/pages/ReadingLists.jsx: fetching the lists with their books
    in `order`, creating and deleting lists, removing a book, and the
    drag-and-drop reorder with its rollback. */
module ReadingLists {
  import opened Wrappers
  import opened Json
  import opened Http
  import opened Ui
  import opened Seqs

  /** A book inside a reading list: the entry's id, its position `order`,
      and `book_details.id`, the catalogue book it refers to. */
  datatype Entry = Entry(id: int, order: int, bookId: int)

  /** A list as the server sends it: `books` may be missing. */
  datatype RawList = RawList(id: int, name: string, books: Option<seq<Entry>>)

  /** A list as the page holds it. */
  datatype ReadingList = ReadingList(id: int, name: string, books: seq<Entry>)

  /** What the drag-and-drop library reports: the source index and, unless
      the book was dropped outside the list, the destination index. */
  datatype DropResult = DropResult(source: int, destination: Option<int>)

  const ListsPath := "/reading-lists/"

  // ---------------------------------------------------------------------
  // Sorting by `order` (ReadingLists.jsx:24)
  // ---------------------------------------------------------------------

  ghost predicate SortedByOrder(s: seq<Entry>)
  {
    forall i, j :: 0 <= i < j < |s| ==> s[i].order <= s[j].order
  }

  /** The entries whose `order` is `k`, in sequence order. */
  function WithOrder(s: seq<Entry>, k: int): seq<Entry>
  {
    Keep(s, HasOrder(k))
  }

  function HasOrder(k: int): Entry -> bool
  {
    (e: Entry) => e.order == k
  }

  /** Swapping two neighbours of different `order` leaves, for every `k`,
      the entries of order `k` in the same relative order. */
  lemma SwapKeepsWithOrder(s: seq<Entry>, j: int, k: int)
    requires 0 < j < |s| && s[j - 1].order != s[j].order
    ensures WithOrder(s[j - 1 := s[j]][j := s[j - 1]], k) == WithOrder(s, k)
  {
    var t := s[j - 1 := s[j]][j := s[j - 1]];
    var p := HasOrder(k);
    assert s == s[..j - 1] + ([s[j - 1], s[j]] + s[j + 1..]);
    assert t == s[..j - 1] + ([s[j], s[j - 1]] + s[j + 1..]);
    KeepAppend(s[..j - 1], [s[j - 1], s[j]] + s[j + 1..], p);
    KeepAppend(s[..j - 1], [s[j], s[j - 1]] + s[j + 1..], p);
    KeepAppend([s[j - 1], s[j]], s[j + 1..], p);
    KeepAppend([s[j], s[j - 1]], s[j + 1..], p);
    assert Keep([s[j - 1], s[j]], p) == Keep([s[j], s[j - 1]], p);
  }

  /** `t` holds the entries of `s`, and entries of equal `order` keep their
      relative order: what a stable sort may do to `s`. */
  ghost predicate Rearranged(t: seq<Entry>, s: seq<Entry>)
  {
    multiset(t) == multiset(s) && forall k :: WithOrder(t, k) == WithOrder(s, k)
  }

  lemma RearrangedTransitive(a: seq<Entry>, b: seq<Entry>, c: seq<Entry>)
    requires Rearranged(a, b) && Rearranged(b, c)
    ensures Rearranged(a, c)
  {
  }

  lemma SwapRearranges(s: seq<Entry>, j: int)
    requires 0 < j < |s| && s[j - 1].order != s[j].order
    ensures Rearranged(s[j - 1 := s[j]][j := s[j - 1]], s)
  {
    forall k
      ensures WithOrder(s[j - 1 := s[j]][j := s[j - 1]], k) == WithOrder(s, k)
    {
      SwapKeepsWithOrder(s, j, k);
    }
  }

  /** `books.sort((a, b) => a.order - b.order)`: an in-place stable sort.
      Afterwards the array is ordered by `order`, holds the same books, and
      books of equal `order` keep the order the server sent them in. */
  method SortByOrder(a: array<Entry>)
    modifies a
    ensures SortedByOrder(a[..])
    ensures Rearranged(a[..], old(a[..]))
  {
    for i := 0 to a.Length
      invariant SortedByOrder(a[..i])
      invariant Rearranged(a[..], old(a[..]))
    {
      ghost var before := a[..];
      SinkLast(a, i);
      RearrangedTransitive(a[..], before, old(a[..]));
    }
    assert a[..] == a[..a.Length];
  }

  /** One insertion step: moves `a[i]` down into the sorted prefix `a[..i]`,
      past the books of strictly greater `order` only. */
  method SinkLast(a: array<Entry>, i: int)
    requires 0 <= i < a.Length && SortedByOrder(a[..i])
    modifies a
    ensures SortedByOrder(a[..i + 1])
    ensures Rearranged(a[..], old(a[..]))
  {
    var j := i;
    SinkStart(a[..], i);
    while 0 < j && a[j].order < a[j - 1].order
      invariant 0 <= j <= i
      invariant Sinking(a[..], j, i)
      invariant Rearranged(a[..], old(a[..]))
    {
      ghost var before := a[..];
      SwapDown(a, j);
      SinkStep(before, j, i);
      RearrangedTransitive(a[..], before, old(a[..]));
      j := j - 1;
    }
    SinkDone(a[..], j, i);
  }

  /** While `s[j]` sinks through `s[..i + 1]`: the other entries there are
      sorted, and `s[j]` is below every entry after it. */
  ghost predicate Sinking(s: seq<Entry>, j: int, i: int)
    requires 0 <= j <= i < |s|
  {
    && (forall l, m :: 0 <= l < m <= i && l != j && m != j ==> s[l].order <= s[m].order)
    && (forall m :: j < m <= i ==> s[j].order < s[m].order)
  }

  lemma SinkStart(s: seq<Entry>, i: int)
    requires 0 <= i < |s| && SortedByOrder(s[..i])
    ensures Sinking(s, i, i)
  {
    forall l, m | 0 <= l < m <= i && l != i && m != i
      ensures s[l].order <= s[m].order
    {
      assert s[l] == s[..i][l] && s[m] == s[..i][m];
    }
  }

  lemma SinkStep(s: seq<Entry>, j: int, i: int)
    requires 0 < j <= i < |s| && Sinking(s, j, i) && s[j].order < s[j - 1].order
    ensures Sinking(s[j - 1 := s[j]][j := s[j - 1]], j - 1, i)
  {
  }

  lemma SinkDone(s: seq<Entry>, j: int, i: int)
    requires 0 <= j <= i < |s| && Sinking(s, j, i)
    requires j == 0 || s[j - 1].order <= s[j].order
    ensures SortedByOrder(s[..i + 1])
  {
    forall l, m | 0 <= l < m <= i
      ensures s[l].order <= s[m].order
    {
      if l == j && 0 < j {
        assert s[j - 1].order <= s[m].order || m == j - 1;
      } else if m == j && 0 < j && l != j - 1 {
        assert s[l].order <= s[j - 1].order;
      }
    }
  }

  /** Exchanges `a[j - 1]` and `a[j]`, two books of different `order`. */
  method SwapDown(a: array<Entry>, j: int)
    requires 0 < j < a.Length && a[j - 1].order != a[j].order
    modifies a
    ensures a[..] == old(a[..])[j - 1 := old(a[j])][j := old(a[j - 1])]
    ensures Rearranged(a[..], old(a[..]))
  {
    a[j - 1], a[j] := a[j], a[j - 1];
    SwapRearranges(old(a[..]), j);
  }

  /** Filtering by order peels off the head of a non-empty sequence. */
  lemma WithOrderCons(s: seq<Entry>, k: int)
    requires |s| > 0
    ensures WithOrder(s, k) == (if s[0].order == k then [s[0]] else []) + WithOrder(s[1..], k)
  {
  }

  /** In a sorted sequence the head has the least `order` of all entries. */
  lemma HeadIsLeast(s: seq<Entry>, k: int)
    requires SortedByOrder(s) && WithOrder(s, k) != []
    ensures |s| > 0 && s[0].order <= k
  {
    var e := WithOrder(s, k)[0];
    assert e in s && e.order == k;
  }

  /** Two sequences sorted by `order` that agree, for every `k`, on their
      entries of order `k` are equal: the stable sort has one possible result. */
  lemma {:induction false} StableSortUnique(x: seq<Entry>, y: seq<Entry>)
    requires SortedByOrder(x) && SortedByOrder(y)
    requires forall k :: WithOrder(x, k) == WithOrder(y, k)
    ensures x == y
  {
    if |x| > 0 {
      WithOrderCons(x, x[0].order);
      HeadIsLeast(y, x[0].order);
    }
    if |y| > 0 {
      WithOrderCons(y, y[0].order);
      HeadIsLeast(x, y[0].order);
    }
    if |x| > 0 && |y| > 0 {
      var m := x[0].order;
      assert y[0].order == m;
      assert x[0] == WithOrder(x, m)[0] == WithOrder(y, m)[0] == y[0];
      forall k
        ensures WithOrder(x[1..], k) == WithOrder(y[1..], k)
      {
        WithOrderCons(x, k);
        WithOrderCons(y, k);
      }
      assert SortedByOrder(x[1..]) && SortedByOrder(y[1..]);
      StableSortUnique(x[1..], y[1..]);
      assert x == [x[0]] + x[1..] && y == [y[0]] + y[1..];
    }
  }

  /** A copy of `books` put in order by the in-place sort. */
  method SortedCopy(books: seq<Entry>) returns (r: seq<Entry>)
    ensures SortedByOrder(r) && Rearranged(r, books)
  {
    var a := new Entry[|books|](i requires 0 <= i < |books| => books[i]);
    assert a[..] == books;
    SortByOrder(a);
    r := a[..];
  }

  // ---------------------------------------------------------------------
  // What the page keeps after a fetch (ReadingLists.jsx:19-31)
  // ---------------------------------------------------------------------

  /** `{...list, books: list.books?.sort(...) || []}`: same id and name, the
      books stably sorted by `order`, and no books when the field is missing. */
  ghost predicate FetchedFrom(raw: RawList, list: ReadingList)
  {
    && list.id == raw.id && list.name == raw.name
    && SortedByOrder(list.books)
    && Rearranged(list.books, raw.books.GetOr([]))
  }

  ghost predicate FetchedAll(raw: seq<RawList>, lists: seq<ReadingList>)
  {
    |lists| == |raw| && forall i :: 0 <= i < |raw| ==> FetchedFrom(raw[i], lists[i])
  }

  /** The lists after `fetchReadingLists` settles with `reply`: the fetched
      lists on success, the previous ones on failure. */
  ghost predicate Refreshed(before: seq<ReadingList>, reply: Reply<seq<RawList>>, after: seq<ReadingList>)
  {
    if reply.Resolved? then FetchedAll(reply.value, after) else after == before
  }

  /** The toasts `fetchReadingLists` shows: one on failure, none otherwise. */
  function FetchToasts(reply: Reply<seq<RawList>>): (r: seq<Toast>)
    ensures r == [] <==> reply.Resolved?
  {
    if reply.Resolved? then [] else [ErrorToast("Failed to fetch reading lists.")]
  }

  /** Two fetches of the same answer give the same lists: the sort has
      exactly one possible outcome. */
  lemma FetchDeterministic(raw: seq<RawList>, x: seq<ReadingList>, y: seq<ReadingList>)
    requires FetchedAll(raw, x) && FetchedAll(raw, y)
    ensures x == y
  {
    forall i | 0 <= i < |raw|
      ensures x[i] == y[i]
    {
      var books := raw[i].books.GetOr([]);
      assert Rearranged(x[i].books, books) && Rearranged(y[i].books, books);
      StableSortUnique(x[i].books, y[i].books);
    }
  }

  // ---------------------------------------------------------------------
  // The blank-name guard (ReadingLists.jsx:34)
  // ---------------------------------------------------------------------

  /** The characters `String.prototype.trim` removes: ECMAScript's
      WhiteSpace and LineTerminator code points. */
  predicate IsJsSpace(c: char)
  {
    || c == '\t' || c == '\n' || c == '\U{000B}' || c == '\U{000C}' || c == '\r' || c == ' '
    || c == '\U{00A0}' || c == '\U{1680}' || ('\U{2000}' <= c <= '\U{200A}')
    || c == '\U{2028}' || c == '\U{2029}' || c == '\U{202F}' || c == '\U{205F}'
    || c == '\U{3000}' || c == '\U{FEFF}'
  }

  /** `s.trim()`: the name without its leading and trailing white space. */
  function Trim(s: string): (r: string)
    ensures |r| <= |s|
    ensures r != [] ==> !IsJsSpace(r[0]) && !IsJsSpace(r[|r| - 1])
    ensures exists k :: Trimmed(s, IsJsSpace, k, r)
  {
    StripIsSlice(s, IsJsSpace);
    Strip(s, IsJsSpace)
  }

  /** `!newListName.trim()`: the guard of `handleCreateList` fires exactly
      for a name made of white space only, the empty name included. */
  predicate Blank(name: string): (r: bool)
    ensures r <==> forall i :: 0 <= i < |name| ==> IsJsSpace(name[i])
  {
    StripEmptyIffAll(name, IsJsSpace);
    Trim(name) == ""
  }

  // ---------------------------------------------------------------------
  // Reordering by drag and drop (ReadingLists.jsx:91-135)
  // ---------------------------------------------------------------------

  /** `xs.splice(i, 1)` on a copy: the sequence without position `i`. */
  function RemoveAt<T>(s: seq<T>, i: int): (r: seq<T>)
    requires 0 <= i < |s|
    ensures |r| == |s| - 1
    ensures forall k :: 0 <= k < i ==> r[k] == s[k]
    ensures forall k :: i <= k < |r| ==> r[k] == s[k + 1]
  {
    s[..i] + s[i + 1..]
  }

  /** `xs.splice(i, 0, x)` on a copy: `x` inserted before position `i`. */
  function InsertAt<T>(s: seq<T>, i: int, x: T): (r: seq<T>)
    requires 0 <= i <= |s|
    ensures |r| == |s| + 1 && r[i] == x
    ensures forall k :: 0 <= k < i ==> r[k] == s[k]
    ensures forall k :: i < k < |r| ==> r[k] == s[k - 1]
  {
    s[..i] + [x] + s[i..]
  }

  lemma InsertRemoved<T>(s: seq<T>, i: int)
    requires 0 <= i < |s|
    ensures InsertAt(RemoveAt(s, i), i, s[i]) == s
  {
  }

  lemma RemoveInserted<T>(s: seq<T>, i: int, x: T)
    requires 0 <= i <= |s|
    ensures RemoveAt(InsertAt(s, i, x), i) == s
  {
  }

  /** The two splices of lines 99-100: the book at `from` taken out and put
      back at `to`. The result holds the same books, the moved book sits at
      `to`, and the other books keep their relative order. */
  function Moved<T>(s: seq<T>, from: int, to: int): (r: seq<T>)
    requires 0 <= from < |s| && 0 <= to < |s|
    ensures |r| == |s| && multiset(r) == multiset(s)
    ensures r[to] == s[from]
    ensures RemoveAt(r, to) == RemoveAt(s, from)
  {
    var r := InsertAt(RemoveAt(s, from), to, s[from]);
    RemoveInserted(RemoveAt(s, from), to, s[from]);
    InsertRemoved(s, from);
    assert multiset(s) == multiset(RemoveAt(s, from)) + multiset{s[from]} by {
      assert s == s[..from] + [s[from]] + s[from + 1..];
    }
    assert multiset(r) == multiset(RemoveAt(s, from)) + multiset{s[from]} by {
      var t := RemoveAt(s, from);
      assert r == t[..to] + [s[from]] + t[to..];
      assert t == t[..to] + t[to..];
    }
    r
  }

  /** Dragging the book back where it came from undoes the move. */
  lemma MoveBack<T>(s: seq<T>, from: int, to: int)
    requires 0 <= from < |s| && 0 <= to < |s|
    ensures Moved(Moved(s, from, to), to, from) == s
  {
    var r := Moved(s, from, to);
    assert Moved(r, to, from) == InsertAt(RemoveAt(r, to), from, r[to]);
    InsertRemoved(s, from);
  }

  /** `books.map((book, index) => ({...book, order: index}))`. */
  function Renumbered(s: seq<Entry>): (r: seq<Entry>)
    ensures |r| == |s|
    ensures forall i :: 0 <= i < |s| ==> r[i] == s[i].(order := i)
    ensures SortedByOrder(r)
  {
    seq(|s|, i requires 0 <= i < |s| => s[i].(order := i))
  }

  /** The drop indices the drag-and-drop library reports lie inside every
      list carrying `listId`. */
  predicate ValidDrop(lists: seq<ReadingList>, listId: int, from: int, to: int)
  {
    forall i :: 0 <= i < |lists| && lists[i].id == listId ==>
      0 <= from < |lists[i].books| && 0 <= to < |lists[i].books|
  }

  function MoveWithin(list: ReadingList, from: int, to: int): ReadingList
    requires 0 <= from < |list.books| && 0 <= to < |list.books|
  {
    list.(books := Renumbered(Moved(list.books, from, to)))
  }

  /** `updatedLists` (lines 96-110): every list with id `listId` has its
      book moved and renumbered; every other list is the same value. */
  function Reordered(lists: seq<ReadingList>, listId: int, from: int, to: int): (r: seq<ReadingList>)
    requires ValidDrop(lists, listId, from, to)
    ensures |r| == |lists|
    ensures forall i :: 0 <= i < |lists| && lists[i].id != listId ==> r[i] == lists[i]
    ensures forall i :: 0 <= i < |lists| && lists[i].id == listId ==>
              r[i] == MoveWithin(lists[i], from, to)
  {
    seq(|lists|, i requires 0 <= i < |lists| =>
      if lists[i].id == listId then MoveWithin(lists[i], from, to) else lists[i])
  }

  /** `lists.find(l => l.id === id)`: the first list with that id. */
  function FindList(lists: seq<ReadingList>, id: int): (r: Option<ReadingList>)
    ensures r.None? <==> forall i :: 0 <= i < |lists| ==> lists[i].id != id
    ensures r.Some? ==> r.value.id == id && r.value in lists
    ensures r.Some? ==> exists i :: 0 <= i < |lists| && lists[i] == r.value && forall j :: 0 <= j < i ==> lists[j].id != id
  {
    if |lists| == 0 then None
    else if lists[0].id == id then Some(lists[0])
    else FindList(lists[1..], id)
  }

  /** The list the handler finds after the move is the first list of that id
      before the move, with its book moved and renumbered. */
  lemma {:induction false} FindReordered(lists: seq<ReadingList>, listId: int, from: int, to: int)
    requires ValidDrop(lists, listId, from, to)
    ensures var before := FindList(lists, listId);
            var after := FindList(Reordered(lists, listId, from, to), listId);
            && after.Some? == before.Some?
            && (before.Some? ==> after.value == MoveWithin(before.value, from, to))
  {
    if |lists| > 0 && lists[0].id != listId {
      assert ValidDrop(lists[1..], listId, from, to) by {
        forall i | 0 <= i < |lists[1..]| && lists[1..][i].id == listId
          ensures 0 <= from < |lists[1..][i].books| && 0 <= to < |lists[1..][i].books|
        {
          assert lists[1..][i] == lists[i + 1];
        }
      }
      assert Reordered(lists, listId, from, to)[1..] == Reordered(lists[1..], listId, from, to);
      FindReordered(lists[1..], listId, from, to);
    }
  }

  /** The reorder request body: the books' ids with their new positions. */
  function ReorderPayload(books: seq<Entry>): (r: Value)
    ensures r.Obj? && |r.fields| == 1 && r.fields[0].0 == "books"
    ensures r.fields[0].1.Arr? && |r.fields[0].1.items| == |books|
  {
    Obj([("books", Arr(seq(|books|, i requires 0 <= i < |books| =>
      Obj([("id", Num(books[i].id)), ("order", Num(i))]))))])
  }

  /** The payload carries, book by book, the id and the `order` the page now
      shows for that book. */
  lemma PayloadMatchesPage(s: seq<Entry>)
    ensures var b := Renumbered(s);
            var items := ReorderPayload(b).fields[0].1.items;
            forall i :: 0 <= i < |b| ==> items[i] == Obj([("id", Num(b[i].id)), ("order", Num(b[i].order))])
  {
  }

  function ListPath(listId: int): string
  {
    ListsPath + IntString(listId) + "/"
  }

  function RemovePath(listId: int, bookId: int): string
  {
    ListsPath + IntString(listId) + "/remove/" + IntString(bookId) + "/"
  }

  /** The create request: the name as typed, untrimmed. */
  function CreateCall(name: string): ApiCall
  {
    ApiCall(Post, ListsPath, JsonBody(Obj([("name", Str(name))])))
  }

  function ReorderPath(listId: int): string
  {
    ListsPath + IntString(listId) + "/reorder/"
  }

  // ---------------------------------------------------------------------
  // Deleting a list and removing a book (ReadingLists.jsx:63, 74-83)
  // ---------------------------------------------------------------------

  function IdIsNot(id: int): ReadingList -> bool
  {
    (l: ReadingList) => l.id != id
  }

  function BookIsNot(bookId: int): Entry -> bool
  {
    (e: Entry) => e.bookId != bookId
  }

  /** `lists.filter(list => list.id !== listId)`. */
  function WithoutList(lists: seq<ReadingList>, listId: int): (r: seq<ReadingList>)
    ensures forall i :: 0 <= i < |r| ==> r[i].id != listId
    ensures forall i :: 0 <= i < |lists| && lists[i].id != listId ==> lists[i] in r
    ensures IsSubsequence(r, lists)
    ensures forall l :: multiset(r)[l] == if l.id != listId then multiset(lists)[l] else 0
  {
    KeepCounts(lists, IdIsNot(listId));
    Keep(lists, IdIsNot(listId))
  }

  /** The map of lines 74-83: the books referring to `bookId` leave the list
      `listId`; every other list is the same value. */
  function WithoutBook(lists: seq<ReadingList>, listId: int, bookId: int): (r: seq<ReadingList>)
    ensures |r| == |lists|
    ensures forall i :: 0 <= i < |lists| && lists[i].id != listId ==> r[i] == lists[i]
    ensures forall i :: 0 <= i < |lists| && lists[i].id == listId ==>
              && r[i].id == listId && r[i].name == lists[i].name
              && IsSubsequence(r[i].books, lists[i].books)
              && (forall k :: 0 <= k < |r[i].books| ==> r[i].books[k].bookId != bookId)
              && (forall k :: 0 <= k < |lists[i].books| && lists[i].books[k].bookId != bookId ==>
                    lists[i].books[k] in r[i].books)
              && (forall e :: multiset(r[i].books)[e] ==
                    if e.bookId != bookId then multiset(lists[i].books)[e] else 0)
  {
    var r := seq(|lists|, i requires 0 <= i < |lists| =>
      if lists[i].id == listId then lists[i].(books := Keep(lists[i].books, BookIsNot(bookId))) else lists[i]);
    forall i | 0 <= i < |lists| && lists[i].id == listId {
      KeepCounts(lists[i].books, BookIsNot(bookId));
    }
    r
  }

  /** Removing the same book twice leaves the lists as removing it once. */
  lemma RemoveBookIdempotent(lists: seq<ReadingList>, listId: int, bookId: int)
    ensures WithoutBook(WithoutBook(lists, listId, bookId), listId, bookId) == WithoutBook(lists, listId, bookId)
  {
    var once := WithoutBook(lists, listId, bookId);
    forall i | 0 <= i < |lists| && lists[i].id == listId
      ensures Keep(once[i].books, BookIsNot(bookId)) == once[i].books
    {
      KeepAll(once[i].books, BookIsNot(bookId));
    }
  }

  // ---------------------------------------------------------------------
  // The page (ReadingLists.jsx:9-135)
  // ---------------------------------------------------------------------

  /** The page's state. Each handler takes the settled results of the calls
      it makes and returns, in order, the calls it hands to the client and
      the toasts it shows. */
  class ReadingListsPage {
    var lists: seq<ReadingList>
    var newListName: string
    var isCreating: bool
    var isReordering: bool

    constructor ()
      ensures lists == [] && newListName == "" && !isCreating && !isReordering
    {
      lists, newListName := [], "";
      isCreating, isReordering := false, false;
    }

    /** `fetchReadingLists` (lines 19-31). */
    method FetchReadingLists(reply: Reply<seq<RawList>>) returns (calls: seq<ApiCall>, toasts: seq<Toast>)
      modifies this`lists
      ensures calls == [ApiCall(Get, ListsPath, NoBody)]
      ensures Refreshed(old(lists), reply, lists) && toasts == FetchToasts(reply)
    {
      calls := [ApiCall(Get, ListsPath, NoBody)];
      if reply.Rejected? {
        toasts := [ErrorToast("Failed to fetch reading lists.")];
        return;
      }
      var raw := reply.value;
      var ordered: seq<ReadingList> := [];
      for i := 0 to |raw|
        invariant |ordered| == i
        invariant forall k :: 0 <= k < i ==> FetchedFrom(raw[k], ordered[k])
      {
        var books := SortedCopy(raw[i].books.GetOr([]));
        ordered := ordered + [ReadingList(raw[i].id, raw[i].name, books)];
      }
      lists := ordered;
      toasts := [];
    }

    /** `handleCreateList` (lines 33-46). A blank name does nothing; any other
        name is posted as typed, and on success the input is cleared and the
        lists are fetched again. The refetch is not awaited, so the success
        toast comes before whatever the refetch shows. */
    method HandleCreateList(reply: Reply<Response>, refetch: Reply<seq<RawList>>)
      returns (calls: seq<ApiCall>, toasts: seq<Toast>)
      modifies this`lists, this`newListName, this`isCreating
      ensures Blank(old(newListName)) ==>
                && calls == [] && toasts == [] && lists == old(lists)
                && newListName == old(newListName) && isCreating == old(isCreating)
      ensures !Blank(old(newListName)) ==> Created(old(newListName), old(lists), reply, refetch, calls, toasts)
    {
      if Blank(newListName) {
        return [], [];
      }
      calls, toasts := PostNewList(reply, refetch);
    }

    /** The outcome of posting `name`: on success the input is cleared and
        the lists refetched, on failure everything is kept; the loading flag
        ends false either way. */
    ghost predicate Created(name: string, before: seq<ReadingList>, reply: Reply<Response>,
                            refetch: Reply<seq<RawList>>, calls: seq<ApiCall>, toasts: seq<Toast>)
      reads this
    {
      && !isCreating
      && (reply.Resolved? ==>
            && calls == [CreateCall(name), ApiCall(Get, ListsPath, NoBody)]
            && newListName == ""
            && Refreshed(before, refetch, lists)
            && toasts == [SuccessToast("Reading list created!")] + FetchToasts(refetch))
      && (reply.Rejected? ==>
            && calls == [CreateCall(name)]
            && newListName == name && lists == before
            && toasts == [ErrorToast("Failed to create list.")])
    }

    /** The `try` block of `handleCreateList` (lines 35-45). */
    method PostNewList(reply: Reply<Response>, refetch: Reply<seq<RawList>>)
      returns (calls: seq<ApiCall>, toasts: seq<Toast>)
      modifies this`lists, this`newListName, this`isCreating
      ensures Created(old(newListName), old(lists), reply, refetch, calls, toasts)
    {
      isCreating := true;
      calls := [CreateCall(newListName)];
      if reply.Resolved? {
        newListName := "";
        var fetchCalls, fetchToasts := FetchReadingLists(refetch);
        calls := calls + fetchCalls;
        toasts := [SuccessToast("Reading list created!")] + fetchToasts;
      } else {
        toasts := [ErrorToast("Failed to create list.")];
      }
      isCreating := false;
    }

    /** `handleDeleteList` (lines 48-69); `confirmed` is the answer to the
        confirmation dialog. */
    method HandleDeleteList(listId: int, confirmed: bool, reply: Reply<Response>)
      returns (calls: seq<ApiCall>, toasts: seq<Toast>)
      modifies this`lists
      ensures !confirmed ==> calls == [] && toasts == [] && lists == old(lists)
      ensures confirmed ==> calls == [ApiCall(Delete, ListPath(listId), NoBody)]
      ensures confirmed && reply.Resolved? ==>
                lists == WithoutList(old(lists), listId) && toasts == [SuccessToast("Reading list deleted!")]
      ensures confirmed && reply.Rejected? ==>
                lists == old(lists) && toasts == [ErrorToast("Failed to delete list.")]
    {
      calls, toasts := [], [];
      if confirmed {
        calls := [ApiCall(Delete, ListPath(listId), NoBody)];
        if reply.Resolved? {
          lists := WithoutList(lists, listId);
          toasts := [SuccessToast("Reading list deleted!")];
        } else {
          toasts := [ErrorToast("Failed to delete list.")];
        }
      }
    }

    /** `handleRemoveBook` (lines 71-89). */
    method HandleRemoveBook(listId: int, bookId: int, reply: Reply<Response>)
      returns (calls: seq<ApiCall>, toasts: seq<Toast>)
      modifies this`lists
      ensures calls == [ApiCall(Delete, RemovePath(listId, bookId), NoBody)]
      ensures reply.Resolved? ==>
                lists == WithoutBook(old(lists), listId, bookId) && toasts == [SuccessToast("Book removed from list!")]
      ensures reply.Rejected? ==>
                lists == old(lists) && toasts == [Toast(ErrorIcon, DetailOr(reply.error, "Failed to remove book."))]
    {
      calls := [ApiCall(Delete, RemovePath(listId, bookId), NoBody)];
      if reply.Resolved? {
        lists := WithoutBook(lists, listId, bookId);
        toasts := [SuccessToast("Book removed from list!")];
      } else {
        toasts := [Toast(ErrorIcon, DetailOr(reply.error, "Failed to remove book."))];
      }
    }

    /** `handleDragEnd` (lines 91-135). The moved lists are shown at once; the
        new order is then sent, and if anything fails the lists go back to
        exactly what they were before the drag. `put` and `refetch` are the
        settled results of the reorder and of the awaited refetch. */
    method HandleDragEnd(result: DropResult, listId: int, put: Reply<Response>, refetch: Reply<seq<RawList>>)
      returns (calls: seq<ApiCall>, toasts: seq<Toast>)
      requires result.destination.Some? ==>
                 ValidDrop(lists, listId, result.source, result.destination.value)
      modifies this`lists, this`isReordering
      ensures result.destination.None? ==>
                calls == [] && toasts == [] && lists == old(lists) && isReordering == old(isReordering)
      ensures result.destination.Some? ==> !isReordering
      ensures result.destination.Some? && FindList(old(lists), listId).None? ==>
                calls == [] && lists == old(lists) && toasts == [ErrorToast("Failed to save book order.")]
      ensures result.destination.Some? && FindList(old(lists), listId).Some? ==>
                var moved := MoveWithin(FindList(old(lists), listId).value, result.source, result.destination.value);
                && |calls| > 0
                && calls[0] == ApiCall(Put, ReorderPath(listId), JsonBody(ReorderPayload(moved.books)))
                && (put.Rejected? ==>
                      && lists == old(lists) && |calls| == 1
                      && toasts == [Toast(ErrorIcon, DetailOr(put.error, "Failed to save book order."))])
                && (put.Resolved? ==>
                      && calls == [calls[0], ApiCall(Get, ListsPath, NoBody)]
                      && Refreshed(Reordered(old(lists), listId, result.source, result.destination.value), refetch, lists)
                      && toasts == FetchToasts(refetch) + [SuccessToast("Book order saved!")])
    {
      if result.destination.None? {
        return [], [];
      }
      var from, to := result.source, result.destination.value;
      var originalLists := lists;
      lists := Reordered(lists, listId, from, to);
      FindReordered(originalLists, listId, from, to);
      calls, toasts := SaveOrder(listId, originalLists, put, refetch);
    }

    /** The `try` block of `handleDragEnd` (lines 114-134), entered with the
        moved lists shown: the first list of `listId` is looked up and its
        order sent. A missing list throws a TypeError; it and a failed save
        both put `originalLists` back. */
    method SaveOrder(listId: int, originalLists: seq<ReadingList>, put: Reply<Response>, refetch: Reply<seq<RawList>>)
      returns (calls: seq<ApiCall>, toasts: seq<Toast>)
      modifies this`lists, this`isReordering
      ensures !isReordering
      ensures FindList(old(lists), listId).None? ==>
                calls == [] && lists == originalLists && toasts == [ErrorToast("Failed to save book order.")]
      ensures FindList(old(lists), listId).Some? ==>
                && |calls| > 0
                && calls[0] == ApiCall(Put, ReorderPath(listId), JsonBody(ReorderPayload(FindList(old(lists), listId).value.books)))
                && (put.Rejected? ==>
                      && lists == originalLists && |calls| == 1
                      && toasts == [Toast(ErrorIcon, DetailOr(put.error, "Failed to save book order."))])
                && (put.Resolved? ==>
                      && calls == [calls[0], ApiCall(Get, ListsPath, NoBody)]
                      && Refreshed(old(lists), refetch, lists)
                      && toasts == FetchToasts(refetch) + [SuccessToast("Book order saved!")])
    {
      isReordering := true;
      var list := FindList(lists, listId);
      if list.None? {
        // `list.books` on `undefined` throws a TypeError, caught below.
        lists := originalLists;
        calls, toasts := [], [Toast(ErrorIcon, DetailOr(TypeError, "Failed to save book order."))];
      } else {
        calls := [ApiCall(Put, ReorderPath(listId), JsonBody(ReorderPayload(list.value.books)))];
        if put.Rejected? {
          lists := originalLists;
          toasts := [Toast(ErrorIcon, DetailOr(put.error, "Failed to save book order."))];
        } else {
          var fetchCalls, fetchToasts := FetchReadingLists(refetch);
          calls := calls + fetchCalls;
          toasts := fetchToasts + [SuccessToast("Book order saved!")];
        }
      }
      isReordering := false;
    }
  }
}
