/** src/components/pages/Home.jsx: the catalogue's search filter and the
    cover image address. */
module Home {
  import opened Wrappers
  import opened Seqs
  import opened Books
  import opened Text
  import opened Http
  import opened Ui

  /** `BASE_URL` (Home.jsx:7): where the server serves uploaded media. */
  const MediaBase := "http://127.0.0.1:8000"

  const AllBooksPath := "/all-books/"

  /** `needle` occurs in `hay` at position `i`. */
  ghost predicate OccursAt(hay: string, needle: string, i: int)
  {
    0 <= i && i + |needle| <= |hay| && hay[i..i + |needle|] == needle
  }

  /** `hay.includes(needle)`: the needle occurs somewhere in the hay. */
  function Includes(hay: string, needle: string): (r: bool)
    ensures r <==> exists i :: OccursAt(hay, needle, i)
    decreases |hay|
  {
    if |needle| > |hay| then false
    else if hay[..|needle|] == needle then
      assert OccursAt(hay, needle, 0);
      true
    else
      var r := Includes(hay[1..], needle);
      assert forall i :: 1 <= i && OccursAt(hay, needle, i) ==> OccursAt(hay[1..], needle, i - 1) by {
        forall i | 1 <= i && OccursAt(hay, needle, i)
          ensures OccursAt(hay[1..], needle, i - 1)
        {
          assert hay[1..][i - 1..i - 1 + |needle|] == hay[i..i + |needle|];
        }
      }
      assert forall i :: OccursAt(hay[1..], needle, i) ==> OccursAt(hay, needle, i + 1) by {
        forall i | OccursAt(hay[1..], needle, i)
          ensures OccursAt(hay, needle, i + 1)
        {
          assert hay[1..][i..i + |needle|] == hay[i + 1..i + 1 + |needle|];
        }
      }
      r
  }

  /** The test of Home.jsx:37-39: the lower-cased term occurs in the
      lower-cased title, authors or genre. */
  predicate Matches(book: Book, term: string): (r: bool)
    ensures r <==> exists i :: || OccursAt(Lower(book.title), Lower(term), i)
                              || OccursAt(Lower(book.authors), Lower(term), i)
                              || OccursAt(Lower(book.genre), Lower(term), i)
  {
    || Includes(Lower(book.title), Lower(term))
    || Includes(Lower(book.authors), Lower(term))
    || Includes(Lower(book.genre), Lower(term))
  }

  function MatchesTerm(term: string): Book -> bool
  {
    (b: Book) => Matches(b, term)
  }

  /** `filteredBooks` (Home.jsx:36-40): the matching books, in catalogue
      order. A book is shown exactly when it matches. */
  function FilteredBooks(books: seq<Book>, term: string): (r: seq<Book>)
    ensures IsSubsequence(r, books)
    ensures forall i :: 0 <= i < |r| ==> Matches(r[i], term)
    ensures forall i :: 0 <= i < |books| ==> (books[i] in r <==> Matches(books[i], term))
    ensures forall b :: multiset(r)[b] == if Matches(b, term) then multiset(books)[b] else 0
  {
    KeepCounts(books, MatchesTerm(term));
    Keep(books, MatchesTerm(term))
  }

  /** An empty search box shows the whole catalogue. */
  lemma EmptyTermKeepsAll(books: seq<Book>)
    ensures FilteredBooks(books, "") == books
  {
    forall i | 0 <= i < |books|
      ensures MatchesTerm("")(books[i])
    {
      assert OccursAt(Lower(books[i].title), "", 0);
    }
    KeepAll(books, MatchesTerm(""));
  }

  /** Two terms that lower-case alike select the same books. */
  lemma {:induction false} SameLowerSameResult(books: seq<Book>, t: string, u: string)
    requires Lower(t) == Lower(u)
    ensures FilteredBooks(books, t) == FilteredBooks(books, u)
  {
    if |books| > 0 {
      SameLowerSameResult(books[1..], t, u);
    }
  }

  /** Typing the term in capitals, or in small letters, changes nothing. */
  lemma CaseInsensitive(books: seq<Book>, term: string)
    ensures FilteredBooks(books, Upper(term)) == FilteredBooks(books, term)
    ensures FilteredBooks(books, Lower(term)) == FilteredBooks(books, term)
  {
    LowerAbsorbsCase(term);
    SameLowerSameResult(books, Upper(term), term);
    SameLowerSameResult(books, Lower(term), term);
  }

  /** The `src` of a book's cover (Home.jsx:127-129): the media address
      followed by the stored path when the book has a cover, no image
      otherwise. */
  function CoverSrc(book: Book): (r: Option<string>)
    ensures r.Some? <==> book.coverImage.Some? && book.coverImage.value != ""
    ensures r.Some? ==> |r.value| == |MediaBase| + |book.coverImage.value|
                        && r.value[..|MediaBase|] == MediaBase
                        && r.value[|MediaBase|..] == book.coverImage.value
  {
    if book.coverImage.Some? && book.coverImage.value != "" then Some(MediaBase + book.coverImage.value)
    else None
  }

  /** The catalogue page's state: the books fetched and the search box,
      whose books on show are `FilteredBooks(books, searchTerm)`. */
  class HomePage {
    var books: seq<Book>
    var isLoading: bool
    var searchTerm: string

    constructor ()
      ensures books == [] && !isLoading && searchTerm == ""
    {
      books, isLoading, searchTerm := [], false, "";
    }

    /** `fetchAllBooks` (lines 19-30): a GET of the catalogue. Success shows
        the server's books; failure keeps them and shows one toast. */
    method FetchAllBooks(reply: Reply<seq<Book>>) returns (calls: seq<ApiCall>, toasts: seq<Toast>)
      modifies this`books, this`isLoading
      ensures calls == [ApiCall(Get, AllBooksPath, NoBody)] && !isLoading
      ensures reply.Resolved? ==> books == reply.value && toasts == []
      ensures reply.Rejected? ==> books == old(books) && toasts == [ErrorToast("Failed to load books.")]
    {
      isLoading := true;
      calls := [ApiCall(Get, AllBooksPath, NoBody)];
      if reply.Resolved? {
        books := reply.value;
        toasts := [];
      } else {
        toasts := [ErrorToast("Failed to load books.")];
      }
      isLoading := false;
    }
  }
}
