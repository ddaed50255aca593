/** src/components/pages/Books.jsx: the signed-in user's own books, the
    add/edit form and deletion. */
module Books {
  import opened Wrappers
  import opened Json
  import opened Http
  import opened Browser
  import opened Ui
  import opened Seqs
  import Navbar

  /** A book as the server sends it. `description` and `coverImage` may be
      null (`None`); `coverImage` is the media path of the uploaded cover. */
  datatype Book = Book(
    id: int,
    title: string,
    authors: string,
    genre: string,
    publicationDate: string,
    description: Option<string>,
    coverImage: Option<string>)

  /** The add/edit form; `coverImage` is the file picked, if any. */
  datatype BookForm = BookForm(
    title: string,
    authors: string,
    genre: string,
    publicationDate: string,
    description: string,
    coverImage: Option<File>)

  const EmptyForm := BookForm("", "", "", "", "", None)

  const BooksPath := "/books/"

  // ---------------------------------------------------------------------
  // The book collection edits (Books.jsx:77, 83, 120)
  // ---------------------------------------------------------------------

  /** `books.map(book => book.id === id ? saved : book)`: every book with
      that id is replaced by `saved`, every other position is untouched. */
  function ReplaceById(books: seq<Book>, id: int, saved: Book): (r: seq<Book>)
    ensures |r| == |books|
    ensures forall i :: 0 <= i < |books| ==> r[i] == (if books[i].id == id then saved else books[i])
  {
    if |books| == 0 then []
    else [if books[0].id == id then saved else books[0]] + ReplaceById(books[1..], id, saved)
  }

  /** `[saved, ...books]`: the new book first, the previous books after it
      in their order. */
  function Prepend(saved: Book, books: seq<Book>): (r: seq<Book>)
    ensures |r| == |books| + 1 && r[0] == saved && r[1..] == books
  {
    [saved] + books
  }

  function IdIsNot(id: int): Book -> bool
  {
    (b: Book) => b.id != id
  }

  /** `books.filter(book => book.id !== id)`: the survivors keep their order. */
  function WithoutId(books: seq<Book>, id: int): (r: seq<Book>)
    ensures forall i :: 0 <= i < |r| ==> r[i].id != id
    ensures forall i :: 0 <= i < |books| && books[i].id != id ==> books[i] in r
    ensures IsSubsequence(r, books)
    ensures forall b :: multiset(r)[b] == if b.id != id then multiset(books)[b] else 0
  {
    KeepCounts(books, IdIsNot(id));
    Keep(books, IdIsNot(id))
  }

  /** Deleting a book after updating it to a version with the same id
      leaves what deleting it without the update leaves. */
  lemma {:induction false} DeleteAfterUpdate(books: seq<Book>, id: int, saved: Book)
    requires saved.id == id
    ensures WithoutId(ReplaceById(books, id, saved), id) == WithoutId(books, id)
  {
    if |books| > 0 {
      var r := ReplaceById(books, id, saved);
      assert r[1..] == ReplaceById(books[1..], id, saved);
      DeleteAfterUpdate(books[1..], id, saved);
    }
  }

  /** Deleting a just-added book gives back the list before the add, when
      no older book shared its id. */
  lemma DeleteAfterAdd(books: seq<Book>, saved: Book)
    requires forall i :: 0 <= i < |books| ==> books[i].id != saved.id
    ensures WithoutId(Prepend(saved, books), saved.id) == books
  {
    KeepAll(books, IdIsNot(saved.id));
    assert Prepend(saved, books)[1..] == books;
  }

  /** Updating twice with the same saved book is updating once. */
  lemma ReplaceIdempotent(books: seq<Book>, id: int, saved: Book)
    requires saved.id == id
    ensures ReplaceById(ReplaceById(books, id, saved), id, saved) == ReplaceById(books, id, saved)
  {
  }

  // ---------------------------------------------------------------------
  // The form (Books.jsx:62-70, 97-108)
  // ---------------------------------------------------------------------

  /** The multipart entries `handleSubmit` appends: the five text fields in
      order, then `cover_image` only when a file was picked. */
  function BookEntries(form: BookForm): (r: seq<(string, Part)>)
    ensures |r| == 5 || |r| == 6
    ensures r[..5] == [("title", Text(form.title)), ("authors", Text(form.authors)),
                       ("genre", Text(form.genre)), ("publication_date", Text(form.publicationDate)),
                       ("description", Text(form.description))]
    ensures |r| == 6 <==> form.coverImage.Some?
    ensures |r| == 6 ==> r[5] == ("cover_image", Blob(form.coverImage.value))
  {
    [("title", Text(form.title)), ("authors", Text(form.authors)),
     ("genre", Text(form.genre)), ("publication_date", Text(form.publicationDate)),
     ("description", Text(form.description))]
    + (if form.coverImage.Some? then [("cover_image", Blob(form.coverImage.value))] else [])
  }

  /** The `FormData` built in `handleSubmit` (lines 62-70): the five text
      fields in order, then the cover file when one was picked. */
  method NewBookData(form: BookForm) returns (data: FormData)
    ensures fresh(data)
    ensures data.entries == BookEntries(form)
  {
    data := new FormData();
    data.Append("title", Text(form.title));
    data.Append("authors", Text(form.authors));
    data.Append("genre", Text(form.genre));
    data.Append("publication_date", Text(form.publicationDate));
    data.Append("description", Text(form.description));
    if form.coverImage.Some? {
      data.Append("cover_image", Blob(form.coverImage.value));
    }
  }

  /** The form `handleEdit` fills from a book: a null description becomes
      the empty string, and no cover file is picked. */
  function FormFor(book: Book): (f: BookForm)
    ensures f.title == book.title && f.authors == book.authors && f.genre == book.genre
    ensures f.publicationDate == book.publicationDate
    ensures book.description.Some? ==> f.description == book.description.value
    ensures book.description.None? ==> f.description == ""
    ensures f.coverImage.None?
  {
    BookForm(book.title, book.authors, book.genre, book.publicationDate, book.description.GetOr(""), None)
  }

  /** Saving a book straight after opening it for editing sends its fields
      back as they were and no cover file, so the stored cover stays. */
  lemma EditThenSaveSendsBook(book: Book)
    ensures var entries := BookEntries(FormFor(book));
            && |entries| == 5
            && forall i :: 0 <= i < 5 ==> entries[i].0 != "cover_image"
  {
  }

  /** `if (editBookId)`: a null id and the id 0 both mean "add". */
  predicate Editing(editBookId: Option<int>): (r: bool)
    ensures r == Truthy(if editBookId.Some? then Num(editBookId.value) else Null)
  {
    editBookId.Some? && editBookId.value != 0
  }

  function BookPath(id: int): string
  {
    BooksPath + IntString(id) + "/"
  }

  function DeletePath(id: int): string
  {
    BooksPath + IntString(id) + "/delete/"
  }

  // ---------------------------------------------------------------------
  // The page (Books.jsx:9-128)
  // ---------------------------------------------------------------------

  /** The page's state. `window` holds the store the page reads the sign-in
      state from and the router it navigates with. Each handler takes the
      settled result of its call and returns the calls it hands to the
      client and the toasts it shows. */
  class BooksPage {
    const window: Window
    var books: seq<Book>
    var isLoading: bool
    var form: BookForm
    var editBookId: Option<int>
    var isFormVisible: bool

    constructor (window: Window)
      ensures this.window == window && books == [] && !isLoading
      ensures form == EmptyForm && editBookId == None && !isFormVisible
    {
      this.window := window;
      books, isLoading := [], false;
      form, editBookId, isFormVisible := EmptyForm, None, false;
    }

    /** `fetchBooks` (lines 31-42). */
    method FetchBooks(reply: Reply<seq<Book>>) returns (calls: seq<ApiCall>, toasts: seq<Toast>)
      modifies this`books, this`isLoading
      ensures calls == [ApiCall(Get, BooksPath, NoBody)] && !isLoading
      ensures reply.Resolved? ==> books == reply.value && toasts == []
      ensures reply.Rejected? ==> books == old(books) && toasts == [ErrorToast("Failed to load your books.")]
    {
      isLoading := true;
      calls := [ApiCall(Get, BooksPath, NoBody)];
      if reply.Resolved? {
        books := reply.value;
        toasts := [];
      } else {
        toasts := [ErrorToast("Failed to load your books.")];
      }
      isLoading := false;
    }

    /** The mount effect (lines 25-29): the books are fetched only for a
        signed-in user. */
    method Mount(reply: Reply<seq<Book>>) returns (calls: seq<ApiCall>, toasts: seq<Toast>)
      modifies this`books, this`isLoading
      ensures !Navbar.IsAuthenticated(window.storage) ==>
                calls == [] && toasts == [] && books == old(books) && isLoading == old(isLoading)
      ensures Navbar.IsAuthenticated(window.storage) ==>
                && calls == [ApiCall(Get, BooksPath, NoBody)] && !isLoading
                && (reply.Resolved? ==> books == reply.value && toasts == [])
                && (reply.Rejected? ==> books == old(books) && toasts == [ErrorToast("Failed to load your books.")])
    {
      calls, toasts := [], [];
      var token := window.GetItem(AccessKey);
      if token.Some? && token.value != "" {
        calls, toasts := FetchBooks(reply);
      }
    }

    /** `handleSubmit` (lines 53-95). Signed out: a toast and a trip to the
        login page, nothing sent. Signed in: the form goes out as multipart
        data, as an update when a book is being edited and as a new book
        otherwise; on success the list takes the saved book and the form is
        reset and hidden, on failure books and form stay as they were. */
    method HandleSubmit(reply: Reply<Book>) returns (calls: seq<ApiCall>, toasts: seq<Toast>)
      modifies this`books, this`isLoading, this`form, this`editBookId, this`isFormVisible, window`route
      ensures window.storage == old(window.storage)
      ensures !Navbar.IsAuthenticated(window.storage) ==>
                && calls == [] && window.route == "/login"
                && toasts == [ErrorToast("Please log in to " + (if Editing(editBookId) then "edit" else "add") + " a book.")]
                && books == old(books) && form == old(form) && editBookId == old(editBookId)
                && isFormVisible == old(isFormVisible) && isLoading == old(isLoading)
      ensures Navbar.IsAuthenticated(window.storage) ==>
                && window.route == old(window.route) && !isLoading
                && calls == [if Editing(old(editBookId))
                             then ApiCall(Put, BookPath(old(editBookId).value), FormBody(BookEntries(old(form))))
                             else ApiCall(Post, BooksPath, FormBody(BookEntries(old(form))))]
                && (reply.Resolved? ==>
                      && books == (if Editing(old(editBookId))
                                   then ReplaceById(old(books), old(editBookId).value, reply.value)
                                   else Prepend(reply.value, old(books)))
                      && form == EmptyForm && editBookId == None && !isFormVisible
                      && toasts == [SuccessToast(if Editing(old(editBookId)) then "Book updated successfully!"
                                                 else "Book added successfully!")])
                && (reply.Rejected? ==>
                      && books == old(books) && form == old(form) && editBookId == old(editBookId)
                      && isFormVisible == old(isFormVisible)
                      && toasts == [ErrorToast("Failed to " + (if Editing(old(editBookId)) then "update" else "add") + " book.")])
    {
      var token := window.GetItem(AccessKey);
      var isAuthenticated := token.Some? && token.value != "";
      if !isAuthenticated {
        toasts := [ErrorToast("Please log in to " + (if Editing(editBookId) then "edit" else "add") + " a book.")];
        window.Navigate("/login");
        return [], toasts;
      }
      isLoading := true;
      var data := NewBookData(form);
      var editing := Editing(editBookId);
      if editing {
        calls := [ApiCall(Put, BookPath(editBookId.value), FormBody(data.entries))];
      } else {
        calls := [ApiCall(Post, BooksPath, FormBody(data.entries))];
      }
      toasts := ApplySaved(reply);
      isLoading := false;
    }

    /** The settled add or update request of `handleSubmit`: on success the
        returned book replaces or leads the list and the form closes; on
        failure nothing changes but the toast. */
    method ApplySaved(reply: Reply<Book>) returns (toasts: seq<Toast>)
      modifies this`books, this`form, this`editBookId, this`isFormVisible
      ensures reply.Resolved? ==>
                && books == (if Editing(old(editBookId))
                             then ReplaceById(old(books), old(editBookId).value, reply.value)
                             else Prepend(reply.value, old(books)))
                && form == EmptyForm && editBookId == None && !isFormVisible
                && toasts == [SuccessToast(if Editing(old(editBookId)) then "Book updated successfully!"
                                           else "Book added successfully!")]
      ensures reply.Rejected? ==>
                && books == old(books) && form == old(form) && editBookId == old(editBookId)
                && isFormVisible == old(isFormVisible)
                && toasts == [ErrorToast("Failed to " + (if Editing(old(editBookId)) then "update" else "add") + " book.")]
    {
      var editing := Editing(editBookId);
      if reply.Resolved? {
        if editing {
          books := ReplaceById(books, editBookId.value, reply.value);
          toasts := [SuccessToast("Book updated successfully!")];
        } else {
          books := Prepend(reply.value, books);
          toasts := [SuccessToast("Book added successfully!")];
        }
        form, editBookId, isFormVisible := EmptyForm, None, false;
      } else {
        toasts := [ErrorToast("Failed to " + (if editing then "update" else "add") + " book.")];
      }
    }

    /** `handleEdit` (lines 97-108): the form shows the book and the page
        enters edit mode for its id. */
    method HandleEdit(book: Book)
      modifies this`form, this`editBookId, this`isFormVisible
      ensures form == FormFor(book) && editBookId == Some(book.id) && isFormVisible
    {
      form := BookForm(book.title, book.authors, book.genre, book.publicationDate,
                       if book.description.Some? then book.description.value else "", None);
      editBookId := Some(book.id);
      isFormVisible := true;
    }

    /** `handleDelete` (lines 110-128). */
    method HandleDelete(bookId: int, reply: Reply<Response>) returns (calls: seq<ApiCall>, toasts: seq<Toast>)
      modifies this`books, this`isLoading, window`route
      ensures window.storage == old(window.storage)
      ensures !Navbar.IsAuthenticated(window.storage) ==>
                && calls == [] && window.route == "/login" && books == old(books) && isLoading == old(isLoading)
                && toasts == [ErrorToast("Please log in to delete a book.")]
      ensures Navbar.IsAuthenticated(window.storage) ==>
                && calls == [ApiCall(Delete, DeletePath(bookId), NoBody)]
                && window.route == old(window.route) && !isLoading
                && (reply.Resolved? ==> books == WithoutId(old(books), bookId)
                                        && toasts == [SuccessToast("Book removed successfully!")])
                && (reply.Rejected? ==> books == old(books) && toasts == [ErrorToast("Failed to remove book.")])
    {
      var token := window.GetItem(AccessKey);
      if !(token.Some? && token.value != "") {
        toasts := [ErrorToast("Please log in to delete a book.")];
        window.Navigate("/login");
        return [], toasts;
      }
      isLoading := true;
      calls := [ApiCall(Delete, DeletePath(bookId), NoBody)];
      if reply.Resolved? {
        books := WithoutId(books, bookId);
        toasts := [SuccessToast("Book removed successfully!")];
      } else {
        toasts := [ErrorToast("Failed to remove book.")];
      }
      isLoading := false;
    }
  }
}
