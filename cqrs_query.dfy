/**
 * QueryServiceImpl (mycqrs/query/QueryServiceImpl.java): counts and projections read back
 * from the store by filtering table listings. Queries are functions of the store's state, so
 * they change nothing.
 */
module CqrsQuery {
  import opened Wrappers
  import opened CqrsDomain
  import opened MemoryDb
  import opened CqrsStore

  datatype AuthorDTO = AuthorDTO(name: string, email: string, username: string)

  datatype BookDTO = BookDTO(title: string, price: Price)

  /** toDTO(Book): the title and the price. */
  function BookDto(b: Record): BookDTO
    requires b.Book?
  {
    BookDTO(b.title, b.price)
  }

  /** toDTO(Author): the name, the email and the username. */
  function AuthorDto(a: Record): AuthorDTO
    requires a.Author?
  {
    AuthorDTO(a.name, a.email, a.username)
  }

  /** The stream map of toDTO over books. */
  function BookDtos(s: seq<Record>): (r: seq<BookDTO>)
    requires forall x :: x in s ==> x.Book?
    ensures |r| == |s|
    ensures forall i :: 0 <= i < |s| ==> r[i] == BookDto(s[i])
  {
    if s == [] then [] else [BookDto(s[0])] + BookDtos(s[1..])
  }

  /** The filters of the three finders. */
  function Named(username: string): Record -> bool
  {
    (r: Record) => HasUsername(r, username)
  }

  function Titled(title: string): Record -> bool
  {
    (r: Record) => HasTitle(r, title)
  }

  function ByAuthor(authors: map<int, Record>, username: string): Record -> bool
  {
    (r: Record) => WrittenBy(authors, username, r)
  }

  /** The ids of the books whose author has the username. */
  ghost function BookIdsOf(authors: map<int, Record>, books: map<int, Record>, username: string): set<int>
  {
    set id | id in books && WrittenBy(authors, username, books[id])
  }

  /** The ids of the books whose author has the username and whose projection is d. */
  ghost function BooksShowing(authors: map<int, Record>, books: map<int, Record>, username: string, d: BookDTO): set<int>
  {
    set id | id in books && WrittenBy(authors, username, books[id]) && BookDto(books[id]) == d
  }

  /** The books of the author with the username that project to d. */
  function Showing(authors: map<int, Record>, username: string, d: BookDTO): Record -> bool
  {
    (r: Record) => WrittenBy(authors, username, r) && BookDto(r) == d
  }

  /** Projecting the filtered books yields d once per book of the author that projects to d. */
  lemma {:induction false} ByAuthorDtoCount(authors: map<int, Record>, username: string, s: seq<Record>, d: BookDTO)
    ensures multiset(BookDtos(Filter(ByAuthor(authors, username), s)))[d] ==
      |Filter(Showing(authors, username, d), s)|
    decreases |s|
  {
    if s != [] {
      var p := ByAuthor(authors, username);
      var q := Showing(authors, username, d);
      ByAuthorDtoCount(authors, username, s[1..], d);
      var rest := Filter(p, s[1..]);
      assert Filter(q, s) == (if q(s[0]) then [s[0]] else []) + Filter(q, s[1..]);
      if p(s[0]) {
        assert Filter(p, s) == [s[0]] + rest;
        BookDtosCons(s[0], rest);
        assert multiset(BookDtos([s[0]] + rest)) == multiset{BookDto(s[0])} + multiset(BookDtos(rest));
      } else {
        assert Filter(p, s) == [] + rest;
        assert [] + rest == rest;
      }
    }
  }

  lemma BookDtosCons(x: Record, s: seq<Record>)
    requires x.Book? && forall y :: y in s ==> y.Book?
    ensures BookDtos([x] + s) == [BookDto(x)] + BookDtos(s)
  {
    assert ([x] + s)[1..] == s;
  }

  /** A filtered listing holds x exactly when some row holds x and x passes the filter. */
  lemma FilteredListingMembers(p: Record -> bool, m: map<int, Record>, hi: nat, x: Record)
    requires IdsWithin(m, hi)
    ensures x in Filter(p, Listing(m, hi)) <==> exists id :: id in m && m[id] == x && p(x)
  {
    ListingValues(m, hi, x);
  }

  lemma BookDtosMembers(s: seq<Record>, d: BookDTO)
    requires forall x :: x in s ==> x.Book?
    ensures d in BookDtos(s) <==> exists x :: x in s && BookDto(x) == d
  {
    if d in BookDtos(s) {
      var i :| 0 <= i < |s| && BookDtos(s)[i] == d;
      assert s[i] in s;
    }
    if exists x :: x in s && BookDto(x) == d {
      var x :| x in s && BookDto(x) == d;
      var i :| 0 <= i < |s| && s[i] == x;
      assert BookDtos(s)[i] == d;
    }
  }

  /**
   * findAuthorsBookByUsername then toDTO: one projection per book whose author has the
   * username, and exactly the projections of such books, each as many times as there are
   * such books projecting to it.
   */
  lemma AuthorBooksMeaning(authors: map<int, Record>, books: map<int, Record>, hi: nat, username: string)
    requires IdsWithin(books, hi)
    ensures var found := Filter(ByAuthor(authors, username), Listing(books, hi));
      && |found| == |BookIdsOf(authors, books, username)|
      && (forall d :: d in BookDtos(found) <==>
           exists id :: id in books && WrittenBy(authors, username, books[id]) && d == BookDto(books[id]))
      && forall d :: multiset(BookDtos(found))[d] == |BooksShowing(authors, books, username, d)|
  {
    var p := ByAuthor(authors, username);
    var found := Filter(p, Listing(books, hi));
    FilterListingCount(p, books, hi);
    assert IdsWhere(p, books, hi) == BookIdsOf(authors, books, username);
    forall d
      ensures d in BookDtos(found) <==>
        exists id :: id in books && WrittenBy(authors, username, books[id]) && d == BookDto(books[id])
    {
      BookDtosMembers(found, d);
      forall x
        ensures x in found <==> exists id :: id in books && books[id] == x && p(x)
      {
        FilteredListingMembers(p, books, hi, x);
      }
    }
    AuthorBooksMultiplicity(authors, books, hi, username);
  }

  /** Each projection occurs once per book of the author that projects to it. */
  lemma AuthorBooksMultiplicity(authors: map<int, Record>, books: map<int, Record>, hi: nat, username: string)
    requires IdsWithin(books, hi)
    ensures var found := Filter(ByAuthor(authors, username), Listing(books, hi));
      forall d :: multiset(BookDtos(found))[d] == |BooksShowing(authors, books, username, d)|
  {
    var found := Filter(ByAuthor(authors, username), Listing(books, hi));
    forall d
      ensures multiset(BookDtos(found))[d] == |BooksShowing(authors, books, username, d)|
    {
      ByAuthorDtoCount(authors, username, Listing(books, hi), d);
      FilterListingCount(Showing(authors, username, d), books, hi);
      ShowingIds(authors, books, hi, username, d);
    }
  }

  lemma ShowingIds(authors: map<int, Record>, books: map<int, Record>, hi: nat, username: string, d: BookDTO)
    requires IdsWithin(books, hi)
    ensures IdsWhere(Showing(authors, username, d), books, hi) == BooksShowing(authors, books, username, d)
  {
    var q := Showing(authors, username, d);
    forall id | id in books
      ensures q(books[id]) <==> WrittenBy(authors, username, books[id]) && BookDto(books[id]) == d
    {
    }
  }

  /**
   * Renaming the only author with the old username to a username no author has moves every
   * book of that author to the new username: the book refers to the author object itself.
   */
  lemma RenameMovesBooks(authors: map<int, Record>, books: map<int, Record>, k: int,
                         oldUsername: string, newUsername: string)
    requires k in authors && HasUsername(authors[k], oldUsername)
    requires UniqueUsername(authors, oldUsername)
    requires !AuthorExists(authors, newUsername)
    ensures var renamed := authors[k := authors[k].(username := newUsername)];
      && BookIdsOf(renamed, books, newUsername) == BookIdsOf(authors, books, oldUsername)
      && BookIdsOf(renamed, books, oldUsername) == {}
  {
    var renamed := authors[k := authors[k].(username := newUsername)];
    forall id | id in books
      ensures WrittenBy(renamed, newUsername, books[id]) <==> WrittenBy(authors, oldUsername, books[id])
      ensures !WrittenBy(renamed, oldUsername, books[id])
    {
      var b := books[id];
      if b.Book? && b.author in authors && b.author != k {
        assert renamed[b.author] == authors[b.author];
        assert !HasUsername(authors[b.author], newUsername);
        assert !HasUsername(authors[b.author], oldUsername);
      }
    }
  }

  class QueryServiceImpl {
    const db: MemoryDatabase

    /** The service reads the single store that db() returns. */
    constructor (db: MemoryDatabase)
      ensures this.db == db
    {
      this.db := db;
    }

    /** getAuthorsCount: the number of author rows. */
    function GetAuthorsCount(): (n: nat)
      reads db
      requires db.Valid()
      ensures n == |Authors(db)|
    {
      ListingLength(Authors(db), db.lastId);
      |Listing(Authors(db), db.lastId)|
    }

    /** getAuthorBooks: the (title, price) of each book whose author has the username. */
    function GetAuthorBooks(username: string): (r: seq<BookDTO>)
      reads db
      requires db.Valid()
      ensures |r| == |BookIdsOf(Authors(db), Books(db), username)|
      ensures forall d :: d in r <==>
        exists id :: id in Books(db) && WrittenBy(Authors(db), username, Books(db)[id]) && d == BookDto(Books(db)[id])
      ensures forall d :: multiset(r)[d] == |BooksShowing(Authors(db), Books(db), username, d)|
    {
      AuthorBooksMeaning(Authors(db), Books(db), db.lastId, username);
      BookDtos(Filter(ByAuthor(Authors(db), username), Listing(Books(db), db.lastId)))
    }

    /** getAuthorBooksCount: the same filter counted, so the length of getAuthorBooks. */
    function GetAuthorBooksCount(username: string): (n: nat)
      reads db
      requires db.Valid()
      ensures n == |GetAuthorBooks(username)|
      ensures n == |BookIdsOf(Authors(db), Books(db), username)|
    {
      AuthorBooksMeaning(Authors(db), Books(db), db.lastId, username);
      |Filter(ByAuthor(Authors(db), username), Listing(Books(db), db.lastId))|
    }

    /**
     * getAuthorByUsername: nothing exactly when no author has the username; otherwise the
     * name, email and username of an author who has it.
     */
    function GetAuthorByUsername(username: string): (r: Option<AuthorDTO>)
      reads db
      requires db.Valid()
      ensures r.None? <==> !AuthorExists(Authors(db), username)
      ensures r.Some? ==>
        exists id :: id in Authors(db) && HasUsername(Authors(db)[id], username) && r.value == AuthorDto(Authors(db)[id])
      ensures r.Some? ==> r.value.username == username
    {
      var found := Filter(Named(username), Listing(Authors(db), db.lastId));
      if |found| == 0 then
        FirstOrNone(Named(username), Authors(db), db.lastId);
        None
      else
        FilteredListingMembers(Named(username), Authors(db), db.lastId, found[0]);
        Some(AuthorDto(found[0]))
    }

    /** getBook: nothing exactly when no book has the title; otherwise that book's projection. */
    function GetBook(title: string): (r: Option<BookDTO>)
      reads db
      requires db.Valid()
      ensures r.None? <==> !BookExists(Books(db), title)
      ensures r.Some? ==>
        exists id :: id in Books(db) && HasTitle(Books(db)[id], title) && r.value == BookDto(Books(db)[id])
      ensures r.Some? ==> r.value.title == title
    {
      var found := Filter(Titled(title), Listing(Books(db), db.lastId));
      if |found| == 0 then
        FirstOrNone(Titled(title), Books(db), db.lastId);
        None
      else
        FilteredListingMembers(Titled(title), Books(db), db.lastId, found[0]);
        Some(BookDto(found[0]))
    }
  }

  /** An empty filtered listing means no row passes the filter. */
  lemma FirstOrNone(p: Record -> bool, m: map<int, Record>, hi: nat)
    requires IdsWithin(m, hi) && |Filter(p, Listing(m, hi))| == 0
    ensures forall id :: id in m ==> !p(m[id])
  {
    forall id | id in m
      ensures !p(m[id])
    {
      FilteredListingMembers(p, m, hi, m[id]);
    }
  }
}
