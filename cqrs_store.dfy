/**
 * The author and book tables of the store as the mycqrs services see them, and the invariant
 * those services keep: each table holds only its own class, and every book refers to a
 * stored author.
 */
module CqrsStore {
  import opened CqrsDomain
  import opened MemoryDb

  function Authors(db: MemoryDatabase): (rows: map<int, Record>)
    reads db
    requires db.Valid()
  {
    db.Rows(AuthorTbl)
  }

  function Books(db: MemoryDatabase): (rows: map<int, Record>)
    reads db
    requires db.Valid()
  {
    db.Rows(BookTbl)
  }

  /** author.getUsername().equals(username) */
  predicate HasUsername(r: Record, username: string)
  {
    r.Author? && r.username == username
  }

  /** book.getTitle().equals(title) */
  predicate HasTitle(r: Record, title: string)
  {
    r.Book? && r.title == title
  }

  /** book.getAuthor().getUsername().equals(username): the book's author row has the username. */
  predicate WrittenBy(authors: map<int, Record>, username: string, r: Record)
  {
    r.Book? && r.author in authors && HasUsername(authors[r.author], username)
  }

  ghost predicate AuthorExists(authors: map<int, Record>, username: string)
  {
    exists id :: id in authors && HasUsername(authors[id], username)
  }

  ghost predicate BookExists(books: map<int, Record>, title: string)
  {
    exists id :: id in books && HasTitle(books[id], title)
  }

  /** At most one author has the username. */
  ghost predicate UniqueUsername(authors: map<int, Record>, username: string)
  {
    forall i, j ::
      (i in authors && j in authors && HasUsername(authors[i], username) && HasUsername(authors[j], username)) ==>
      i == j
  }

  ghost predicate Linked(db: MemoryDatabase)
    reads db
  {
    && db.Valid()
    && (AuthorTbl in db.tableTypes ==> db.tableTypes[AuthorTbl] == AuthorClass)
    && (BookTbl in db.tableTypes ==> db.tableTypes[BookTbl] == BookClass)
    && (forall id :: id in Books(db) ==> Books(db)[id].Book? && Books(db)[id].author in Authors(db))
  }
}
