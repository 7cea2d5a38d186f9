/**
 * The records the in-memory CQRS store holds: authors and books, and the two table names
 * (mycqrs/util/DBTable.java).
 */
module CqrsDomain {
  /**
   * A book's price, a Java double; it is only stored, copied and compared, so it is kept as
   * the bit pattern that Double.compare orders by.
   */
  datatype Price = Price(bits: int)

  /** The runtime class of a stored object, which the store checks per table. */
  datatype RecordClass = AuthorClass | BookClass

  /**
   * A stored object. A book holds its author object; here it holds the id under which that
   * author was saved, which names the very object a Java Book references, so an update to the
   * author row is seen through every book that refers to it.
   */
  datatype Record =
    | Author(username: string, name: string, email: string)
    | Book(title: string, price: Price, author: int)

  function ClassOf(r: Record): RecordClass
  {
    match r
    case Author(_, _, _) => AuthorClass
    case Book(_, _, _) => BookClass
  }

  const AuthorTbl := "author_tbl"
  const BookTbl := "book_tbl"
}
