/**
 * CommandServiceImpl (mycqrs/command/CommandServiceImpl.java): creates authors and books in
 * the store and changes stored records in place through two finders. Each update reaches one
 * record found by a field value and is a no-op when none has that value.
 */
module CqrsCommand {
  import opened Wrappers
  import opened CqrsDomain
  import opened MemoryDb
  import opened CqrsStore

  class CommandServiceImpl {
    const db: MemoryDatabase

    /** The service works on the single store that db() returns. */
    constructor (db: MemoryDatabase)
      ensures this.db == db
    {
      this.db := db;
    }

    /**
     * authorCreated: saves one new author under the next id, even when the username is taken
     * already; the book table and every other table are unchanged.
     */
    method AuthorCreated(username: string, name: string, email: string)
      requires Linked(db)
      modifies db
      ensures Linked(db)
      ensures db.lastId == old(db.lastId) + 1
      ensures db.lastId !in old(Authors(db))
      ensures Authors(db) == old(Authors(db))[db.lastId := Author(username, name, email)]
      ensures |Authors(db)| == |old(Authors(db))| + 1
      ensures forall t :: t != AuthorTbl ==> db.Rows(t) == old(db.Rows(t))
    {
      var r := db.Save(AuthorTbl, Author(username, name, email));
      assert r.Success?;
      assert AuthorTbl != BookTbl;
      assert Books(db) == old(Books(db));
      assert forall id :: id in old(Authors(db)) ==> id in Authors(db);
    }

    /**
     * bookAddedToAuthor: when some author has the username, saves one new book referring to
     * that author; otherwise nothing changes.
     */
    method BookAddedToAuthor(title: string, price: Price, username: string)
      requires Linked(db)
      modifies db
      ensures Linked(db)
      ensures !AuthorExists(old(Authors(db)), username) ==> db.lastId == old(db.lastId) && Books(db) == old(Books(db))
      ensures AuthorExists(old(Authors(db)), username) ==> db.lastId == old(db.lastId) + 1
      ensures AuthorExists(old(Authors(db)), username) ==> db.lastId !in old(Books(db))
      ensures AuthorExists(old(Authors(db)), username) ==>
        exists id :: id in old(Authors(db)) && HasUsername(old(Authors(db))[id], username) &&
          Books(db) == old(Books(db))[db.lastId := Book(title, price, id)]
      ensures forall t :: t != BookTbl ==> db.Rows(t) == old(db.Rows(t))
    {
      var author := FindAuthorByUsername(username);
      if author.Some? {
        ghost var before := Books(db);
        var r := db.Save(BookTbl, Book(title, price, author.value));
        assert r.Success?;
        assert AuthorTbl != BookTbl;
        assert Authors(db) == old(Authors(db));
        assert Books(db) == before[db.lastId := Book(title, price, author.value)];
      }
    }

    /** authorNameUpdated: renames one author with the username; a no-op when there is none. */
    method AuthorNameUpdated(username: string, name: string)
      requires Linked(db)
      modifies db
      ensures Linked(db)
      ensures !AuthorExists(old(Authors(db)), username) ==> Authors(db) == old(Authors(db))
      ensures AuthorExists(old(Authors(db)), username) ==>
        exists id :: id in old(Authors(db)) && HasUsername(old(Authors(db))[id], username) &&
          Authors(db) == old(Authors(db))[id := old(Authors(db))[id].(name := name)]
      ensures forall t :: t != AuthorTbl ==> db.Rows(t) == old(db.Rows(t))
      ensures db.lastId == old(db.lastId)
    {
      var author := FindAuthorByUsername(username);
      if author.Some? {
        var a := Authors(db)[author.value];
        db.SetRow(AuthorTbl, author.value, a.(name := name));
        assert AuthorTbl != BookTbl;
        assert Books(db) == old(Books(db)) && Authors(db).Keys == old(Authors(db)).Keys;
      }
    }

    /**
     * authorUsernameUpdated: gives one author with the old username the new one; a no-op when
     * there is none. Afterwards an author has the new username, and when the old one was
     * unique and differs from the new one no author has it any more.
     */
    method AuthorUsernameUpdated(oldUsername: string, newUsername: string)
      requires Linked(db)
      modifies db
      ensures Linked(db)
      ensures !AuthorExists(old(Authors(db)), oldUsername) ==> Authors(db) == old(Authors(db))
      ensures AuthorExists(old(Authors(db)), oldUsername) ==>
        exists id :: id in old(Authors(db)) && HasUsername(old(Authors(db))[id], oldUsername) &&
          Authors(db) == old(Authors(db))[id := old(Authors(db))[id].(username := newUsername)]
      ensures AuthorExists(old(Authors(db)), oldUsername) ==> AuthorExists(Authors(db), newUsername)
      ensures UniqueUsername(old(Authors(db)), oldUsername) && oldUsername != newUsername ==>
        !AuthorExists(Authors(db), oldUsername)
      ensures forall t :: t != AuthorTbl ==> db.Rows(t) == old(db.Rows(t))
      ensures db.lastId == old(db.lastId)
    {
      var author := FindAuthorByUsername(oldUsername);
      if author.Some? {
        var id := author.value;
        var a := Authors(db)[id];
        db.SetRow(AuthorTbl, id, a.(username := newUsername));
        assert AuthorTbl != BookTbl;
        assert Books(db) == old(Books(db)) && Authors(db).Keys == old(Authors(db)).Keys;
        assert HasUsername(Authors(db)[id], newUsername);
      }
    }

    /** authorEmailUpdated: changes the email of one author with the username, if any. */
    method AuthorEmailUpdated(username: string, email: string)
      requires Linked(db)
      modifies db
      ensures Linked(db)
      ensures !AuthorExists(old(Authors(db)), username) ==> Authors(db) == old(Authors(db))
      ensures AuthorExists(old(Authors(db)), username) ==>
        exists id :: id in old(Authors(db)) && HasUsername(old(Authors(db))[id], username) &&
          Authors(db) == old(Authors(db))[id := old(Authors(db))[id].(email := email)]
      ensures forall t :: t != AuthorTbl ==> db.Rows(t) == old(db.Rows(t))
      ensures db.lastId == old(db.lastId)
    {
      var author := FindAuthorByUsername(username);
      if author.Some? {
        var a := Authors(db)[author.value];
        db.SetRow(AuthorTbl, author.value, a.(email := email));
        assert AuthorTbl != BookTbl;
        assert Books(db) == old(Books(db)) && Authors(db).Keys == old(Authors(db)).Keys;
      }
    }

    /** bookTitleUpdated: retitles one book with the old title, if any. */
    method BookTitleUpdated(oldTitle: string, newTitle: string)
      requires Linked(db)
      modifies db
      ensures Linked(db)
      ensures !BookExists(old(Books(db)), oldTitle) ==> Books(db) == old(Books(db))
      ensures BookExists(old(Books(db)), oldTitle) ==>
        exists id :: id in old(Books(db)) && HasTitle(old(Books(db))[id], oldTitle) &&
          Books(db) == old(Books(db))[id := old(Books(db))[id].(title := newTitle)]
      ensures forall t :: t != BookTbl ==> db.Rows(t) == old(db.Rows(t))
      ensures db.lastId == old(db.lastId)
    {
      var book := FindBookByTitle(oldTitle);
      if book.Some? {
        var b := Books(db)[book.value];
        db.SetRow(BookTbl, book.value, b.(title := newTitle));
        assert AuthorTbl != BookTbl;
        assert Authors(db) == old(Authors(db));
      }
    }

    /** bookPriceUpdated: changes the price of one book with the title, if any. */
    method BookPriceUpdated(title: string, price: Price)
      requires Linked(db)
      modifies db
      ensures Linked(db)
      ensures !BookExists(old(Books(db)), title) ==> Books(db) == old(Books(db))
      ensures BookExists(old(Books(db)), title) ==>
        exists id :: id in old(Books(db)) && HasTitle(old(Books(db))[id], title) &&
          Books(db) == old(Books(db))[id := old(Books(db))[id].(price := price)]
      ensures forall t :: t != BookTbl ==> db.Rows(t) == old(db.Rows(t))
      ensures db.lastId == old(db.lastId)
    {
      var book := FindBookByTitle(title);
      if book.Some? {
        var b := Books(db)[book.value];
        db.SetRow(BookTbl, book.value, b.(price := price));
        assert AuthorTbl != BookTbl;
        assert Authors(db) == old(Authors(db));
      }
    }

    /**
     * findAuthorByUsername: the id of some author with the username, or nothing when no author
     * has it. Listing the table creates it when absent; no row changes.
     */
    method FindAuthorByUsername(username: string) returns (r: Option<int>)
      requires Linked(db)
      modifies db
      ensures Linked(db)
      ensures forall t :: db.Rows(t) == old(db.Rows(t))
      ensures db.tableTypes == old(db.tableTypes) && db.lastId == old(db.lastId)
      ensures r.None? <==> !AuthorExists(Authors(db), username)
      ensures r.Some? ==> r.value in Authors(db) && HasUsername(Authors(db)[r.value], username)
    {
      var rows := db.GetTable(AuthorTbl);
      assert Authors(db) == old(Authors(db)) && Books(db) == old(Books(db));
      if id :| id in rows && HasUsername(rows[id], username) {
        return Some(id);
      }
      return None;
    }

    /** findBookByTitle: the id of some book with the title, or nothing when none has it. */
    method FindBookByTitle(title: string) returns (r: Option<int>)
      requires Linked(db)
      modifies db
      ensures Linked(db)
      ensures forall t :: db.Rows(t) == old(db.Rows(t))
      ensures db.tableTypes == old(db.tableTypes) && db.lastId == old(db.lastId)
      ensures r.None? <==> !BookExists(Books(db), title)
      ensures r.Some? ==> r.value in Books(db) && HasTitle(Books(db)[r.value], title)
    {
      var rows := db.GetTable(BookTbl);
      assert Authors(db) == old(Authors(db)) && Books(db) == old(Books(db));
      if id :| id in rows && HasTitle(rows[id], title) {
        return Some(id);
      }
      return None;
    }
  }
}
