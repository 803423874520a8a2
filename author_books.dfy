/**
 * The one-to-many Author/Book association kept in memory: an Author holds a
 * list of books, each Book a reference back to its author, and the helper
 * methods update both sides.
 */
module AuthorBooks {
  import opened Wrappers
  import opened ListRemoval

  /** The category a book may belong to; only its identity matters here. */
  class Category {
    var id: Option<int>
    var name: string
    var description: string

    constructor (name: string, description: string)
      ensures this.name == name && this.description == description && id.None?
    {
      this.id := None;
      this.name := name;
      this.description := description;
    }
  }

  class Book {
    var id: Option<int>
    var title: string
    var isbn: string
    var author: Author?
    var category: Category?

    /** A book with no author and no category. */
    constructor (title: string, isbn: string)
      ensures this.title == title && this.isbn == isbn
      ensures author == null && category == null && id.None?
    {
      this.id := None;
      this.title := title;
      this.isbn := isbn;
      this.author := null;
      this.category := null;
    }

    /**
     * A book pointing at the given author. The author's list is not touched,
     * so the new book is not in it.
     */
    constructor WithAuthor(title: string, isbn: string, author: Author?)
      ensures this.title == title && this.isbn == isbn
      ensures this.author == author && category == null && id.None?
      ensures author != null ==> author.books == old(author.books)
    {
      this.id := None;
      this.title := title;
      this.isbn := isbn;
      this.author := author;
      this.category := null;
    }

    method SetAuthor(author: Author?)
      modifies this`author
      ensures this.author == author
      ensures title == old(title) && isbn == old(isbn) && category == old(category)
    {
      this.author := author;
    }

    method SetCategory(category: Category?)
      modifies this`category
      ensures this.category == category
      ensures title == old(title) && isbn == old(isbn) && author == old(author)
    {
      this.category := category;
    }
  }

  class Author {
    var id: Option<int>
    var name: string
    var email: string
    var books: seq<Book>

    /** Every book in the list points back at this author. */
    ghost predicate OwnsItsBooks()
      reads this, books
    {
      forall b :: b in books ==> b.author == this
    }

    /** No book occurs twice in the list. */
    ghost predicate NoDuplicates()
      reads this
    {
      forall i, j :: 0 <= i < j < |books| ==> books[i] != books[j]
    }

    /** An author with an empty list of books. */
    constructor (name: string, email: string)
      ensures this.name == name && this.email == email && id.None?
      ensures books == []
      ensures OwnsItsBooks() && NoDuplicates()
    {
      this.id := None;
      this.name := name;
      this.email := email;
      this.books := [];
    }

    /**
     * Append the book at the end of the list, even when it is already there,
     * and point it at this author. No other author's list changes.
     */
    method AddBook(book: Book)
      modifies this`books, book`author
      ensures books == old(books) + [book]
      ensures book.author == this
      ensures old(OwnsItsBooks()) ==> OwnsItsBooks()
      ensures old(NoDuplicates()) ==> (NoDuplicates() <==> book !in old(books))
    {
      books := books + [book];
      book.SetAuthor(this);
      if book in old(books) {
        var k :| 0 <= k < |old(books)| && old(books)[k] == book;
        assert books[k] == books[|books| - 1];
      }
    }

    /**
     * Remove the first occurrence of the book, if any, and clear the book's
     * author whether or not it was in the list.
     */
    method RemoveBook(book: Book)
      modifies this`books, book`author
      ensures books == RemoveFirst(old(books), book)
      ensures book.author == null
      ensures old(OwnsItsBooks()) && multiset(old(books))[book] <= 1 ==> OwnsItsBooks()
    {
      books := RemoveFirst(books, book);
      book.SetAuthor(null);
      if old(OwnsItsBooks()) && multiset(old(books))[book] <= 1 {
        RemoveOnlyOccurrence(old(books), book);
        forall b | b in books ensures b.author == this {
          RemoveFirstMembers(old(books), book, b);
        }
      }
    }
  }

  /**
   * The two sides agree over a collection of authors and books: a book is in
   * an author's list exactly when it points at that author.
   */
  ghost predicate Consistent(authors: set<Author>, books: set<Book>)
    reads authors, books
  {
    forall a, b :: a in authors && b in books ==> (b in a.books <==> b.author == a)
  }

  /** Adding a book that no other author lists keeps the two sides consistent. */
  method AddFreeBookKeepsConsistent(authors: set<Author>, books: set<Book>, a: Author, b: Book)
    requires Consistent(authors, books)
    requires forall x :: x in authors && x != a ==> b !in x.books
    modifies a`books, b`author
    ensures Consistent(authors, books)
  {
    a.AddBook(b);
  }

  /** Removing a book listed at most once, and by no other author, keeps the two sides consistent. */
  method RemoveHeldBookKeepsConsistent(authors: set<Author>, books: set<Book>, a: Author, b: Book)
    requires Consistent(authors, books)
    requires multiset(a.books)[b] <= 1
    requires forall x :: x in authors && x != a ==> b !in x.books
    modifies a`books, b`author
    ensures Consistent(authors, books)
  {
    ghost var before := a.books;
    a.RemoveBook(b);
    RemoveOnlyOccurrence(before, b);
    forall c | c in books && c != b ensures c in a.books <==> c in before {
      RemoveFirstMembers(before, b, c);
    }
  }

  /** Each getter returns the last value its setter stored; the setters do not disturb each other. */
  method SetAuthorThenCategory(book: Book, author: Author?, category: Category?)
    modifies book`author, book`category
    ensures book.author == author && book.category == category
    ensures book.title == old(book.title) && book.isbn == old(book.isbn)
  {
    book.SetAuthor(author);
    book.SetCategory(category);
  }

  /** addBook followed by removeBook of a book not in the list restores the list. */
  method AddThenRemove(a: Author, b: Book)
    requires b !in a.books
    modifies a`books, b`author
    ensures a.books == old(a.books) && b.author == null
  {
    a.AddBook(b);
    a.RemoveBook(b);
    RemoveAfterAppend(old(a.books), b);
  }

  /** Creating an author with two books through the helper keeps both sides in step. */
  method CreateAuthorWithBooks() returns (author: Author, book1: Book, book2: Book)
    ensures author.books == [book1, book2]
    ensures book1.author == author && book2.author == author
    ensures Consistent({author}, {book1, book2})
  {
    author := new Author("J.K. Rowling", "jk@example.com");
    book1 := new Book("Harry Potter 1", "ISBN-001");
    book2 := new Book("Harry Potter 2", "ISBN-002");
    author.AddBook(book1);
    author.AddBook(book2);
  }

  /** A duplicate entry survives one removal while the book's author is cleared. */
  method DuplicateBreaksOwnership() returns (author: Author, book: Book)
    ensures author.books == [book] && book.author == null
    ensures !author.OwnsItsBooks()
  {
    author := new Author("A", "a@example.com");
    book := new Book("T", "ISBN-1");
    author.AddBook(book);
    author.AddBook(book);
    author.RemoveBook(book);
    assert author.books[0] == book;
  }

  /** Removing a book through an author that does not hold it clears the book's real author link. */
  method ForeignRemoveBreaksConsistency() returns (owner: Author, other: Author, book: Book)
    ensures owner.books == [book] && other.books == [] && book.author == null
    ensures !Consistent({owner, other}, {book})
  {
    owner := new Author("A", "a@example.com");
    other := new Author("B", "b@example.com");
    book := new Book("T", "ISBN-1");
    owner.AddBook(book);
    other.RemoveBook(book);
    assert book in owner.books;
  }

  /** Adding a book to a second author leaves it in the first author's list too. */
  method ReAddBreaksConsistency() returns (first: Author, second: Author, book: Book)
    ensures first.books == [book] && second.books == [book] && book.author == second
    ensures !Consistent({first, second}, {book})
  {
    first := new Author("A", "a@example.com");
    second := new Author("B", "b@example.com");
    book := new Book("T", "ISBN-1");
    first.AddBook(book);
    second.AddBook(book);
    assert book in first.books;
  }

  /** The three-argument book constructor sets only the book's side. */
  method ConstructorBreaksConsistency() returns (author: Author, book: Book)
    ensures book.author == author && author.books == []
    ensures !Consistent({author}, {book})
  {
    author := new Author("A", "a@example.com");
    book := new Book.WithAuthor("T", "ISBN-1", author);
  }
}
