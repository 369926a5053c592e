// The service layer. Every service method first checks its arguments and
// raises `IllegalArgumentException` without calling the DAO when they are
// bad; it then calls the DAO, turns any `PersistenceException` into a
// `PersistentLayerProblemsException` (except that `create` turns an
// `EntityExistsException` into an `AlreadyExistsException`), and turns a
// `null` answer into a `CanNotFindException`.
//
// Whether the storage layer fails during a call is outside the program, so
// it is a parameter: `fault` is the exception the DAO call raises, if any.
// The generic service owns its DAO's table and its writes change it; the
// finders of the concrete services are functions of the DAO's answer, with
// lemmas that fix that answer to the DAO model.

module Services {
  import opened JavaLang
  import opened Dao

  /** The exceptions a service raises; the controllers' handler maps each to a status. */
  datatype ServiceError = IllegalArgument | CanNotFind | AlreadyExists | PersistentLayerProblems

  datatype Result<T> = Ok(value: T) | Err(error: ServiceError)

  /** The DAO call as the service sees it: the storage fault if there is one, else the DAO's answer. */
  function Attempt<T>(fault: Option<PersistenceException>, answer: DaoOutcome<T>): DaoOutcome<T>
  {
    if fault.Some? then Thrown(fault.value) else answer
  }

  /** `find` answers a missing id with `null`. */
  function Nullable<T>(found: Option<T>): DaoOutcome<T>
  {
    if found.Some? then Value(found.value) else Null
  }

  /**
   * The shared tail of every reading service method: a thrown
   * `PersistenceException` becomes PersistentLayerProblems, a `null` answer
   * becomes CanNotFind, and anything else is returned unchanged.
   */
  function Answer<T>(found: DaoOutcome<T>): (r: Result<T>)
    ensures r.Ok? <==> found.Value?
    ensures r.Ok? ==> r.value == found.value
    ensures r == Err(CanNotFind) <==> found.Null?
    ensures r == Err(PersistentLayerProblems) <==> found.Thrown?
    ensures r.Err? ==> r.error != IllegalArgument && r.error != AlreadyExists
  {
    match found
    case Value(v) => Ok(v)
    case Null => Err(CanNotFind)
    case Thrown(_) => Err(PersistentLayerProblems)
  }

  // ---------------------------------------------------------------------
  // AbstractGenericServiceImpl

  /** The generic CRUD service over one entity type and its DAO. */
  class GenericService<T> {
    /** The autowired DAO. */
    const dao: Table<T>

    constructor (dao: Table<T>)
      ensures this.dao == dao
    {
      this.dao := dao;
    }

    /**
     * `create`: a `null` entity is refused before the DAO is called; the
     * entity is written with `merge` and the managed copy is returned. A
     * duplicate key becomes AlreadyExists, any other storage failure
     * PersistentLayerProblems, and a failed call leaves the table as it was.
     */
    method Create(t: Option<Entity<T>>, fault: Option<PersistenceException>) returns (r: Result<Entity<T>>)
      requires dao.Valid()
      modifies dao
      ensures dao.Valid()
      ensures t.None? ==> r == Err(IllegalArgument)
      ensures t.Some? && fault == Some(EntityExists) ==> r == Err(AlreadyExists)
      ensures t.Some? && fault.Some? && fault != Some(EntityExists) ==> r == Err(PersistentLayerProblems)
      ensures r.Err? ==> unchanged(dao)
      ensures t.Some? && fault.None? ==>
                r.Ok? && r.value.data == t.value.data && dao.rows == old(dao.rows)[r.value.id := t.value.data]
      ensures t.Some? && fault.None? && t.value.id in old(dao.rows) ==> r.value.id == t.value.id
      ensures t.Some? && fault.None? && t.value.id !in old(dao.rows) ==> r.value.id !in old(dao.rows)
      ensures r.Ok? && 0 <= r.value.id < 0x8000_0000 ==> GetById(r.value.id as int32, None) == Ok(r.value)
    {
      if t.None? {
        return Err(IllegalArgument);
      }
      if fault == Some(EntityExists) {
        return Err(AlreadyExists);
      }
      if fault.Some? {
        return Err(PersistentLayerProblems);
      }
      var merged := dao.Merge(t.value);
      r := Ok(merged);
    }

    /**
     * `getById`: only a negative id is refused, so id 0 is looked up. A
     * missing row becomes CanNotFind and a found one is returned unchanged.
     */
    function GetById(id: int32, fault: Option<PersistenceException>): (r: Result<Entity<T>>)
      reads dao
      ensures r == Err(IllegalArgument) <==> id < 0
      ensures id >= 0 && fault.Some? ==> r == Err(PersistentLayerProblems)
      ensures id >= 0 && fault.None? ==> (r.Ok? <==> id as int in dao.rows)
      ensures id >= 0 && fault.None? && id as int !in dao.rows ==> r == Err(CanNotFind)
      ensures r.Ok? ==> r.value.id == id as int && id as int in dao.rows && r.value.data == dao.rows[id as int]
    {
      if id < 0 then Err(IllegalArgument)
      else Answer(Attempt(fault, Nullable(dao.Find(id as int))))
    }

    /**
     * `update`: a `null` entity is refused; otherwise the result of `merge`
     * is returned as it is. There is no check that the entity exists, so
     * updating an unknown entity stores it as a new row.
     */
    method Update(t: Option<Entity<T>>, fault: Option<PersistenceException>) returns (r: Result<Entity<T>>)
      requires dao.Valid()
      modifies dao
      ensures dao.Valid()
      ensures t.None? ==> r == Err(IllegalArgument)
      ensures t.Some? && fault.Some? ==> r == Err(PersistentLayerProblems)
      ensures r.Err? ==> unchanged(dao)
      ensures t.Some? && fault.None? ==>
                r.Ok? && r.value.data == t.value.data && dao.rows == old(dao.rows)[r.value.id := t.value.data]
      ensures t.Some? && fault.None? && t.value.id in old(dao.rows) ==> r.value == t.value
      ensures t.Some? && fault.None? && t.value.id !in old(dao.rows) ==> r.value.id !in old(dao.rows)
    {
      if t.None? {
        return Err(IllegalArgument);
      }
      if fault.Some? {
        return Err(PersistentLayerProblems);
      }
      var merged := dao.Merge(t.value);
      r := Ok(merged);
    }

    /**
     * `delete`: a `null` entity is refused; otherwise the row is removed.
     * Deleting an entity that is not stored is not an error.
     */
    method Delete(t: Option<Entity<T>>, fault: Option<PersistenceException>) returns (r: Result<()>)
      requires dao.Valid()
      modifies dao
      ensures dao.Valid()
      ensures t.None? ==> r == Err(IllegalArgument)
      ensures t.Some? && fault.Some? ==> r == Err(PersistentLayerProblems)
      ensures r.Err? ==> unchanged(dao)
      ensures t.Some? && fault.None? ==> r == Ok(()) && dao.rows == old(dao.rows) - {t.value.id}
      ensures r.Ok? && 0 <= t.value.id < 0x8000_0000 ==> GetById(t.value.id as int32, None) == Err(CanNotFind)
    {
      if t.None? {
        return Err(IllegalArgument);
      }
      if fault.Some? {
        return Err(PersistentLayerProblems);
      }
      dao.Remove(t.value);
      r := Ok(());
    }

    /** `getAll`: every stored row, by ascending id; an empty table gives an empty list, not an error. */
    function GetAll(fault: Option<PersistenceException>): (r: Result<seq<Entity<T>>>)
      reads dao
      ensures r.Ok? <==> fault.None?
      ensures fault.Some? ==> r == Err(PersistentLayerProblems)
      ensures r.Ok? ==> |r.value| == |dao.rows| && Stored(r.value, dao.rows) && SortedById(r.value, true)
      ensures r.Ok? ==> forall id :: id in dao.rows ==> exists i :: 0 <= i < |r.value| && r.value[i].id == id
      ensures fault.None? && dao.rows == map[] ==> r == Ok([])
    {
      Answer(Attempt(fault, Value(dao.FindAll())))
    }

    /**
     * `countAll`: the DAO's count, except that a count of 0 becomes
     * CanNotFind. The count is narrowed to `int`, so a table of exactly
     * 2^32 rows is reported as not found as well.
     */
    function CountAll(fault: Option<PersistenceException>): (r: Result<int32>)
      reads dao
      ensures r == Err(PersistentLayerProblems) <==> fault.Some?
      ensures r == Err(CanNotFind) <==> fault.None? && dao.CountAll() == 0
      ensures r.Ok? ==> r.value != 0 && r.value == dao.CountAll()
      ensures fault.None? && |dao.rows| < 0x8000_0000 ==>
                (r.Ok? <==> |dao.rows| > 0) && (r.Ok? ==> r.value as int == |dao.rows|)
    {
      if fault.Some? then Err(PersistentLayerProblems)
      else
        var count := dao.CountAll();
        if count == 0 then Err(CanNotFind) else Ok(count)
    }

    /**
     * `getPaginatedAndOrdered`: `pageNumber < 1` or `pageSize < 0` is refused
     * before the DAO is called, so a page size of 0 is accepted; the DAO's
     * page is returned unchanged.
     */
    function GetPaginatedAndOrdered(asc: bool, pageNumber: int32, pageSize: int32, fault: Option<PersistenceException>)
      : (r: Result<seq<Entity<T>>>)
      reads dao
      ensures r == Err(IllegalArgument) <==> pageNumber < 1 || pageSize < 0
      ensures pageNumber >= 1 && pageSize >= 0 ==> (r == Err(PersistentLayerProblems) <==> fault.Some?)
      ensures r.Ok? <==> pageNumber >= 1 && pageSize >= 0 && fault.None?
      ensures r.Ok? ==> var o := PageOffset(pageNumber as int, pageSize as int);
                        |r.value| == if o >= |dao.rows| then 0 else Min(pageSize as int, |dao.rows| - o)
      ensures r.Ok? ==> Stored(r.value, dao.rows) && SortedById(r.value, asc)
      ensures r.Ok? ==> forall i :: 0 <= i < |r.value| ==>
                var j := PageOffset(pageNumber as int, pageSize as int) + i;
                j < |dao.rows| && r.value[i] == dao.Ordered(asc)[j]
    {
      if pageNumber < 1 || pageSize < 0 then Err(IllegalArgument)
      else Answer(Attempt(fault, Value(dao.FindPaginatedAndOrdered(asc, pageNumber, pageSize))))
    }

    /** `countAll` and `getAll` agree: the count is the length of the list, and "not found" means it is empty. */
    lemma CountAgreesWithGetAll(fault: Option<PersistenceException>)
      requires |dao.rows| < 0x8000_0000
      ensures CountAll(fault) == Err(CanNotFind) <==> GetAll(fault) == Ok([])
      ensures CountAll(fault).Ok? <==> GetAll(fault).Ok? && GetAll(fault).value != []
      ensures CountAll(fault).Ok? ==> CountAll(fault).value as int == |GetAll(fault).value|
    {
      if fault.None? && |dao.rows| > 0 {
        assert |GetAll(fault).value| > 0;
      }
    }

    /** Page 1 in ascending order, of a size that covers the table, is the whole of `getAll`. */
    lemma FirstPageIsGetAll(pageSize: int32, fault: Option<PersistenceException>)
      requires pageSize as int >= |dao.rows|
      ensures GetPaginatedAndOrdered(true, 1, pageSize, fault) == GetAll(fault)
    {
    }
  }

  // ---------------------------------------------------------------------
  // UserServiceImpl, BlogEntryServiceImpl and StaticContentServiceImpl

  /**
   * `getUserByUsername`: a `null` username is refused without a DAO call;
   * `found` is what `findUserByUsername` answered.
   */
  function GetUserByUsername(username: Option<string>, found: DaoOutcome<Entity<UserRow>>): (r: Result<Entity<UserRow>>)
    ensures r == Err(IllegalArgument) <==> username.None?
    ensures username.Some? ==> (r == Err(CanNotFind) <==> found.Null?)
    ensures username.Some? ==> (r == Err(PersistentLayerProblems) <==> found.Thrown?)
    ensures r.Ok? <==> username.Some? && found.Value?
    ensures r.Ok? ==> r.value == found.value
  {
    if username.None? then Err(IllegalArgument) else Answer(found)
  }

  /**
   * `getUserByUsername` over the user table: refused for `null`, not found
   * when no user has that name, a persistence problem when the storage
   * fails or two users share the name, and otherwise the one user with it.
   */
  lemma UsernameLookup(users: map<int, UserRow>, username: Option<string>, fault: Option<PersistenceException>)
    ensures var r := GetUserByUsername(username, Attempt(fault, FindUserByUsername(users, username)));
      && (r == Err(IllegalArgument) <==> username.None?)
      && (r == Err(CanNotFind) <==>
            username.Some? && fault.None? && forall k :: k in users ==> users[k].username != username)
      && (r == Err(PersistentLayerProblems) <==>
            username.Some? && (fault.Some? ||
              exists j, k :: j in users && k in users && j != k
                && users[j].username == username && users[k].username == username))
      && (r.Ok? ==> r.value.id in users && r.value.data == users[r.value.id] && r.value.data.username == username)
      && (r.Ok? ==> forall k :: k in users && users[k].username == username ==> k == r.value.id)
  {
    var found := FindUserByUsername(users, username);
    if username.Some? {
      assert forall k :: k in users ==> (SqlEquals(users[k].username, username) <==> users[k].username == username);
      if found.Thrown? {
        var j, k :| j in users && k in users && j != k
                    && SqlEquals(users[j].username, username) && SqlEquals(users[k].username, username);
        assert users[j].username == username && users[k].username == username;
      }
    }
  }

  /** `getUserByEmail`: the same four outcomes as the lookup by username, for the email. */
  function GetUserByEmail(email: Option<string>, found: DaoOutcome<Entity<UserRow>>): (r: Result<Entity<UserRow>>)
    ensures r == Err(IllegalArgument) <==> email.None?
    ensures email.Some? ==> (r == Err(CanNotFind) <==> found.Null?)
    ensures email.Some? ==> (r == Err(PersistentLayerProblems) <==> found.Thrown?)
    ensures r.Ok? <==> email.Some? && found.Value?
    ensures r.Ok? ==> r.value == found.value
  {
    if email.None? then Err(IllegalArgument) else Answer(found)
  }

  /** `getUserByEmail` over the user table. */
  lemma EmailLookup(users: map<int, UserRow>, email: Option<string>, fault: Option<PersistenceException>)
    ensures var r := GetUserByEmail(email, Attempt(fault, FindUserByEmail(users, email)));
      && (r == Err(IllegalArgument) <==> email.None?)
      && (r == Err(CanNotFind) <==>
            email.Some? && fault.None? && forall k :: k in users ==> users[k].email != email)
      && (r == Err(PersistentLayerProblems) <==>
            email.Some? && (fault.Some? ||
              exists j, k :: j in users && k in users && j != k
                && users[j].email == email && users[k].email == email))
      && (r.Ok? ==> r.value.id in users && r.value.data == users[r.value.id] && r.value.data.email == email)
      && (r.Ok? ==> forall k :: k in users && users[k].email == email ==> k == r.value.id)
  {
    var found := FindUserByEmail(users, email);
    if email.Some? {
      assert forall k :: k in users ==> (SqlEquals(users[k].email, email) <==> users[k].email == email);
      if found.Thrown? {
        var j, k :| j in users && k in users && j != k
                    && SqlEquals(users[j].email, email) && SqlEquals(users[k].email, email);
        assert users[j].email == email && users[k].email == email;
      }
    }
  }

  /**
   * `getUserCommentsByUserId`: a negative id, `pageNumber < 1` or
   * `pageSize < 0` is refused; id 0 and page size 0 are accepted. Any list
   * the DAO gives, an empty one included, is returned unchanged.
   */
  function GetUserCommentsByUserId(id: int32, pageNumber: int32, pageSize: int32,
                                   found: DaoOutcome<seq<Entity<BlogCommentRow>>>)
    : (r: Result<seq<Entity<BlogCommentRow>>>)
    ensures r == Err(IllegalArgument) <==> id < 0 || pageNumber < 1 || pageSize < 0
    ensures id >= 0 && pageNumber >= 1 && pageSize >= 0 ==>
              (r == Err(CanNotFind) <==> found.Null?) && (r == Err(PersistentLayerProblems) <==> found.Thrown?)
    ensures r.Ok? <==> id >= 0 && pageNumber >= 1 && pageSize >= 0 && found.Value?
    ensures r.Ok? ==> r.value == found.value
  {
    if id < 0 || pageNumber < 1 || pageSize < 0 then Err(IllegalArgument) else Answer(found)
  }

  /**
   * `getUserCommentsByUserId` over the comment table: a page of at most
   * `pageSize` of the user's own comments, by ascending id, and never
   * "not found", because the query gives a list even when it is empty.
   */
  lemma UserCommentsLookup(comments: map<int, BlogCommentRow>, id: int32, pageNumber: int32, pageSize: int32,
                           fault: Option<PersistenceException>)
    ensures var found := if id < 0 || pageNumber < 1 || pageSize < 0 then Null
                         else Attempt(fault, Value(FindUserCommentsByUserId(comments, id as int, pageNumber, pageSize)));
            var r := GetUserCommentsByUserId(id, pageNumber, pageSize, found);
      && r != Err(CanNotFind)
      && (r == Err(PersistentLayerProblems) <==> id >= 0 && pageNumber >= 1 && pageSize >= 0 && fault.Some?)
      && (r.Ok? ==> r.value == Page(CommentsByAuthor(comments, id as int), pageNumber as int, pageSize as int))
      && (r.Ok? ==> Stored(r.value, comments) && SortedById(r.value, true))
      && (r.Ok? ==> forall i :: 0 <= i < |r.value| ==> r.value[i].data.authorId == Some(id as int))
  {
    if id >= 0 && pageNumber >= 1 && pageSize >= 0 && fault.None? {
      var page := FindUserCommentsByUserId(comments, id as int, pageNumber, pageSize);
      assert Stored(page, comments);
      assert SortedById(page, true);
    }
  }

  /**
   * `getPaginatedCommentsForBlogId`: a negative blog id, `pageNumber < 1` or
   * `pageSize < 0` is refused before the DAO is called; a `null` answer is
   * not found, and a list is returned unchanged.
   */
  function GetPaginatedCommentsForBlogId(blogId: int32, pageNumber: int32, pageSize: int32,
                                         found: DaoOutcome<seq<Entity<BlogCommentRow>>>)
    : (r: Result<seq<Entity<BlogCommentRow>>>)
    ensures r == Err(IllegalArgument) <==> blogId < 0 || pageNumber < 1 || pageSize < 0
    ensures blogId >= 0 && pageNumber >= 1 && pageSize >= 0 ==>
              (r == Err(CanNotFind) <==> found.Null?) && (r == Err(PersistentLayerProblems) <==> found.Thrown?)
    ensures r.Ok? <==> blogId >= 0 && pageNumber >= 1 && pageSize >= 0 && found.Value?
    ensures r.Ok? ==> r.value == found.value
  {
    if blogId < 0 || pageNumber < 1 || pageSize < 0 then Err(IllegalArgument) else Answer(found)
  }

  /** `getPaginatedCommentsForBlogId` over the comment table: a page of the entry's comments, each once. */
  lemma BlogCommentsLookup(comments: map<int, BlogCommentRow>, scan: seq<int>, blogId: int32,
                           pageNumber: int32, pageSize: int32, fault: Option<PersistenceException>)
    requires IsScanOrder(scan, comments)
    ensures var found := if blogId < 0 || pageNumber < 1 || pageSize < 0 then Null
                         else Attempt(fault, Value(FindPaginatedCommentsForBlogId(
                                                     comments, scan, blogId as int, pageNumber, pageSize)));
            var r := GetPaginatedCommentsForBlogId(blogId, pageNumber, pageSize, found);
      && r != Err(CanNotFind)
      && (r == Err(PersistentLayerProblems) <==> blogId >= 0 && pageNumber >= 1 && pageSize >= 0 && fault.Some?)
      && (r.Ok? ==> r.value == Page(CommentsOfBlog(comments, scan, blogId as int), pageNumber as int, pageSize as int))
      && (r.Ok? ==> Stored(r.value, comments) && Distinct(r.value))
      && (r.Ok? ==> forall i :: 0 <= i < |r.value| ==> r.value[i].data.blogEntryId == Some(blogId as int))
  {
    if blogId >= 0 && pageNumber >= 1 && pageSize >= 0 && fault.None? {
      var page := FindPaginatedCommentsForBlogId(comments, scan, blogId as int, pageNumber, pageSize);
      assert Stored(page, comments);
    }
  }

  /** `getStaticContentByDescription`: a `null` description is refused without a DAO call. */
  function GetStaticContentByDescription(description: Option<string>, found: DaoOutcome<Entity<StaticContentRow>>)
    : (r: Result<Entity<StaticContentRow>>)
    ensures r == Err(IllegalArgument) <==> description.None?
    ensures description.Some? ==> (r == Err(CanNotFind) <==> found.Null?)
    ensures description.Some? ==> (r == Err(PersistentLayerProblems) <==> found.Thrown?)
    ensures r.Ok? <==> description.Some? && found.Value?
    ensures r.Ok? ==> r.value == found.value
  {
    if description.None? then Err(IllegalArgument) else Answer(found)
  }

  /**
   * `getStaticContentByDescription` over the text table: with descriptions
   * unique, a present description gives the one text that carries it or
   * "not found", and never a persistence problem unless the storage fails.
   */
  lemma DescriptionLookup(contents: map<int, StaticContentRow>, description: Option<string>,
                          fault: Option<PersistenceException>)
    requires UniqueDescriptions(contents)
    ensures var r := GetStaticContentByDescription(
                       description, Attempt(fault, FindStaticContentByDescription(contents, description)));
      && (r == Err(IllegalArgument) <==> description.None?)
      && (r == Err(PersistentLayerProblems) <==> description.Some? && fault.Some?)
      && (r == Err(CanNotFind) <==> description.Some? && fault.None?
                                     && forall k :: k in contents ==> contents[k].contentDescription != description)
      && (r.Ok? ==> r.value.id in contents && r.value.data == contents[r.value.id]
                    && r.value.data.contentDescription == description)
  {
    UniqueDescriptionFound(contents, description);
  }
}
