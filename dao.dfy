// The data-access layer. The JPA `EntityManager` the DAOs talk to is replaced
// by an in-memory table per entity type: a map from id to the row's column
// values, plus the counter the database uses to hand out new ids. `persist`,
// `merge` and `remove` change the table; `find`, `findAll`, `countAll`, the
// paginated query and the custom finders are read-only queries over it.

module Dao {
  import opened JavaLang
  import Models

  /** A stored row together with its id. */
  datatype Entity<T> = Entity(id: int, data: T)

  /** The `PersistenceException`s the storage layer can raise. */
  datatype PersistenceException = EntityExists | NonUniqueResult | StorageFailure

  /**
   * What a DAO call gives back to the service layer: a value, `null`, or a
   * `PersistenceException` thrown through the DAO.
   */
  datatype DaoOutcome<T> = Value(value: T) | Null | Thrown(exception: PersistenceException)

  // The columns of the tables the finders look at.

  datatype UserRow = UserRow(
    username: Option<string>, password: Option<string>, email: Option<string>,
    roles: set<Models.UserRole>, isBanned: bool)

  datatype BlogCommentRow = BlogCommentRow(
    content: Option<string>, dateCreated: Option<int64>,
    authorId: Option<int>, blogEntryId: Option<int>)

  datatype StaticContentRow = StaticContentRow(
    contentDescription: Option<string>, language: Option<string>, content: Option<string>)

  /** SQL `column = :argument`: never true when either side is `NULL`. */
  predicate SqlEquals<X(==)>(column: Option<X>, argument: Option<X>)
  {
    argument.Some? && column == argument
  }

  // ---------------------------------------------------------------------
  // Ordering by id

  predicate StrictlyIncreasing(s: seq<int>)
  {
    forall i, j :: 0 <= i < j < |s| ==> s[i] < s[j]
  }

  predicate Distinct<X(==)>(s: seq<X>)
  {
    forall i, j :: 0 <= i < j < |s| ==> s[i] != s[j]
  }

  lemma Element<X>(s: set<X>) returns (x: X)
    requires s != {}
    ensures x in s
  {
    x :| x in s;
  }

  /** Every non-empty set of ids has a least element. */
  lemma {:induction false} Least(ids: set<int>) returns (m: int)
    requires ids != {}
    ensures m in ids && forall k :: k in ids ==> m <= k
    decreases |ids|
  {
    var x := Element(ids);
    var rest := ids - {x};
    if rest == {} {
      assert ids == {x};
      m := x;
    } else {
      var n := Least(rest);
      m := if x < n then x else n;
      forall k | k in ids
        ensures m <= k
      {
        if k != x {
          assert k in rest;
        }
      }
    }
  }

  lemma LeastExists(ids: set<int>)
    requires ids != {}
    ensures exists m :: m in ids && forall k :: k in ids ==> m <= k
  {
    var m := Least(ids);
  }

  lemma PrependIncreasing(m: int, rest: seq<int>)
    requires StrictlyIncreasing(rest) && forall k :: k in rest ==> m < k
    ensures StrictlyIncreasing([m] + rest)
  {
    var r := [m] + rest;
    forall i, j | 0 <= i < j < |r|
      ensures r[i] < r[j]
    {
      assert r[j] == rest[j - 1] && rest[j - 1] in rest;
      if i > 0 {
        assert r[i] == rest[i - 1];
      } else {
        assert r[i] == m;
      }
    }
  }

  lemma PrependDistinct<X>(m: X, rest: seq<X>)
    requires Distinct(rest) && m !in rest
    ensures Distinct([m] + rest)
  {
    var r := [m] + rest;
    forall i, j | 0 <= i < j < |r|
      ensures r[i] != r[j]
    {
      assert r[j] == rest[j - 1] && rest[j - 1] in rest;
      if i > 0 {
        assert r[i] == rest[i - 1];
      }
    }
  }

  /** In a sequence that rises, or one without repeats, the head is not met again later. */
  lemma HeadBelowTail(ids: seq<int>)
    requires |ids| > 0
    ensures StrictlyIncreasing(ids) ==> forall k :: k in ids[1..] ==> ids[0] < k
    ensures Distinct(ids) ==> ids[0] !in ids[1..]
  {
    forall k | k in ids[1..]
      ensures StrictlyIncreasing(ids) ==> ids[0] < k
      ensures Distinct(ids) ==> ids[0] != k
    {
      var i :| 0 <= i < |ids[1..]| && ids[1..][i] == k;
      assert ids[i + 1] == k;
    }
  }

  /** Keeping the head of `ids` in front of a selection from its tail keeps the order and the distinctness. */
  lemma PrependKept(ids: seq<int>, rest: seq<int>)
    requires |ids| > 0 && forall k :: k in rest ==> k in ids[1..]
    ensures StrictlyIncreasing(ids) && StrictlyIncreasing(rest) ==> StrictlyIncreasing([ids[0]] + rest)
    ensures Distinct(ids) && Distinct(rest) ==> Distinct([ids[0]] + rest)
  {
    HeadBelowTail(ids);
    if StrictlyIncreasing(ids) && StrictlyIncreasing(rest) {
      PrependIncreasing(ids[0], rest);
    }
    if Distinct(ids) && Distinct(rest) {
      PrependDistinct(ids[0], rest);
    }
  }

  /** Putting the least id in front of the sorted others sorts the whole set. */
  lemma SortedStep(ids: set<int>, m: int, rest: seq<int>)
    requires m in ids && forall k :: k in ids ==> m <= k
    requires |rest| == |ids - {m}| && (forall k :: k in rest <==> k in ids - {m}) && StrictlyIncreasing(rest)
    ensures |[m] + rest| == |ids|
    ensures forall k :: k in [m] + rest <==> k in ids
    ensures StrictlyIncreasing([m] + rest)
  {
    assert forall k :: k in rest ==> m < k;
    PrependIncreasing(m, rest);
  }

  /** The ids of a table in ascending order: what `ORDER BY id ASC` scans. */
  function SortedIds(ids: set<int>): (r: seq<int>)
    ensures |r| == |ids|
    ensures forall k :: k in r <==> k in ids
    ensures StrictlyIncreasing(r)
    decreases |ids|
  {
    if ids == {} then []
    else
      LeastExists(ids);
      var m :| m in ids && forall k :: k in ids ==> m <= k;
      var rest := SortedIds(ids - {m});
      SortedStep(ids, m, rest);
      [m] + rest
  }

  /** The sequence read back to front: what `ORDER BY id DESC` gives. */
  function Reverse<X>(s: seq<X>): (r: seq<X>)
    ensures |r| == |s|
    ensures forall i :: 0 <= i < |s| ==> r[i] == s[|s| - 1 - i]
  {
    if s == [] then [] else [s[|s| - 1]] + Reverse(s[..|s| - 1])
  }

  function Min(a: int, b: int): int
  {
    if a <= b then a else b
  }

  // ---------------------------------------------------------------------
  // Pagination

  /**
   * `setFirstResult(offset).setMaxResults(size)`: skip `offset` rows, then
   * keep at most `size`.
   */
  function Window<X>(s: seq<X>, offset: int, size: int): (r: seq<X>)
    requires offset >= 0 && size >= 0
    ensures |r| == if offset >= |s| then 0 else Min(size, |s| - offset)
    ensures forall i :: 0 <= i < |r| ==> r[i] == s[offset + i]
  {
    if offset >= |s| then [] else s[offset..offset + Min(size, |s| - offset)]
  }

  /** The first row of page `pageNumber`; pages are numbered from 1. */
  function PageOffset(pageNumber: int, pageSize: int): (r: int)
    requires pageNumber >= 1 && pageSize >= 0
    ensures 0 <= r && r + pageSize == pageNumber * pageSize
  {
    (pageNumber - 1) * pageSize
  }

  /** Page `pageNumber` of `s`, `pageSize` rows to a page. */
  function Page<X>(s: seq<X>, pageNumber: int, pageSize: int): (r: seq<X>)
    requires pageNumber >= 1 && pageSize >= 0
    ensures |r| == if PageOffset(pageNumber, pageSize) >= |s| then 0
                   else Min(pageSize, |s| - PageOffset(pageNumber, pageSize))
    ensures |r| <= pageSize
    ensures forall i :: 0 <= i < |r| ==> r[i] == s[PageOffset(pageNumber, pageSize) + i]
    ensures PageOffset(pageNumber, pageSize) + pageSize <= |s| ==> |r| == pageSize
  {
    Window(s, PageOffset(pageNumber, pageSize), pageSize)
  }

  /**
   * The offset as the DAOs compute it: `(pageNumber - 1) * pageSize` in
   * 32-bit `int` arithmetic, which wraps around for large pages.
   */
  function PageOffsetAsWritten(pageNumber: int32, pageSize: int32): (r: int32)
    requires pageNumber >= 1 && pageSize >= 0
    ensures PageOffset(pageNumber as int, pageSize as int) < 0x8000_0000
            ==> r as int == PageOffset(pageNumber as int, pageSize as int)
  {
    Int32Cast((pageNumber as int - 1) * pageSize as int)
  }

  /**
   * The page as the DAOs fetch it with the wrapped offset; `None` when the
   * wrapped offset is negative, which `setFirstResult` refuses.
   */
  function PageAsWritten<X>(s: seq<X>, pageNumber: int32, pageSize: int32): (r: Option<seq<X>>)
    requires pageNumber >= 1 && pageSize >= 0
    ensures PageOffset(pageNumber as int, pageSize as int) < 0x8000_0000
            ==> r == Some(Page(s, pageNumber as int, pageSize as int))
  {
    var offset := PageOffsetAsWritten(pageNumber, pageSize);
    if offset < 0 then None else Some(Window(s, offset as int, pageSize as int))
  }

  /**
   * Page 65537 of 65536 rows wraps round to offset 0 and hands out page 1
   * again; page 3 of `Integer.MAX_VALUE` rows wraps to a negative offset and
   * the query refuses it, where the intended answer is the empty page.
   */
  lemma PageOffsetOverflows(s: seq<int>)
    requires 1 <= |s| < 0x8000_0000
    ensures PageOffsetAsWritten(65537, 65536) == 0
    ensures PageAsWritten(s, 65537, 65536) == Some(Page(s, 1, 65536))
    ensures Page(s, 65537, 65536) == [] != Page(s, 1, 65536)
    ensures PageAsWritten(s, 3, 0x7FFF_FFFF).None? && Page(s, 3, 0x7FFF_FFFF) == []
  {
    assert PageOffset(65537, 65536) == 0x1_0000_0000;
    assert Int32Cast(0x1_0000_0000) == 0;
    assert Int32Cast(2 * 0x7FFF_FFFF) == -2;
    assert Page(s, 1, 65536)[0] == s[0];
  }

  /**
   * `r` is page `pageNumber` of `all`: exactly the `pageSize` rows from the
   * page's offset on, fewer where `all` runs out, none past its end; and
   * wherever the offset fits in an `int` it is the page the 32-bit offset
   * fetches.
   */
  ghost predicate IsPageOf<X>(r: seq<X>, all: seq<X>, pageNumber: int32, pageSize: int32)
    requires pageNumber >= 1 && pageSize >= 0
  {
    var o := PageOffset(pageNumber as int, pageSize as int);
    && |r| == (if o >= |all| then 0 else Min(pageSize as int, |all| - o))
    && (forall i :: 0 <= i < |r| ==> o + i < |all| && r[i] == all[o + i])
    && (o < 0x8000_0000 ==> PageAsWritten(all, pageNumber, pageSize) == Some(r))
  }

  lemma PageIsPageOf<X>(all: seq<X>, pageNumber: int32, pageSize: int32)
    requires pageNumber >= 1 && pageSize >= 0
    ensures IsPageOf(Page(all, pageNumber as int, pageSize as int), all, pageNumber, pageSize)
  {
  }

  /** A page of rows without repeats has no repeats. */
  lemma PageDistinct<X>(s: seq<X>, pageNumber: int, pageSize: int)
    requires Distinct(s) && pageNumber >= 1 && pageSize >= 0
    ensures Distinct(Page(s, pageNumber, pageSize))
  {
    var page, o := Page(s, pageNumber, pageSize), PageOffset(pageNumber, pageSize);
    forall i, j | 0 <= i < j < |page|
      ensures page[i] != page[j]
    {
      assert page[i] == s[o + i] && page[j] == s[o + j];
    }
  }

  /** Page 1 of a size that covers every row is the whole result. */
  lemma FirstPageHoldsAll<X>(s: seq<X>, pageSize: int)
    ensures pageSize >= |s| ==> Page(s, 1, pageSize) == s
  {
  }

  /** Pages 1 to `count` laid end to end. */
  function FirstPages<X>(s: seq<X>, pageSize: int, count: nat): seq<X>
    requires pageSize >= 0
  {
    if count == 0 then [] else FirstPages(s, pageSize, count - 1) + Page(s, count, pageSize)
  }

  /** Reading page after page from 1 walks the rows in order, missing none and repeating none. */
  lemma {:induction false} PagesConcatenate<X>(s: seq<X>, pageSize: int, count: nat)
    requires pageSize >= 0
    ensures FirstPages(s, pageSize, count) == s[..Min(count * pageSize, |s|)]
  {
    if count > 0 {
      PagesConcatenate(s, pageSize, count - 1);
      var o := (count - 1) * pageSize;
      assert count * pageSize == o + pageSize;
      assert PageOffset(count, pageSize) == o;
      var lo, hi := Min(o, |s|), Min(o + pageSize, |s|);
      var page := Page(s, count, pageSize);
      assert |page| == hi - lo;
      assert page == s[lo..hi];
      assert s[..lo] + s[lo..hi] == s[..hi];
    }
  }

  lemma MulMonotone(a: int, b: int, c: int)
    requires a <= b && c >= 0
    ensures a * c <= b * c
  {
  }

  /** Two different pages of rows without repeats share no row. */
  lemma PagesDisjoint<X>(s: seq<X>, pageSize: int, p: int, q: int)
    requires Distinct(s) && pageSize >= 0 && p >= 1 && q >= 1 && p != q
    ensures forall x :: x in Page(s, p, pageSize) ==> x !in Page(s, q, pageSize)
  {
    var a, b := Page(s, p, pageSize), Page(s, q, pageSize);
    var op, oq := PageOffset(p, pageSize), PageOffset(q, pageSize);
    if p < q {
      MulMonotone(p, q - 1, pageSize);
    } else {
      MulMonotone(q, p - 1, pageSize);
    }
    forall x | x in a
      ensures x !in b
    {
      var i :| 0 <= i < |a| && a[i] == x;
      forall j | 0 <= j < |b|
        ensures b[j] != x
      {
        assert a[i] == s[op + i] && b[j] == s[oq + j];
        assert op + i != oq + j;
      }
    }
  }

  // ---------------------------------------------------------------------
  // Query helpers

  /** The rows with the given ids, in that order. */
  function RowsAt<T>(rows: map<int, T>, ids: seq<int>): (r: seq<Entity<T>>)
    requires forall i :: 0 <= i < |ids| ==> ids[i] in rows
    ensures |r| == |ids|
    ensures forall i :: 0 <= i < |r| ==> r[i].id == ids[i] && r[i].data == rows[ids[i]]
  {
    seq(|ids|, i requires 0 <= i < |ids| => Entity(ids[i], rows[ids[i]]))
  }

  /** Every id of `ids` has its row in `RowsAt`, which keeps the order and distinctness of the ids. */
  lemma RowsAtFacts<T>(rows: map<int, T>, ids: seq<int>)
    requires forall i :: 0 <= i < |ids| ==> ids[i] in rows
    ensures forall k :: k in ids ==> exists i :: 0 <= i < |RowsAt(rows, ids)| && RowsAt(rows, ids)[i] == Entity(k, rows[k])
    ensures StrictlyIncreasing(ids) ==> forall i, j :: 0 <= i < j < |ids| ==> RowsAt(rows, ids)[i].id < RowsAt(rows, ids)[j].id
    ensures Distinct(ids) ==> Distinct(RowsAt(rows, ids))
  {
    var r := RowsAt(rows, ids);
    forall k | k in ids
      ensures exists i :: 0 <= i < |r| && r[i] == Entity(k, rows[k])
    {
      var i :| 0 <= i < |ids| && ids[i] == k;
      assert r[i] == Entity(k, rows[k]);
    }
    if Distinct(ids) {
      forall i, j | 0 <= i < j < |r|
        ensures r[i] != r[j]
      {
        assert r[i].id == ids[i] && r[j].id == ids[j];
      }
    }
  }

  /** `r` is `s` with some elements left out: what remains keeps the order it had in `s`. */
  predicate Subsequence<X(==)>(r: seq<X>, s: seq<X>)
    decreases |s|
  {
    if r == [] then true
    else if s == [] then false
    else if r[0] == s[0] then Subsequence(r[1..], s[1..])
    else Subsequence(r, s[1..])
  }

  /** Two elements of a subsequence of a sequence without repeats occur in the sequence in the same order. */
  lemma {:induction false} SubsequenceKeepsOrder<X>(r: seq<X>, s: seq<X>, i: int, j: int)
    requires Subsequence(r, s) && Distinct(s) && 0 <= i < j < |r|
    ensures exists a, b :: 0 <= a < b < |s| && s[a] == r[i] && s[b] == r[j]
    decreases |s|
  {
    assert s != [];
    if r[0] == s[0] {
      if i == 0 {
        SubsequenceMember(r[1..], s[1..], j - 1);
        var b :| 0 <= b < |s[1..]| && s[1..][b] == r[1..][j - 1];
        assert s[0] == r[0] && s[b + 1] == r[j];
      } else {
        SubsequenceKeepsOrder(r[1..], s[1..], i - 1, j - 1);
        var a, b :| 0 <= a < b < |s[1..]| && s[1..][a] == r[1..][i - 1] && s[1..][b] == r[1..][j - 1];
        assert s[a + 1] == r[i] && s[b + 1] == r[j];
      }
    } else {
      SubsequenceKeepsOrder(r, s[1..], i, j);
      var a, b :| 0 <= a < b < |s[1..]| && s[1..][a] == r[i] && s[1..][b] == r[j];
      assert s[a + 1] == r[i] && s[b + 1] == r[j];
    }
  }

  /** Every element of a subsequence occurs in the sequence. */
  lemma {:induction false} SubsequenceMember<X>(r: seq<X>, s: seq<X>, i: int)
    requires Subsequence(r, s) && 0 <= i < |r|
    ensures exists b :: 0 <= b < |s| && s[b] == r[i]
    decreases |s|
  {
    assert s != [];
    if r[0] == s[0] && i == 0 {
      assert s[0] == r[0];
    } else if r[0] == s[0] {
      SubsequenceMember(r[1..], s[1..], i - 1);
      var b :| 0 <= b < |s[1..]| && s[1..][b] == r[1..][i - 1];
      assert s[b + 1] == r[i];
    } else {
      SubsequenceMember(r, s[1..], i);
      var b :| 0 <= b < |s[1..]| && s[1..][b] == r[i];
      assert s[b + 1] == r[i];
    }
  }

  /** The ids among `ids` whose row satisfies the `WHERE` clause `keep`, in scan order. */
  function FilterIds<T>(ids: seq<int>, rows: map<int, T>, keep: T -> bool): (r: seq<int>)
    requires forall i :: 0 <= i < |ids| ==> ids[i] in rows
    ensures forall k :: k in r <==> k in ids && k in rows && keep(rows[k])
    ensures Subsequence(r, ids)
    ensures StrictlyIncreasing(ids) ==> StrictlyIncreasing(r)
    ensures Distinct(ids) ==> Distinct(r)
  {
    if ids == [] then []
    else
      var rest := FilterIds(ids[1..], rows, keep);
      if keep(rows[ids[0]]) then
        PrependKept(ids, rest);
        assert ([ids[0]] + rest)[1..] == rest;
        [ids[0]] + rest
      else
        assert rest != [] ==> rest[0] in rest && rest[0] != ids[0];
        rest
  }

  /** The ids of a list of rows, in the list's order. */
  function Ids<T>(s: seq<Entity<T>>): (r: seq<int>)
    ensures |r| == |s| && forall i :: 0 <= i < |s| ==> r[i] == s[i].id
  {
    seq(|s|, i requires 0 <= i < |s| => s[i].id)
  }

  /** Everything a sequence holds is in it. */
  lemma Members<X>(s: seq<X>)
    ensures forall i :: 0 <= i < |s| ==> s[i] in s
  {
  }

  /** The rows that satisfy the `WHERE` clause `keep`, read in the order `ids` lists them. */
  function Select<T>(rows: map<int, T>, ids: seq<int>, keep: T -> bool): (r: seq<Entity<T>>)
    requires forall i :: 0 <= i < |ids| ==> ids[i] in rows
    ensures forall i :: 0 <= i < |r| ==> r[i].id in rows && r[i].data == rows[r[i].id] && keep(r[i].data)
    ensures forall k :: k in ids && k in rows && keep(rows[k]) ==> exists i :: 0 <= i < |r| && r[i] == Entity(k, rows[k])
    ensures Subsequence(Ids(r), ids)
    ensures StrictlyIncreasing(ids) ==> forall i, j :: 0 <= i < j < |r| ==> r[i].id < r[j].id
    ensures Distinct(ids) ==> Distinct(r)
  {
    var hits := FilterIds(ids, rows, keep);
    Members(hits);
    RowsAtFacts(rows, hits);
    assert Ids(RowsAt(rows, hits)) == hits;
    RowsAt(rows, hits)
  }

  /** The ids of the rows that satisfy the `WHERE` clause `keep`. */
  function Matching<K, T>(rows: map<K, T>, keep: T -> bool): set<K>
  {
    set k | k in rows && keep(rows[k])
  }

  lemma MatchingMembers<K, T>(rows: map<K, T>, keep: T -> bool)
    ensures forall k :: k in Matching(rows, keep) <==> k in rows && keep(rows[k])
  {
  }

  /** No row satisfies `keep` exactly when no id matches. */
  lemma NoneMatching<K, T>(rows: map<K, T>, keep: T -> bool)
    ensures Matching(rows, keep) == {} <==> forall k :: k in rows ==> !keep(rows[k])
  {
    if Matching(rows, keep) != {} {
      var k := Element(Matching(rows, keep));
    }
    forall k | k in rows && keep(rows[k])
      ensures k in Matching(rows, keep)
    {
    }
  }

  /** A list of distinct ids with the same members as a set tells how many the set has: none, one, or two at least. */
  lemma CountCases<X>(hits: seq<X>, matching: set<X>)
    requires Distinct(hits) && forall k :: k in hits <==> k in matching
    ensures |hits| == 0 <==> matching == {}
    ensures |hits| == 1 ==> hits[0] in matching && forall k :: k in matching ==> k == hits[0]
    ensures |hits| >= 2 ==> hits[0] in matching && hits[1] in matching && hits[0] != hits[1]
  {
    if |hits| == 0 {
      if matching != {} {
        var x := Element(matching);
      }
    } else {
      assert hits[0] in hits;
      assert hits[0] in matching;
      assert matching != {};
      if |hits| == 1 {
        forall k | k in matching
          ensures k == hits[0]
        {
          assert k in hits;
        }
      } else {
        assert hits[1] in hits;
      }
    }
  }

  /**
   * `getSingleResult` on the rows that satisfy `keep`: `null` (from the
   * caught `NoResultException`) for none, the row for one, and a thrown
   * `NonUniqueResultException` for more.
   */
  function FindUnique<T>(rows: map<int, T>, keep: T -> bool): (r: DaoOutcome<Entity<T>>)
    ensures r.Null? <==> forall k :: k in rows ==> !keep(rows[k])
    ensures r.Value? ==> r.value.id in rows && r.value.data == rows[r.value.id] && keep(r.value.data)
    ensures r.Value? ==> forall k :: k in rows && keep(rows[k]) ==> k == r.value.id
    ensures r.Thrown? <==> exists j, k :: j in rows && k in rows && j != k && keep(rows[j]) && keep(rows[k])
    ensures r.Thrown? ==> r.exception == NonUniqueResult
  {
    var hits := FilterIds(SortedIds(rows.Keys), rows, keep);
    MatchingMembers(rows, keep);
    NoneMatching(rows, keep);
    CountCases(hits, Matching(rows, keep));
    if |hits| == 0 then Null
    else if |hits| == 1 then Value(Entity(hits[0], rows[hits[0]]))
    else Thrown(NonUniqueResult)
  }

  // ---------------------------------------------------------------------
  // The generic DAO

  /** The table of one entity type, as `AbstractGenericDao` sees it. */
  class Table<T> {
    /** The stored rows by id. */
    var rows: map<int, T>
    /** The id the database hands out next. */
    var nextId: int

    /** Every stored id is positive and was handed out before `nextId`. */
    ghost predicate Valid()
      reads this
    {
      nextId >= 1 && forall id :: id in rows ==> 1 <= id < nextId
    }

    constructor ()
      ensures Valid() && rows == map[] && nextId == 1
    {
      rows := map[];
      nextId := 1;
    }

    /**
     * `persist`: a new entity is stored under a newly generated id; an
     * entity whose id is already stored raises `EntityExistsException`.
     */
    method Persist(e: Entity<T>) returns (r: DaoOutcome<int>)
      requires Valid()
      modifies this
      ensures Valid()
      ensures e.id in old(rows) ==> r == Thrown(EntityExists) && rows == old(rows) && nextId == old(nextId)
      ensures e.id !in old(rows) ==> r == Value(old(nextId)) && old(nextId) !in old(rows)
      ensures e.id !in old(rows) ==> rows == old(rows)[old(nextId) := e.data] && |rows| == |old(rows)| + 1
      ensures e.id !in old(rows) ==> nextId == old(nextId) + 1
    {
      if e.id in rows {
        r := Thrown(EntityExists);
      } else {
        r := Value(nextId);
        rows := rows[nextId := e.data];
        nextId := nextId + 1;
      }
    }

    /** `find`: the row with that id, or `null` when there is none. */
    function Find(id: int): (r: Option<Entity<T>>)
      reads this
      ensures r.Some? <==> id in rows
      ensures r.Some? ==> r.value == Entity(id, rows[id])
    {
      if id in rows then Some(Entity(id, rows[id])) else None
    }

    /**
     * `merge`: the state of an entity whose id is stored replaces the stored
     * one; any other entity is stored as a new row. Returns the managed copy.
     */
    method Merge(e: Entity<T>) returns (r: Entity<T>)
      requires Valid()
      modifies this
      ensures Valid()
      ensures r.data == e.data && rows == old(rows)[r.id := e.data]
      ensures e.id in old(rows) ==> r.id == e.id && nextId == old(nextId)
      ensures e.id !in old(rows) ==> r.id == old(nextId) && r.id !in old(rows) && nextId == old(nextId) + 1
    {
      if e.id in rows {
        r := e;
        rows := rows[e.id := e.data];
      } else {
        r := Entity(nextId, e.data);
        rows := rows[nextId := e.data];
        nextId := nextId + 1;
      }
    }

    /** `remove`: the row with the entity's id is deleted; every other row stays. */
    method Remove(e: Entity<T>)
      requires Valid()
      modifies this
      ensures Valid()
      ensures rows == old(rows) - {e.id} && nextId == old(nextId)
      ensures e.id in old(rows) ==> |rows| == |old(rows)| - 1
    {
      rows := rows - {e.id};
    }

    /** `findAll`: every stored row once, read in ascending id order. */
    function FindAll(): (r: seq<Entity<T>>)
      reads this
      ensures |r| == |rows|
      ensures forall i :: 0 <= i < |r| ==> r[i].id in rows && r[i].data == rows[r[i].id]
      ensures forall id :: id in rows ==> exists i :: 0 <= i < |r| && r[i] == Entity(id, rows[id])
      ensures forall i, j :: 0 <= i < j < |r| ==> r[i].id < r[j].id
    {
      var ids := SortedIds(rows.Keys);
      Members(ids);
      RowsAtFacts(rows, ids);
      RowsAt(rows, ids)
    }

    /** `countAll`: the number of rows, narrowed from `long` to `int`. */
    function CountAll(): (r: int32)
      reads this
      ensures |rows| < 0x8000_0000 ==> r as int == |rows|
      ensures |rows| == 0 ==> r == 0
    {
      Int32Cast(|rows|)
    }

    /** The rows by id, ascending or descending. */
    function Ordered(asc: bool): (r: seq<Entity<T>>)
      reads this
      ensures |r| == |rows|
      ensures Stored(r, rows) && SortedById(r, asc)
    {
      var all := FindAll();
      ReverseSorted(all, rows);
      if asc then all else Reverse(all)
    }

    /**
     * `findPaginatedAndOrdered`: the rows sorted by id (descending when
     * `asc` is false), page `pageNumber` of `pageSize` rows.
     */
    function FindPaginatedAndOrdered(asc: bool, pageNumber: int32, pageSize: int32): (r: seq<Entity<T>>)
      requires pageNumber >= 1 && pageSize >= 0
      reads this
      ensures IsPageOf(r, Ordered(asc), pageNumber, pageSize)
      ensures Stored(r, rows) && SortedById(r, asc)
      ensures forall i :: 0 <= i < |r| ==>
                var j := PageOffset(pageNumber as int, pageSize as int) + i;
                j < |rows| && r[i] == Ordered(asc)[j]
      ensures pageNumber == 1 && pageSize as int >= |rows| ==> r == Ordered(asc)
    {
      var all := Ordered(asc);
      PageIsPageOf(all, pageNumber, pageSize);
      FirstPageHoldsAll(all, pageSize as int);
      PageInherits(all, rows, asc, pageNumber as int, pageSize as int);
      Page(all, pageNumber as int, pageSize as int)
    }
  }

  /** Every entity of `s` is the row stored under its id. */
  ghost predicate Stored<T>(s: seq<Entity<T>>, rows: map<int, T>)
  {
    forall i :: 0 <= i < |s| ==> s[i].id in rows && s[i].data == rows[s[i].id]
  }

  /** The ids of `s` rise (`asc`) or fall strictly. */
  predicate SortedById<T>(s: seq<Entity<T>>, asc: bool)
  {
    forall i, j :: 0 <= i < j < |s| ==> if asc then s[i].id < s[j].id else s[i].id > s[j].id
  }

  /** Reversing stored rows in ascending id order gives them in descending order. */
  lemma ReverseSorted<T>(s: seq<Entity<T>>, rows: map<int, T>)
    requires Stored(s, rows) && SortedById(s, true)
    ensures Stored(Reverse(s), rows) && SortedById(Reverse(s), false)
  {
    var r := Reverse(s);
    forall i, j | 0 <= i < j < |r|
      ensures r[i].id > r[j].id
    {
      assert r[i] == s[|s| - 1 - i] && r[j] == s[|s| - 1 - j];
    }
    forall i | 0 <= i < |r|
      ensures r[i].id in rows && r[i].data == rows[r[i].id]
    {
      assert r[i] == s[|s| - 1 - i];
    }
  }

  /** A page of stored, sorted rows is stored and sorted. */
  lemma PageInherits<T>(s: seq<Entity<T>>, rows: map<int, T>, asc: bool, pageNumber: int, pageSize: int)
    requires Stored(s, rows) && SortedById(s, asc) && pageNumber >= 1 && pageSize >= 0
    ensures Stored(Page(s, pageNumber, pageSize), rows) && SortedById(Page(s, pageNumber, pageSize), asc)
  {
    var page, o := Page(s, pageNumber, pageSize), PageOffset(pageNumber, pageSize);
    forall i, j | 0 <= i < j < |page|
      ensures if asc then page[i].id < page[j].id else page[i].id > page[j].id
    {
      assert page[i] == s[o + i] && page[j] == s[o + j];
    }
    forall i | 0 <= i < |page|
      ensures page[i].id in rows && page[i].data == rows[page[i].id]
    {
      assert page[i] == s[o + i];
    }
  }

  // ---------------------------------------------------------------------
  // The custom finders of UserDaoImpl, BlogEntryDaoImpl and StaticContentDaoImpl

  /** `findUserByUsername`: the user whose username equals the argument. */
  function FindUserByUsername(users: map<int, UserRow>, username: Option<string>): (r: DaoOutcome<Entity<UserRow>>)
    ensures r.Null? <==> forall k :: k in users ==> !SqlEquals(users[k].username, username)
    ensures r.Value? ==> r.value.id in users && r.value.data == users[r.value.id]
    ensures r.Value? ==> username.Some? && r.value.data.username == username
    ensures r.Thrown? <==> exists j, k :: j in users && k in users && j != k
                             && SqlEquals(users[j].username, username) && SqlEquals(users[k].username, username)
    ensures username.None? ==> r.Null?
  {
    var keep := (row: UserRow) => SqlEquals(row.username, username);
    assert forall row :: keep(row) == SqlEquals(row.username, username);
    FindUnique(users, keep)
  }

  /** `findUserByEmail`: the user whose email equals the argument. */
  function FindUserByEmail(users: map<int, UserRow>, email: Option<string>): (r: DaoOutcome<Entity<UserRow>>)
    ensures r.Null? <==> forall k :: k in users ==> !SqlEquals(users[k].email, email)
    ensures r.Value? ==> r.value.id in users && r.value.data == users[r.value.id]
    ensures r.Value? ==> email.Some? && r.value.data.email == email
    ensures r.Thrown? <==> exists j, k :: j in users && k in users && j != k
                             && SqlEquals(users[j].email, email) && SqlEquals(users[k].email, email)
    ensures email.None? ==> r.Null?
  {
    var keep := (row: UserRow) => SqlEquals(row.email, email);
    assert forall row :: keep(row) == SqlEquals(row.email, email);
    FindUnique(users, keep)
  }

  /**
   * After `merge` renames the user stored under `id` (a stored id, so the
   * new state replaces the old), the old username is no longer found and
   * the new one finds that user.
   */
  lemma RenameByMerge(users: map<int, UserRow>, id: int, renamed: UserRow, oldName: Option<string>)
    requires id in users && users[id].username == oldName
    requires renamed.username.Some? && renamed.username != oldName
    requires forall k :: k in users && k != id ==> users[k].username != oldName && users[k].username != renamed.username
    ensures FindUserByUsername(users[id := renamed], oldName) == Null
    ensures FindUserByUsername(users[id := renamed], renamed.username) == Value(Entity(id, renamed))
  {
    var after := users[id := renamed];
    assert forall k :: k in after ==> !SqlEquals(after[k].username, oldName);
    var found := FindUserByUsername(after, renamed.username);
    assert SqlEquals(after[id].username, renamed.username);
    assert forall k :: k in after && SqlEquals(after[k].username, renamed.username) ==> k == id;
  }

  /** All comments written by the user with id `userId`, by ascending comment id. */
  function CommentsByAuthor(comments: map<int, BlogCommentRow>, userId: int): (r: seq<Entity<BlogCommentRow>>)
    ensures forall i :: 0 <= i < |r| ==> r[i].id in comments && r[i].data == comments[r[i].id]
    ensures forall i :: 0 <= i < |r| ==> r[i].data.authorId == Some(userId)
    ensures forall k :: k in comments && comments[k].authorId == Some(userId)
                        ==> exists i :: 0 <= i < |r| && r[i].id == k
    ensures forall i, j :: 0 <= i < j < |r| ==> r[i].id < r[j].id
  {
    var ids := SortedIds(comments.Keys);
    Members(ids);
    var keep := (c: BlogCommentRow) => c.authorId == Some(userId);
    assert forall c :: keep(c) == (c.authorId == Some(userId));
    Select(comments, ids, keep)
  }

  /**
   * `findUserCommentsByUserId`: page `pageNumber` of the comments written by
   * the user, by ascending comment id, without repeats.
   */
  function FindUserCommentsByUserId(comments: map<int, BlogCommentRow>, userId: int, pageNumber: int32, pageSize: int32)
    : (r: seq<Entity<BlogCommentRow>>)
    requires pageNumber >= 1 && pageSize >= 0
    ensures IsPageOf(r, CommentsByAuthor(comments, userId), pageNumber, pageSize)
    ensures Stored(r, comments) && SortedById(r, true)
    ensures forall i :: 0 <= i < |r| ==> r[i].data.authorId == Some(userId)
  {
    var all := CommentsByAuthor(comments, userId);
    PageIsPageOf(all, pageNumber, pageSize);
    PageOfAuthor(all, comments, userId, pageNumber as int, pageSize as int);
    Page(all, pageNumber as int, pageSize as int)
  }

  /** A page of a user's stored comments in ascending order holds only that user's stored comments, ascending. */
  lemma PageOfAuthor(all: seq<Entity<BlogCommentRow>>, comments: map<int, BlogCommentRow>, userId: int,
                     pageNumber: int, pageSize: int)
    requires Stored(all, comments) && SortedById(all, true) && pageNumber >= 1 && pageSize >= 0
    requires forall i :: 0 <= i < |all| ==> all[i].data.authorId == Some(userId)
    ensures Stored(Page(all, pageNumber, pageSize), comments) && SortedById(Page(all, pageNumber, pageSize), true)
    ensures forall i :: 0 <= i < |Page(all, pageNumber, pageSize)| ==> Page(all, pageNumber, pageSize)[i].data.authorId == Some(userId)
  {
    PageInherits(all, comments, true, pageNumber, pageSize);
    var page, o := Page(all, pageNumber, pageSize), PageOffset(pageNumber, pageSize);
    forall i | 0 <= i < |page|
      ensures page[i].data.authorId == Some(userId)
    {
      assert page[i] == all[o + i];
    }
  }

  /** `scan` visits every stored comment exactly once: the order the database reads them in. */
  predicate IsScanOrder(scan: seq<int>, comments: map<int, BlogCommentRow>)
  {
    Distinct(scan) && (forall i :: 0 <= i < |scan| ==> scan[i] in comments) && forall k :: k in comments ==> k in scan
  }

  /** All comments of the blog entry `blogId`, in the database's scan order. */
  function CommentsOfBlog(comments: map<int, BlogCommentRow>, scan: seq<int>, blogId: int): (r: seq<Entity<BlogCommentRow>>)
    requires IsScanOrder(scan, comments)
    ensures forall i :: 0 <= i < |r| ==> r[i].id in comments && r[i].data == comments[r[i].id]
    ensures forall i :: 0 <= i < |r| ==> r[i].data.blogEntryId == Some(blogId)
    ensures forall k :: k in comments && comments[k].blogEntryId == Some(blogId)
                        ==> exists i :: 0 <= i < |r| && r[i].id == k
    ensures Subsequence(Ids(r), scan)
    ensures Distinct(r)
  {
    var keep := (c: BlogCommentRow) => c.blogEntryId == Some(blogId);
    assert forall c :: keep(c) == (c.blogEntryId == Some(blogId));
    Select(comments, scan, keep)
  }

  /**
   * `findPaginatedCommentsForBlogId`: page `pageNumber` of the comments of
   * the blog entry. The query has no `ORDER BY`, so the comments come in the
   * order the database scans them, given here as `scan`.
   */
  function FindPaginatedCommentsForBlogId(
    comments: map<int, BlogCommentRow>, scan: seq<int>, blogId: int, pageNumber: int32, pageSize: int32)
    : (r: seq<Entity<BlogCommentRow>>)
    requires IsScanOrder(scan, comments)
    requires pageNumber >= 1 && pageSize >= 0
    ensures IsPageOf(r, CommentsOfBlog(comments, scan, blogId), pageNumber, pageSize)
    ensures forall i :: 0 <= i < |r| ==> r[i].id in comments && r[i].data == comments[r[i].id]
    ensures forall i :: 0 <= i < |r| ==> r[i].data.blogEntryId == Some(blogId)
    ensures Distinct(r)
  {
    var all := CommentsOfBlog(comments, scan, blogId);
    PageIsPageOf(all, pageNumber, pageSize);
    PageDistinct(all, pageNumber as int, pageSize as int);
    Page(all, pageNumber as int, pageSize as int)
  }

  /**
   * Pages 1 and 2 of size 2 split a blog entry's three comments: together
   * they hold every comment, and no comment is on both.
   */
  lemma ThreeCommentsOnTwoPages(comments: map<int, BlogCommentRow>, scan: seq<int>, blogId: int)
    requires IsScanOrder(scan, comments)
    requires |CommentsOfBlog(comments, scan, blogId)| == 3
    ensures |FindPaginatedCommentsForBlogId(comments, scan, blogId, 1, 2)| == 2
    ensures |FindPaginatedCommentsForBlogId(comments, scan, blogId, 2, 2)| == 1
    ensures FindPaginatedCommentsForBlogId(comments, scan, blogId, 1, 2)
            + FindPaginatedCommentsForBlogId(comments, scan, blogId, 2, 2) == CommentsOfBlog(comments, scan, blogId)
    ensures forall c :: c in FindPaginatedCommentsForBlogId(comments, scan, blogId, 1, 2)
                        ==> c !in FindPaginatedCommentsForBlogId(comments, scan, blogId, 2, 2)
  {
    var all := CommentsOfBlog(comments, scan, blogId);
    var first := FindPaginatedCommentsForBlogId(comments, scan, blogId, 1, 2);
    var second := FindPaginatedCommentsForBlogId(comments, scan, blogId, 2, 2);
    assert PageOffset(1, 2) == 0 && PageOffset(2, 2) == 2;
    assert first == Page(all, 1, 2) && second == Page(all, 2, 2);
    PagesConcatenate(all, 2, 2);
    assert FirstPages(all, 2, 2) == first + second;
    assert all[..Min(2 * 2, 3)] == all;
    PagesDisjoint(all, 2, 1, 2);
  }

  /** `findStaticContentByDescription`: the text whose description equals the argument. */
  function FindStaticContentByDescription(contents: map<int, StaticContentRow>, description: Option<string>)
    : (r: DaoOutcome<Entity<StaticContentRow>>)
    ensures r.Null? <==> forall k :: k in contents ==> !SqlEquals(contents[k].contentDescription, description)
    ensures r.Value? ==> r.value.id in contents && r.value.data == contents[r.value.id]
    ensures r.Value? ==> description.Some? && r.value.data.contentDescription == description
    ensures r.Thrown? <==> exists j, k :: j in contents && k in contents && j != k
                             && SqlEquals(contents[j].contentDescription, description)
                             && SqlEquals(contents[k].contentDescription, description)
  {
    var keep := (row: StaticContentRow) => SqlEquals(row.contentDescription, description);
    assert forall row :: keep(row) == SqlEquals(row.contentDescription, description);
    FindUnique(contents, keep)
  }

  /** The descriptions the stored texts carry are pairwise different. */
  predicate UniqueDescriptions(contents: map<int, StaticContentRow>)
  {
    forall j, k :: j in contents && k in contents && j != k && contents[j].contentDescription.Some?
                   ==> contents[j].contentDescription != contents[k].contentDescription
  }

  /** With unique descriptions the lookup never fails: it finds the one text, or `null`. */
  lemma UniqueDescriptionFound(contents: map<int, StaticContentRow>, description: Option<string>)
    requires UniqueDescriptions(contents)
    ensures !FindStaticContentByDescription(contents, description).Thrown?
    ensures forall k :: k in contents && SqlEquals(contents[k].contentDescription, description)
                        ==> FindStaticContentByDescription(contents, description) == Value(Entity(k, contents[k]))
  {
  }
}
