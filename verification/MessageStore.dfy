/** The SQLite message repository: one table field, reassigned by each statement. */
module MessageStore {
  import opened Basics
  import opened Errors
  import opened Messages

  lemma SortedWithLast(s: seq<Row>, r: Row)
    requires SortedByCreation(s) && forall x :: x in s ==> x.createdAt <= r.createdAt
    ensures SortedByCreation(s + [r])
  {
    forall k | 0 <= k < |s| ensures s[k].createdAt <= r.createdAt {
      assert s[k] in s;
    }
  }

  lemma UniqueWithLast(s: seq<Row>, r: Row)
    requires UniqueIds(s) && forall x :: x in s ==> x.id != r.id
    ensures UniqueIds(s + [r])
  {
    forall k | 0 <= k < |s| ensures s[k].id != r.id {
      assert s[k] in s;
    }
  }

  /** A new youngest row goes to the end. */
  lemma YoungestGoesLast(s: seq<Row>, r: Row)
    requires SortedByCreation(s) && UniqueIds(s)
    requires forall x :: x in s ==> x.createdAt <= r.createdAt && x.id != r.id
    ensures SortedByCreation(s + [r]) && UniqueIds(s + [r])
  {
    SortedWithLast(s, r);
    UniqueWithLast(s, r);
  }

  /** What an insertion owes to its list. */
  ghost predicate Inserted(s: seq<Row>, r: Row, u: seq<Row>) {
    && SortedByCreation(u)
    && (forall x :: x in u <==> x in s || x == r)
    && (UniqueIds(s) && !Has(s, r.id) ==> UniqueIds(u))
  }

  lemma InsertedAtEnd(s: seq<Row>, r: Row)
    requires SortedByCreation(s) && (s != [] ==> s[|s| - 1].createdAt <= r.createdAt)
    ensures Inserted(s, r, s + [r])
  {
    forall x | x in s ensures x.createdAt <= r.createdAt {
      var k :| 0 <= k < |s| && s[k] == x;
      assert s[k].createdAt <= s[|s| - 1].createdAt;
    }
    SortedWithLast(s, r);
    if UniqueIds(s) && !Has(s, r.id) {
      UniqueWithLast(s, r);
    }
  }

  lemma InsertedBeforeLast(s: seq<Row>, r: Row, front: seq<Row>)
    requires s != [] && SortedByCreation(s) && r.createdAt < s[|s| - 1].createdAt
    requires Inserted(s[..|s| - 1], r, front)
    ensures Inserted(s, r, front + [s[|s| - 1]])
  {
    var init, last := s[..|s| - 1], s[|s| - 1];
    assert s == init + [last];
    forall x | x in front ensures x.createdAt <= last.createdAt {
      if x in init {
        var k :| 0 <= k < |init| && init[k] == x;
        assert s[k] == x;
      }
    }
    SortedWithLast(front, last);
    if UniqueIds(s) && !Has(s, r.id) {
      forall x | x in front ensures x.id != last.id {
        if x in init {
          var k :| 0 <= k < |init| && init[k] == x;
          assert s[k] == x;
        } else {
          assert s[|s| - 1] == last;
        }
      }
      assert !Has(init, r.id) by {
        assert forall k :: 0 <= k < |init| ==> init[k] == s[k];
      }
      UniqueWithLast(front, last);
    }
  }

  /** Places a row after every row that is not younger. */
  function InsertByCreation(s: seq<Row>, r: Row): (u: seq<Row>)
    requires SortedByCreation(s)
    ensures Inserted(s, r, u)
  {
    if s != [] && r.createdAt < s[|s| - 1].createdAt then
      var front := InsertByCreation(s[..|s| - 1], r);
      InsertedBeforeLast(s, r, front);
      front + [s[|s| - 1]]
    else
      InsertedAtEnd(s, r);
      s + [r]
  }

  class Repository {
    var rows: seq<Row>

    ghost predicate Valid()
      reads this
    {
      UniqueIds(rows)
    }

    constructor ()
      ensures Valid() && rows == []
    {
      rows := [];
    }

    /** Inserts a message, and hands back what was persisted. */
    method Create(msg: Row) returns (result: Result<Row, CreateError>)
      requires Valid()
      modifies this
      ensures Valid()
      ensures match Messages.Create(old(rows), msg)
              case Ok(t) => rows == t && result == Ok(Stamped(msg))
              case Err(e) => rows == old(rows) && result == Err(e)
    {
      if msg.id == "" {
        return Err(MissingId);
      }
      if EmptyText(msg.payload) {
        return Err(MissingPayload);
      }
      var stored := msg.(jobType := ResolveJobType(msg.jobType, msg.payload));
      if Has(rows, msg.id) {
        return Err(DuplicateId);
      }
      rows := rows + [stored];
      return Ok(stored);
    }

    /** Reports whether a row was there to update. */
    method UpdateStatus(id: string, status: Status) returns (found: bool)
      requires Valid()
      modifies this
      ensures Valid()
      ensures rows == if id == "" then old(rows) else SetStatus(old(rows), id, status)
      ensures found <==> id != "" && Has(old(rows), id)
    {
      if id == "" {
        return false;
      }
      found := Has(rows, id);
      rows := SetStatus(rows, id, status);
    }

    method UpdateRetryInfo(id: string, count: int, next: Option<int>, err: ErrorCode)
      requires Valid()
      modifies this
      ensures Valid()
      ensures rows == if id == "" then old(rows) else SetRetry(old(rows), id, count, next, err)
    {
      if id != "" {
        rows := SetRetry(rows, id, count, next, err);
      }
    }

    /** SELECT ... WHERE status = ? ORDER BY created_at ASC. */
    method ListByStatus(status: Status) returns (messages: seq<Row>)
      requires Valid()
      ensures IsListing(rows, status, messages)
    {
      messages := [];
      for k := 0 to |rows|
        invariant UniqueIds(messages) && SortedByCreation(messages)
        invariant forall r :: r in messages <==> r in rows[..k] && r.status == status
      {
        assert rows[..k + 1] == rows[..k] + [rows[k]];
        if rows[k].status == status {
          forall l | 0 <= l < |messages| ensures messages[l].id != rows[k].id {
            assert messages[l] in rows[..k];
          }
          messages := InsertByCreation(messages, rows[k]);
        }
      }
      assert rows[..|rows|] == rows;
    }
  }
}
