/** One database table behind a JPA repository.

    Rows are keyed by their id. Ids come from an IDENTITY column: a counter
    that only grows, so an id is never handed out twice. Rows are never
    physically removed (every entity of the core is soft-deleted), so the
    counter stays above every key.
 */
module Table {

  datatype Table<T> = Table(rows: map<int, T>, nextId: int)

  /** An empty table whose first generated id is 1. */
  function Empty<T>(): (t: Table<T>)
    ensures Valid(t)
    ensures t.rows == map[]
  {
    Table(map[], 1)
  }

  /** Every key was generated by the counter and lies below it. */
  ghost predicate Valid<T>(t: Table<T>) {
    && t.nextId >= 1
    && forall k :: k in t.rows ==> 1 <= k < t.nextId
  }

  /** Saves a new row under the id the counter hands out, then advances the
      counter. The caller builds the row with `t.nextId` as its id. */
  function Insert<T>(t: Table<T>, row: T): (r: Table<T>)
    ensures r.rows.Keys == t.rows.Keys + {t.nextId}
    ensures t.nextId in r.rows && r.rows[t.nextId] == row
    ensures forall k :: k in t.rows && k != t.nextId ==> r.rows[k] == t.rows[k]
    ensures Valid(t) ==> Valid(r) && t.nextId !in t.rows
  {
    Table(t.rows[t.nextId := row], t.nextId + 1)
  }

  /** Saves a changed row under an existing id. */
  function Update<T>(t: Table<T>, id: int, row: T): (r: Table<T>)
    requires id in t.rows
    ensures r.rows.Keys == t.rows.Keys
    ensures r.rows[id] == row
    ensures forall k :: k in t.rows && k != id ==> r.rows[k] == t.rows[k]
    ensures r.nextId == t.nextId
    ensures Valid(t) ==> Valid(r)
  {
    Table(t.rows[id := row], t.nextId)
  }

  lemma NonEmptyHasMember(s: set<int>)
    requires |s| >= 1
    ensures exists x :: x in s
  {
    if forall x :: x !in s {
      assert false;
    }
  }

  lemma SingletonHasOneMember(s: set<int>)
    requires |s| == 1
    ensures forall x, y :: x in s && y in s ==> x == y
  {
    NonEmptyHasMember(s);
    var a :| a in s;
    assert |s - {a}| == 0;
    forall y | y in s
      ensures y == a
    {
      assert y !in s - {a};
    }
  }

  lemma TwoMembers(s: set<int>)
    requires |s| >= 2
    ensures exists a, b :: a in s && b in s && a != b
  {
    NonEmptyHasMember(s);
    var a :| a in s;
    NonEmptyHasMember(s - {a});
    var b :| b in s - {a};
  }

  /** The one element of a one-element set of ids. */
  function Only(s: set<int>): (r: int)
    requires |s| == 1
    ensures r in s
    ensures forall y :: y in s ==> y == r
  {
    NonEmptyHasMember(s);
    SingletonHasOneMember(s);
    var x :| x in s;
    x
  }
}
