/** The `users` table: one row per user id (the primary key) with the two
    click counters `hdp` and `omon`, both defaulting to 0. The SQL is modelled
    by its meaning: the table is a map from user id to row. */
module Store {
  import opened Wrappers

  /** The two counter columns; the only two names the handlers pass. */
  datatype Column = Hdp | Omon

  datatype Row = Row(hdp: nat, omon: nat)

  type Table = map<int, Row>

  /** The row `INSERT ... (user_id)` creates: both columns at their default. */
  const NewRow: Row := Row(0, 0)

  /** What `SELECT COUNT(*), SUM(hdp), SUM(omon)` returns once NULLs are
      replaced by 0. */
  datatype Stats = Stats(users: nat, hdpClicks: nat, omonClicks: nat)

  function Get(r: Row, c: Column): nat
  {
    match c
    case Hdp => r.hdp
    case Omon => r.omon
  }

  /** `SET col = col + 1` on one row. */
  function Bump(r: Row, c: Column): (r': Row)
    ensures Get(r', c) == Get(r, c) + 1
    ensures forall d :: d != c ==> Get(r', d) == Get(r, d)
  {
    match c
    case Hdp => r.(hdp := r.hdp + 1)
    case Omon => r.(omon := r.omon + 1)
  }

  /** `add_user`: `INSERT OR IGNORE` adds a default row for a new id and leaves
      the table alone when the primary key is already present. */
  function AddUser(t: Table, id: int): (t': Table)
    ensures id in t' && t'.Keys == t.Keys + {id}
    ensures id in t ==> t' == t
    ensures id !in t ==> t'[id] == NewRow && forall u :: u in t ==> t'[u] == t[u]
  {
    if id in t then t else t[id := NewRow]
  }

  /** `increment_counter`: `UPDATE ... WHERE user_id = ?` bumps one column of
      the matching row; with no matching row nothing changes. */
  function Increment(t: Table, id: int, c: Column): (t': Table)
    ensures t'.Keys == t.Keys
    ensures id !in t ==> t' == t
    ensures id in t ==> Get(t'[id], c) == Get(t[id], c) + 1
    ensures id in t ==> forall d :: d != c ==> Get(t'[id], d) == Get(t[id], d)
    ensures forall u :: u in t && u != id ==> t'[u] == t[u]
  {
    if id in t then t[id := Bump(t[id], c)] else t
  }

  /** `k` is the smallest member of `s`. */
  predicate IsMinOf(k: int, s: set<int>)
  {
    k in s && forall j :: j in s ==> k <= j
  }

  /** The smallest key of a non-empty set of ids; it fixes the order in which
      SumColumn visits the rows. */
  function MinKey(s: set<int>): (k: int)
    requires s != {}
    ensures IsMinOf(k, s)
  {
    MinKeyExists(s);
    var k :| IsMinOf(k, s);
    k
  }

  /** A set that is not empty has a member (by extensionality). */
  lemma NonEmptyHasMember(s: set<int>)
    requires s != {}
    ensures exists k :: k in s
  {
    var none: set<int> := {};
    assert (forall k :: k in s <==> k in none) ==> s == none;
  }

  lemma {:induction false} MinKeyExists(s: set<int>)
    requires s != {}
    ensures exists k :: IsMinOf(k, s)
    decreases |s|
  {
    NonEmptyHasMember(s);
    var x :| x in s;
    var rest := s - {x};
    if rest == {} {
      forall j | j in s ensures x <= j {
        assert j !in rest;
      }
      assert IsMinOf(x, s);
    } else {
      MinKeyExists(rest);
      var m :| IsMinOf(m, rest);
      var k := if x < m then x else m;
      forall j | j in s ensures k <= j {
        if j != x {
          assert j in rest;
        }
      }
      assert IsMinOf(k, s);
    }
  }

  /** The sum of one column over all rows of the table: zero on the empty
      table, and never below the value of any one row. */
  function SumColumn(t: Table, c: Column): (n: nat)
    ensures t == map[] ==> n == 0
    ensures forall k :: k in t ==> Get(t[k], c) <= n
    decreases |t|
  {
    if t == map[] then 0
    else
      var m := MinKey(t.Keys);
      var rest := t - {m};
      assert forall j :: j in t && j != m ==> j in rest && rest[j] == t[j];
      Get(t[m], c) + SumColumn(rest, c)
  }

  /** The sum may take out any one row first, not only the smallest. */
  lemma {:induction false} SumColumnRemove(t: Table, k: int, c: Column)
    requires k in t
    ensures SumColumn(t, c) == Get(t[k], c) + SumColumn(t - {k}, c)
    decreases |t|
  {
    var m := MinKey(t.Keys);
    if k != m {
      var rest := t - {m};
      SumColumnRemove(rest, k, c);
      assert rest - {k} == (t - {k}) - {m};
      assert m in (t - {k}).Keys;
      var m' := MinKey((t - {k}).Keys);
      assert m' in t.Keys && m <= m' && m' <= m;
    }
  }

  /** Replacing one existing row changes the sum by the change in that row. */
  lemma SumColumnUpdate(t: Table, k: int, r: Row, c: Column)
    requires k in t
    ensures SumColumn(t[k := r], c) + Get(t[k], c) == SumColumn(t, c) + Get(r, c)
  {
    SumColumnRemove(t, k, c);
    SumColumnRemove(t[k := r], k, c);
    assert t[k := r] - {k} == t - {k};
  }

  /** Adding a row for a new key adds that row's value to the sum. */
  lemma SumColumnInsert(t: Table, k: int, r: Row, c: Column)
    requires k !in t
    ensures SumColumn(t[k := r], c) == SumColumn(t, c) + Get(r, c)
  {
    SumColumnRemove(t[k := r], k, c);
    assert t[k := r] - {k} == t;
  }

  /** The raw answer of `SELECT COUNT(*), SUM(hdp), SUM(omon) FROM users`:
      SQL's SUM over no rows is NULL. */
  datatype Aggregate = Aggregate(count: nat, hdpSum: Option<nat>, omonSum: Option<nat>)

  function SqlSum(t: Table, c: Column): (s: Option<nat>)
    ensures s.None? <==> t == map[]
  {
    if t == map[] then None else Some(SumColumn(t, c))
  }

  function SelectStats(t: Table): (a: Aggregate)
    ensures a.count == |t|
    ensures a.hdpSum.None? <==> t == map[]
    ensures a.omonSum.None? <==> t == map[]
    ensures a.hdpSum.Some? ==> a.hdpSum.value == SumColumn(t, Hdp)
    ensures a.omonSum.Some? ==> a.omonSum.value == SumColumn(t, Omon)
  {
    Aggregate(|t|, SqlSum(t, Hdp), SqlSum(t, Omon))
  }

  /** `value or 0`: NULL becomes 0 and a number is kept (a 0 also stays 0). */
  function OrZero(v: Option<nat>): (n: nat)
    ensures v.None? ==> n == 0
    ensures v.Some? ==> n == v.value
  {
    match v
    case None => 0
    case Some(n) => n
  }

  /** `get_stats`: the row count and the two column sums, NULLs turned into
      zeros, so that the empty table reports three zeros. */
  function GetStats(t: Table): (s: Stats)
    ensures s.users == |t.Keys|
    ensures s.hdpClicks == SumColumn(t, Hdp) && s.omonClicks == SumColumn(t, Omon)
    ensures t == map[] ==> s == Stats(0, 0, 0)
  {
    var a := SelectStats(t);
    Stats(a.count, OrZero(a.hdpSum), OrZero(a.omonSum))
  }

  /** The matching column sum of the stats. */
  function Clicks(s: Stats, c: Column): nat
  {
    match c
    case Hdp => s.hdpClicks
    case Omon => s.omonClicks
  }

  /** Registering a new user adds one to the user count and no clicks;
      registering a known user changes no statistic. */
  lemma AddUserStats(t: Table, id: int)
    ensures id !in t ==> GetStats(AddUser(t, id)) == GetStats(t).(users := |t| + 1)
    ensures id in t ==> GetStats(AddUser(t, id)) == GetStats(t)
  {
    if id !in t {
      SumColumnInsert(t, id, NewRow, Hdp);
      SumColumnInsert(t, id, NewRow, Omon);
    }
  }

  /** A click by a known user adds exactly one to the clicked column's total
      and nothing else; a click by an unknown id changes no statistic. */
  lemma IncrementStats(t: Table, id: int, c: Column)
    ensures id in t ==> Clicks(GetStats(Increment(t, id, c)), c) == Clicks(GetStats(t), c) + 1
    ensures id in t ==> forall d :: d != c ==>
      Clicks(GetStats(Increment(t, id, c)), d) == Clicks(GetStats(t), d)
    ensures GetStats(Increment(t, id, c)).users == GetStats(t).users
    ensures id !in t ==> GetStats(Increment(t, id, c)) == GetStats(t)
  {
    if id in t {
      var r := Bump(t[id], c);
      SumColumnUpdate(t, id, r, Hdp);
      SumColumnUpdate(t, id, r, Omon);
    }
  }

  /** `add_user` is idempotent. */
  lemma AddUserIdempotent(t: Table, id: int)
    ensures AddUser(AddUser(t, id), id) == AddUser(t, id)
  {
  }

  /** The users table held by the bot process, updated in place. */
  class UserStore {
    var users: Table

    /** `init_db`: `CREATE TABLE IF NOT EXISTS` keeps a table that is
        already there and otherwise starts with no rows. */
    constructor (existing: Option<Table>)
      ensures existing.None? ==> users == map[]
      ensures existing.Some? ==> users == existing.value
    {
      match existing
      case None =>
        users := map[];
      case Some(t) =>
        users := t;
    }

    method AddUserRow(id: int)
      modifies this
      ensures users == AddUser(old(users), id)
    {
      if id !in users {
        users := users[id := NewRow];
      }
    }

    method IncrementCounter(id: int, c: Column)
      modifies this
      ensures users == Increment(old(users), id, c)
    {
      if id in users {
        users := users[id := Bump(users[id], c)];
      }
    }

    method ReadStats() returns (s: Stats)
      ensures s == GetStats(users)
    {
      s := GetStats(users);
    }
  }
}
