/** The `subscriptions` table and the data-access object over it. The SELECT
    queries are pure functions of the table; the four writes are methods of
    `SubscriptionDao`, which owns the rows and the auto-increment counter. */
module Dao {
  import opened Wrappers
  import opened Entity

  /** The table, keyed by primary key. */
  type Table = map<int, Subscription>

  /** Every row is stored under its own `id` (the primary-key invariant). */
  predicate WellKeyed(t: Table) {
    forall k :: k in t ==> t[k].id == k
  }

  // ---------------------------------------------------------------------------
  // Table scans

  lemma PickKey(s: set<int>) returns (k: int)
    requires s != {}
    ensures k in s
  {
    if forall j :: j !in s { assert false; }
    k :| k in s;
  }

  /** A key under which `x` is stored. */
  lemma KeyOf(t: Table, x: Subscription) returns (k: int)
    requires x in t.Values
    ensures k in t && t[k] == x
  {
    if forall j :: j in t ==> t[j] != x { assert false; }
    k :| k in t && t[k] == x;
  }

  lemma {:induction false} MinExists(s: set<int>)
    requires s != {}
    ensures exists k :: k in s && forall j :: j in s ==> k <= j
    decreases |s|
  {
    var x := PickKey(s);
    var rest := s - {x};
    if rest == {} {
      assert forall j :: j in s ==> x <= j by {
        forall j | j in s ensures x <= j {
          assert j !in rest;
        }
      }
    } else {
      MinExists(rest);
      var k :| k in rest && forall j :: j in rest ==> k <= j;
      var m := if x < k then x else k;
      assert forall j :: j in s ==> m <= j by {
        forall j | j in s ensures m <= j {
          if j != x { assert j in rest; }
        }
      }
    }
  }

  /** The smallest key of a non-empty key set. */
  function MinKey(s: set<int>): (k: int)
    requires s != {}
    ensures k in s && forall j :: j in s ==> k <= j
  {
    MinExists(s);
    var k :| k in s && forall j :: j in s ==> k <= j;
    k
  }

  /** The values of `t` are its value under `k` and the values of the rest. */
  lemma ValuesSplit(t: Table, k: int)
    requires k in t
    ensures (t - {k}).Keys == t.Keys - {k}
    ensures forall x :: x in t.Values <==> x == t[k] || x in (t - {k}).Values
  {
    var rest := t - {k};
    forall x | x in t.Values ensures x == t[k] || x in rest.Values {
      var j := KeyOf(t, x);
      if j != k { assert j in rest; }
    }
  }

  /** The rows of `t` in primary-key order, the order of a full table scan. */
  function Scan(t: Table): (r: seq<Subscription>)
    ensures |r| == |t.Keys|
    ensures forall x :: x in r <==> x in t.Values
    decreases t.Keys
  {
    if t.Keys == {} then []
    else
      var k := MinKey(t.Keys);
      ValuesSplit(t, k);
      [t[k]] + Scan(t - {k})
  }

  /** In a well-keyed table the scan lists each id once, in increasing order. */
  lemma {:induction false} ScanIdsIncreasing(t: Table)
    requires WellKeyed(t)
    ensures IdsIncreasing(Scan(t))
    decreases t.Keys
  {
    if t.Keys != {} {
      var k := MinKey(t.Keys);
      ValuesSplit(t, k);
      var tail := Scan(t - {k});
      ScanIdsIncreasing(t - {k});
      forall x | x in tail ensures k < x.id {
        var j := KeyOf(t - {k}, x);
      }
      var r := [t[k]] + tail;
      assert r == Scan(t);
      forall i, j | 0 <= i < j < |r| ensures r[i].id < r[j].id {
        assert r[j] == tail[j - 1];
        if i > 0 { assert r[i] == tail[i - 1]; }
      }
    }
  }

  predicate IdsIncreasing(s: seq<Subscription>) {
    forall i, j :: 0 <= i < j < |s| ==> s[i].id < s[j].id
  }

  /** No row occurs twice. */
  predicate NoDuplicates(s: seq<Subscription>) {
    forall i, j :: 0 <= i < j < |s| ==> s[i] != s[j]
  }

  lemma ScanNoDuplicates(t: Table)
    ensures WellKeyed(t) ==> NoDuplicates(Scan(t))
  {
    if WellKeyed(t) { ScanIdsIncreasing(t); }
  }

  /** The rows of `t` that satisfy the WHERE clause `p`, still keyed. */
  function Where(t: Table, p: Subscription -> bool): (w: Table)
    ensures w.Keys <= t.Keys
    ensures forall k :: k in w <==> k in t && p(t[k])
    ensures forall k :: k in w ==> w[k] == t[k]
    ensures forall x :: x in w.Values <==> x in t.Values && p(x)
  {
    var w := map k | k in t && p(t[k]) :: t[k];
    assert forall x :: x in t.Values && p(x) ==> x in w.Values by {
      forall x | x in t.Values && p(x) ensures x in w.Values {
        var k := KeyOf(t, x);
        assert k in w;
      }
    }
    w
  }

  // ---------------------------------------------------------------------------
  // WHERE clauses of the queries

  function IsActive(): Subscription -> bool {
    (s: Subscription) => s.isActive
  }

  function ActiveWithCycle(cycle: PaymentCycle): Subscription -> bool {
    (s: Subscription) => s.isActive && s.paymentCycle == cycle
  }

  /** `expirationDate BETWEEN start AND end AND isActive = 1`: both ends are
      included, and a null date never satisfies BETWEEN. */
  function ActiveExpiringBetween(start: int, end: int): Subscription -> bool {
    (s: Subscription) => s.isActive && s.expirationDate.Some? && start <= s.expirationDate.value <= end
  }

  // ---------------------------------------------------------------------------
  // ORDER BY serviceName ASC: SQLite's BINARY collation compares the UTF-8
  // bytes, which orders strings by code point, a proper prefix first.

  predicate NameLe(a: string, b: string) {
    |a| == 0 || (|b| > 0 && (a[0] < b[0] || (a[0] == b[0] && NameLe(a[1..], b[1..]))))
  }

  lemma {:induction false} NameLeTotal(a: string, b: string)
    ensures NameLe(a, b) || NameLe(b, a)
  {
    if |a| > 0 && |b| > 0 && a[0] == b[0] {
      NameLeTotal(a[1..], b[1..]);
    }
  }

  lemma {:induction false} NameLeTransitive(a: string, b: string, c: string)
    requires NameLe(a, b) && NameLe(b, c)
    ensures NameLe(a, c)
  {
    if |a| > 0 && a[0] == b[0] && b[0] == c[0] {
      NameLeTransitive(a[1..], b[1..], c[1..]);
    }
  }

  /** Each row's name sorts no later than the next row's. */
  predicate SortedByName(s: seq<Subscription>) {
    forall i :: 0 <= i < |s| - 1 ==> NameLe(s[i].serviceName, s[i + 1].serviceName)
  }

  lemma {:induction false} SortedPairwise(s: seq<Subscription>)
    requires SortedByName(s)
    ensures forall i, j :: 0 <= i < j < |s| ==> NameLe(s[i].serviceName, s[j].serviceName)
  {
    if |s| > 1 {
      SortedPairwise(s[1..]);
      forall j | 1 < j < |s| ensures NameLe(s[0].serviceName, s[j].serviceName) {
        assert s[1..][j - 1] == s[j];
        NameLeTransitive(s[0].serviceName, s[1].serviceName, s[j].serviceName);
      }
    }
  }

  /** `s` with `x` inserted before the first row whose name does not sort
      before `x`'s. */
  function InsertByName(x: Subscription, s: seq<Subscription>): (r: seq<Subscription>)
    ensures multiset(r) == multiset(s) + multiset{x}
    ensures r[0] == x || (|s| > 0 && r[0] == s[0])
  {
    if s == [] then [x]
    else if NameLe(x.serviceName, s[0].serviceName) then [x] + s
    else
      assert s == [s[0]] + s[1..];
      [s[0]] + InsertByName(x, s[1..])
  }

  lemma {:induction false} InsertKeepsSorted(x: Subscription, s: seq<Subscription>)
    requires SortedByName(s)
    ensures SortedByName(InsertByName(x, s))
  {
    if s != [] && !NameLe(x.serviceName, s[0].serviceName) {
      NameLeTotal(x.serviceName, s[0].serviceName);
      InsertKeepsSorted(x, s[1..]);
      var tail := InsertByName(x, s[1..]);
      var r := [s[0]] + tail;
      assert r == InsertByName(x, s);
      forall i | 0 <= i < |r| - 1 ensures NameLe(r[i].serviceName, r[i + 1].serviceName) {
        if i > 0 {
          assert r[i] == tail[i - 1] && r[i + 1] == tail[i];
        }
      }
    }
  }

  lemma InsertNoDuplicates(x: Subscription, s: seq<Subscription>)
    requires NoDuplicates(s) && x !in s
    ensures NoDuplicates(InsertByName(x, s))
  {
    if s != [] && !NameLe(x.serviceName, s[0].serviceName) {
      InsertNoDuplicates(x, s[1..]);
      var tail := InsertByName(x, s[1..]);
      assert s == [s[0]] + s[1..];
      assert s[0] !in s[1..] by {
        forall j | 1 <= j < |s| ensures s[j] != s[0] { }
      }
      assert multiset(tail)[s[0]] == 0;
      var r := [s[0]] + tail;
      forall i, j | 0 <= i < j < |r| ensures r[i] != r[j] {
        assert r[j] == tail[j - 1];
        if i > 0 { assert r[i] == tail[i - 1]; }
      }
    }
  }

  /** A sort of `s` by service name (insertion sort). */
  function SortByName(s: seq<Subscription>): (r: seq<Subscription>)
    ensures SortedByName(r)
    ensures multiset(r) == multiset(s)
    ensures NoDuplicates(s) ==> NoDuplicates(r)
  {
    if s == [] then []
    else
      assert s == [s[0]] + s[1..];
      var sorted := SortByName(s[1..]);
      assert NoDuplicates(s) ==> s[0] !in sorted by {
        if NoDuplicates(s) {
          assert forall j :: 1 <= j < |s| ==> s[j] != s[0];
          assert s[0] !in s[1..];
          assert multiset(sorted)[s[0]] == 0;
        }
      }
      InsertKeepsSorted(s[0], sorted);
      if NoDuplicates(s) then
        InsertNoDuplicates(s[0], sorted);
        InsertByName(s[0], sorted)
      else
        InsertByName(s[0], sorted)
  }

  /** Sorting keeps exactly the rows it is given. */
  lemma SortedMembers(s: seq<Subscription>)
    ensures forall x :: x in SortByName(s) <==> x in s
  {
    var r := SortByName(s);
    forall x ensures x in r <==> x in s {
      assert x in r <==> multiset(r)[x] > 0;
      assert x in s <==> multiset(s)[x] > 0;
    }
  }

  // ---------------------------------------------------------------------------
  // The SELECT queries

  /** `SELECT * FROM subscriptions WHERE isActive = 1 ORDER BY serviceName ASC` */
  function GetAllActiveSubscriptions(t: Table): (r: seq<Subscription>)
    ensures forall x :: x in r <==> x in t.Values && x.isActive
    ensures SortedByName(r)
    ensures forall i, j :: 0 <= i < j < |r| ==> NameLe(r[i].serviceName, r[j].serviceName)
    ensures WellKeyed(t) ==> NoDuplicates(r)
  {
    var rows := Scan(Where(t, IsActive()));
    SortedPairwise(SortByName(rows));
    SortedMembers(rows);
    ScanNoDuplicates(Where(t, IsActive()));
    SortByName(rows)
  }

  /** `SELECT * FROM subscriptions WHERE id = :id`: the row whether it is active
      or not, or null. */
  function GetSubscriptionById(t: Table, id: int): (r: Option<Subscription>)
    ensures r.Some? <==> id in t
    ensures r.Some? ==> r.value in t.Values && (WellKeyed(t) ==> r.value.id == id)
  {
    if id in t then Some(t[id]) else None
  }

  /** `SELECT * FROM subscriptions WHERE paymentCycle = :cycle AND isActive = 1`;
      SQL promises no order, this model returns the scan order. */
  function GetSubscriptionsByCycle(t: Table, cycle: PaymentCycle): (r: seq<Subscription>)
    ensures forall x :: x in r <==> x in t.Values && x.isActive && x.paymentCycle == cycle
    ensures WellKeyed(t) ==> NoDuplicates(r)
  {
    ScanNoDuplicates(Where(t, ActiveWithCycle(cycle)));
    Scan(Where(t, ActiveWithCycle(cycle)))
  }

  /** `SELECT * FROM subscriptions WHERE expirationDate BETWEEN :startDate AND
      :endDate AND isActive = 1` */
  function GetSubscriptionsExpiringBetween(t: Table, start: int, end: int): (r: seq<Subscription>)
    ensures forall x :: x in r <==> x in t.Values && x.isActive && x.expirationDate.Some?
                                    && start <= x.expirationDate.value <= end
    ensures WellKeyed(t) ==> NoDuplicates(r)
  {
    ScanNoDuplicates(Where(t, ActiveExpiringBetween(start, end)));
    Scan(Where(t, ActiveExpiringBetween(start, end)))
  }

  /** The sum of the amounts of the rows of `t`; 0 for no rows. */
  function SumAmounts(t: Table): real
    decreases t.Keys
  {
    if t.Keys == {} then 0.0
    else
      var k := MinKey(t.Keys);
      var rest := t - {k};
      assert rest.Keys == t.Keys - {k};
      t[k].amount + SumAmounts(rest)
  }

  /** The sum of the amounts of the active rows with billing cycle `cycle`. */
  function CycleSum(t: Table, cycle: PaymentCycle): real {
    SumAmounts(Where(t, ActiveWithCycle(cycle)))
  }

  /** `SELECT SUM(amount) FROM subscriptions WHERE paymentCycle = :cycle AND
      isActive = 1`: SQL's SUM is null over no rows. */
  function GetTotalAmountByCycle(t: Table, cycle: PaymentCycle): (r: Option<real>)
    ensures r.None? <==> forall x :: x in t.Values ==> !(x.isActive && x.paymentCycle == cycle)
    ensures r.Some? ==> r.value == CycleSum(t, cycle)
  {
    var w := Where(t, ActiveWithCycle(cycle));
    if w.Keys == {} then None else Some(SumAmounts(w))
  }

  /** The amounts of a list of rows, added up. */
  function SumOf(s: seq<Subscription>): real {
    if s == [] then 0.0 else s[0].amount + SumOf(s[1..])
  }

  /** Adding up a table visits each row once, whichever row is taken first:
      removing any one row takes exactly its amount off the sum. */
  lemma {:induction false} SumAmountsRemove(t: Table, k: int)
    requires k in t
    ensures SumAmounts(t) == t[k].amount + SumAmounts(t - {k})
    decreases t.Keys
  {
    var m := MinKey(t.Keys);
    if m != k {
      var tm, tk := t - {m}, t - {k};
      assert tm.Keys == t.Keys - {m} && tk.Keys == t.Keys - {k};
      SumAmountsRemove(tm, k);
      SumAmountsRemove(tk, m);
      assert tm - {k} == tk - {m};
    }
  }

  /** The sum over a table is the sum over its scan. */
  lemma {:induction false} SumAmountsIsSumOfScan(t: Table)
    ensures SumAmounts(t) == SumOf(Scan(t))
    decreases t.Keys
  {
    if t.Keys != {} {
      var k := MinKey(t.Keys);
      assert (t - {k}).Keys == t.Keys - {k};
      SumAmountsIsSumOfScan(t - {k});
      var r := Scan(t);
      assert r[1..] == Scan(t - {k});
    }
  }

  /** SUM(amount) adds up exactly the rows that the listing by cycle returns,
      and is null exactly when that listing is empty. */
  lemma TotalIsSumOfListing(t: Table, cycle: PaymentCycle)
    ensures var rows := GetSubscriptionsByCycle(t, cycle);
            GetTotalAmountByCycle(t, cycle) == if rows == [] then None else Some(SumOf(rows))
  {
    SumAmountsIsSumOfScan(Where(t, ActiveWithCycle(cycle)));
  }

  // ---------------------------------------------------------------------------
  // The writes, as functions of the table

  /** `@Update`: every column of the row keyed `s.id` is overwritten; no row
      has that key, nothing changes. */
  function Updated(t: Table, s: Subscription): Table {
    if s.id in t then t[s.id := s] else t
  }

  /** `@Delete`: the row with the primary key of `s` is removed; its other
      fields play no part. */
  function Deleted(t: Table, id: int): Table {
    t - {id}
  }

  /** `UPDATE subscriptions SET isActive = 0 WHERE id = :id`: one column of one
      row; `updatedAt` is not touched. */
  function Deactivated(t: Table, id: int): Table {
    if id in t then t[id := t[id].(isActive := false)] else t
  }

  /** What row `id` contributes to the cycle total of `t`. */
  function Contribution(t: Table, id: int, cycle: PaymentCycle): real {
    if id in t && t[id].isActive && t[id].paymentCycle == cycle then t[id].amount else 0.0
  }

  /** Selecting from a table with one row taken out is selecting from the whole
      table and dropping that row. */
  lemma WhereWithout(t: Table, u: Table, id: int, p: Subscription -> bool)
    requires forall k :: k != id ==> (k in u <==> k in t)
    requires forall k :: k in u && k != id ==> u[k] == t[k]
    requires id in u ==> !p(u[id])
    ensures Where(u, p) == Where(t, p) - {id}
  {
    var a, b := Where(u, p), Where(t, p) - {id};
    assert forall k :: k in a <==> k in b;
    assert forall k :: k in a ==> a[k] == b[k];
  }

  lemma SumWithout(t: Table, u: Table, id: int, cycle: PaymentCycle)
    requires Where(u, ActiveWithCycle(cycle)) == Where(t, ActiveWithCycle(cycle)) - {id}
    ensures CycleSum(u, cycle) == CycleSum(t, cycle) - Contribution(t, id, cycle)
  {
    var w := Where(t, ActiveWithCycle(cycle));
    if id in w {
      SumAmountsRemove(w, id);
    } else {
      assert w - {id} == w;
    }
  }

  /** A hard delete takes the row's amount off its cycle's total, if it was
      active, and leaves the other cycle's total as it was. */
  lemma DeleteTotal(t: Table, id: int, cycle: PaymentCycle)
    ensures CycleSum(Deleted(t, id), cycle) == CycleSum(t, cycle) - Contribution(t, id, cycle)
  {
    WhereWithout(t, Deleted(t, id), id, ActiveWithCycle(cycle));
    SumWithout(t, Deleted(t, id), id, cycle);
  }

  /** A deactivated row can still be fetched by id, now inactive and otherwise
      unchanged, but no active listing, window query or total includes it. */
  lemma DeactivateHides(t: Table, id: int, cycle: PaymentCycle, start: int, end: int)
    requires WellKeyed(t) && id in t
    ensures GetSubscriptionById(Deactivated(t, id), id) == Some(t[id].(isActive := false))
    ensures forall x :: x in GetAllActiveSubscriptions(Deactivated(t, id)) ==> x.id != id
    ensures forall x :: x in GetSubscriptionsByCycle(Deactivated(t, id), cycle) ==> x.id != id
    ensures forall x :: x in GetSubscriptionsExpiringBetween(Deactivated(t, id), start, end) ==> x.id != id
    ensures CycleSum(Deactivated(t, id), cycle) == CycleSum(t, cycle) - Contribution(t, id, cycle)
  {
    var d := Deactivated(t, id);
    assert WellKeyed(d);
    forall x | x in d.Values && x.isActive ensures x.id != id {
      var k := KeyOf(d, x);
    }
    WhereWithout(t, d, id, ActiveWithCycle(cycle));
    SumWithout(t, d, id, cycle);
  }

  // ---------------------------------------------------------------------------
  // The data-access object

  /** Why a write did not happen: a primary-key clash (Room's default ABORT
      conflict strategy) or a failure of the storage engine itself. */
  datatype DbError = ConstraintViolation | StorageFailure

  /** The table as the DAO sees it: the rows and the auto-increment counter,
      which is one more than the largest id the table has ever held, so a
      generated id is never reused. `fault` parameters stand for an I/O failure
      of the storage engine, which leaves the table as it was. */
  class SubscriptionDao {
    var rows: Table
    var nextId: int

    ghost predicate Valid()
      reads this
    {
      && WellKeyed(rows)
      && 0 < nextId
      && forall k :: k in rows ==> k < nextId
    }

    constructor ()
      ensures Valid() && rows == map[] && nextId == 1
    {
      rows := map[];
      nextId := 1;
    }

    /** `@Insert`: a record with id 0 gets the next generated id; any other id
        is used as given and must be free. Returns the id of the new row. */
    method InsertSubscription(s: Subscription, fault: bool) returns (r: Result<int, DbError>)
      requires Valid()
      modifies this
      ensures Valid()
      ensures r == Failure(StorageFailure) <==> fault
      ensures r == Failure(ConstraintViolation) <==> !fault && !IsNew(s) && s.id in old(rows)
      ensures r.Failure? ==> rows == old(rows) && nextId == old(nextId)
      ensures r.Success? ==> r.value == (if IsNew(s) then old(nextId) else s.id)
      ensures r.Success? ==> r.value !in old(rows) && rows == old(rows)[r.value := s.(id := r.value)]
      ensures r.Success? ==> GetSubscriptionById(rows, r.value) == Some(s.(id := r.value))
      ensures r.Success? ==> nextId == if r.value < old(nextId) then old(nextId) else r.value + 1
    {
      if fault {
        return Failure(StorageFailure);
      }
      var id := if IsNew(s) then nextId else s.id;
      if id in rows {
        return Failure(ConstraintViolation);
      }
      rows := rows[id := s.(id := id)];
      if nextId <= id {
        nextId := id + 1;
      }
      r := Success(id);
    }

    /** `@Update`: overwrites the row keyed `s.id`, if there is one. */
    method UpdateSubscription(s: Subscription, fault: bool) returns (r: Outcome<DbError>)
      requires Valid()
      modifies this
      ensures Valid() && nextId == old(nextId)
      ensures r == (if fault then Fail(StorageFailure) else Pass)
      ensures rows == if fault then old(rows) else Updated(old(rows), s)
    {
      if fault {
        return Fail(StorageFailure);
      }
      if s.id in rows {
        rows := rows[s.id := s];
      }
      r := Pass;
    }

    /** `@Delete`: removes the row with the primary key of `s`, if any. */
    method DeleteSubscription(s: Subscription, fault: bool) returns (r: Outcome<DbError>)
      requires Valid()
      modifies this
      ensures Valid() && nextId == old(nextId)
      ensures r == (if fault then Fail(StorageFailure) else Pass)
      ensures rows == if fault then old(rows) else Deleted(old(rows), s.id)
    {
      if fault {
        return Fail(StorageFailure);
      }
      rows := rows - {s.id};
      r := Pass;
    }

    /** The soft delete: clears `isActive` of row `id`, if any. */
    method DeactivateSubscription(id: int, fault: bool) returns (r: Outcome<DbError>)
      requires Valid()
      modifies this
      ensures Valid() && nextId == old(nextId)
      ensures r == (if fault then Fail(StorageFailure) else Pass)
      ensures rows == if fault then old(rows) else Deactivated(old(rows), id)
    {
      if fault {
        return Fail(StorageFailure);
      }
      if id in rows {
        rows := rows[id := rows[id].(isActive := false)];
      }
      r := Pass;
    }
  }
}
