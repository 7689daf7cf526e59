/** A gig's child rows (packages, questions): the constraints of their table, and replacing all rows of one
    gig in a transaction. */
module ChildTable {
  import opened Wrappers
  import opened Ordering

  datatype Child<+T> = Child(id: string, gigId: string, value: T, sortOrder: int)

  /** One row as a caller supplies it; an empty id asks for a generated one. */
  datatype Input<+T> = Input(id: string, value: T)

  /** What is unique among the rows of one gig: the tier of a package, the position of a question. */
  datatype Slot = Tier(name: string) | Position(number: int)

  /** Two rows the primary key or the unique index keeps apart. */
  predicate Clash<T>(slot: Child<T> -> Slot, a: Child<T>, b: Child<T>) {
    a.id == b.id || (a.gigId == b.gigId && slot(a) == slot(b))
  }

  predicate Admits<T>(slot: Child<T> -> Slot, table: seq<Child<T>>, row: Child<T>) {
    forall i :: 0 <= i < |table| ==> !Clash(slot, table[i], row)
  }

  /** The rows in heap order without those of the gig: DELETE … WHERE gig_id. */
  function Others<T>(table: seq<Child<T>>, gigId: string): seq<Child<T>> {
    if table == [] then []
    else (if table[0].gigId == gigId then [] else [table[0]]) + Others(table[1..], gigId)
  }

  /** The rows of the gig in heap order. */
  function RowsOf<T>(table: seq<Child<T>>, gigId: string): seq<Child<T>> {
    if table == [] then []
    else (if table[0].gigId == gigId then [table[0]] else []) + RowsOf(table[1..], gigId)
  }

  predicate EarlierPosition<T>(a: Child<T>, b: Child<T>) {
    a.sortOrder < b.sortOrder
  }

  function ByPosition<T>(): (Child<T>, Child<T>) -> bool {
    (a, b) => EarlierPosition(a, b)
  }

  /** SELECT … WHERE gig_id ORDER BY sort_order. */
  function Read<T>(table: seq<Child<T>>, gigId: string): seq<Child<T>> {
    StableSort(ByPosition(), RowsOf(table, gigId))
  }

  function NewRow<T>(gigId: string, items: seq<Input<T>>, generated: nat -> string, i: nat): Child<T>
    requires i < |items|
  {
    Child(if items[i].id != "" then items[i].id else generated(i), gigId, items[i].value, i + 1)
  }

  /** The rows that replace the gig's, in the order given. */
  function NewRows<T>(gigId: string, items: seq<Input<T>>, generated: nat -> string): (rows: seq<Child<T>>)
    ensures |rows| == |items|
    ensures forall i :: 0 <= i < |rows| ==> rows[i] == NewRow(gigId, items, generated, i)
  {
    seq(|items|, i requires 0 <= i < |items| => NewRow(gigId, items, generated, i))
  }

  /** The insert statements k, k + 1, … of a transaction, one for each row. A statement fails on a missing
      gig, on a clash, or for a cause outside the tables. */
  function InsertAll<T>(slot: Child<T> -> Slot, table: seq<Child<T>>, rows: seq<Child<T>>, gigExists: bool,
                        faults: nat -> bool, k: nat): Option<seq<Child<T>>>
    decreases |rows|
  {
    if rows == [] then Some(table)
    else if faults(k) || !gigExists || !Admits(slot, table, rows[0]) then None
    else InsertAll(slot, table + [rows[0]], rows[1..], gigExists, faults, k + 1)
  }

  /** Delete and insert: the table the transaction would commit, or None if a statement fails. */
  function ReplaceRows<T>(slot: Child<T> -> Slot, table: seq<Child<T>>, gigId: string, rows: seq<Child<T>>,
                          gigExists: bool, faults: nat -> bool): Option<seq<Child<T>>> {
    if faults(0) then None else InsertAll(slot, Others(table, gigId), rows, gigExists, faults, 1)
  }

  /** The whole transaction for n rows: statement n + 1 sets the gig's flag and n + 2 commits. None is a rollback. */
  function Transact<T>(slot: Child<T> -> Slot, table: seq<Child<T>>, gigId: string, rows: seq<Child<T>>,
                       gigExists: bool, faults: nat -> bool): Option<seq<Child<T>>> {
    var replaced := ReplaceRows(slot, table, gigId, rows, gigExists, faults);
    if replaced.None? || faults(|rows| + 1) || faults(|rows| + 2) then None else replaced
  }

  /** No row clashes with another of them, nor with one that stays. */
  ghost predicate Compatible<T>(slot: Child<T> -> Slot, stay: seq<Child<T>>, rows: seq<Child<T>>) {
    && (forall i, j :: 0 <= i < j < |rows| ==> !Clash(slot, rows[i], rows[j]))
    && (forall i, j :: 0 <= i < |stay| && 0 <= j < |rows| ==> !Clash(slot, stay[i], rows[j]))
  }

  ghost predicate NoFault(faults: nat -> bool, k: nat, n: nat) {
    forall i: nat :: k <= i < k + n ==> !faults(i)
  }

  lemma CompatibleCons<T>(slot: Child<T> -> Slot, stay: seq<Child<T>>, rows: seq<Child<T>>)
    requires rows != []
    ensures Compatible(slot, stay, rows)
            <==> Admits(slot, stay, rows[0]) && Compatible(slot, stay + [rows[0]], rows[1..])
  {
    var more, rest := stay + [rows[0]], rows[1..];
    if Compatible(slot, stay, rows) {
      forall i, j | 0 <= i < |more| && 0 <= j < |rest|
        ensures !Clash(slot, more[i], rest[j])
      {
        assert rest[j] == rows[j + 1];
        assert i == |stay| ==> more[i] == rows[0];
      }
    }
    if Admits(slot, stay, rows[0]) && Compatible(slot, more, rest) {
      forall i, j | 0 <= i < j < |rows|
        ensures !Clash(slot, rows[i], rows[j])
      {
        assert rows[j] == rest[j - 1];
        assert if i == 0 then rows[i] == more[|stay|] else rows[i] == rest[i - 1];
      }
      forall i, j | 0 <= i < |stay| && 0 <= j < |rows|
        ensures !Clash(slot, stay[i], rows[j])
      {
        assert more[i] == stay[i];
        assert j > 0 ==> rows[j] == rest[j - 1];
      }
    }
  }

  /** The inserts succeed if and only if no statement fails from outside, the gig exists, and no row
      clashes; then the rows stand behind the table in the order given. */
  lemma {:induction false} InsertsSucceed<T>(slot: Child<T> -> Slot, table: seq<Child<T>>, rows: seq<Child<T>>, gigExists: bool,
                                             faults: nat -> bool, k: nat)
    ensures InsertAll(slot, table, rows, gigExists, faults, k).Some?
            <==> NoFault(faults, k, |rows|) && (rows == [] || gigExists) && Compatible(slot, table, rows)
    ensures InsertAll(slot, table, rows, gigExists, faults, k).Some? ==>
              InsertAll(slot, table, rows, gigExists, faults, k).value == table + rows
    decreases |rows|
  {
    if rows == [] {
      assert table + rows == table;
    } else {
      CompatibleCons(slot, table, rows);
      InsertsSucceed(slot, table + [rows[0]], rows[1..], gigExists, faults, k + 1);
      assert table + [rows[0]] + rows[1..] == table + rows;
      assert NoFault(faults, k, |rows|) <==> !faults(k) && NoFault(faults, k + 1, |rows| - 1);
    }
  }

  lemma {:induction false} OthersOfConcat<T>(a: seq<Child<T>>, b: seq<Child<T>>, gigId: string)
    ensures Others(a + b, gigId) == Others(a, gigId) + Others(b, gigId)
  {
    if a == [] {
      assert a + b == b;
      assert [] + Others(b, gigId) == Others(b, gigId);
    } else {
      var head := if a[0].gigId == gigId then [] else [a[0]];
      assert (a + b)[1..] == a[1..] + b;
      OthersOfConcat(a[1..], b, gigId);
      assert head + (Others(a[1..], gigId) + Others(b, gigId)) == head + Others(a[1..], gigId) + Others(b, gigId);
    }
  }

  lemma {:induction false} RowsOfConcat<T>(a: seq<Child<T>>, b: seq<Child<T>>, gigId: string)
    ensures RowsOf(a + b, gigId) == RowsOf(a, gigId) + RowsOf(b, gigId)
  {
    if a == [] {
      assert a + b == b;
      assert [] + RowsOf(b, gigId) == RowsOf(b, gigId);
    } else {
      var head := if a[0].gigId == gigId then [a[0]] else [];
      assert (a + b)[1..] == a[1..] + b;
      RowsOfConcat(a[1..], b, gigId);
      assert head + (RowsOf(a[1..], gigId) + RowsOf(b, gigId)) == head + RowsOf(a[1..], gigId) + RowsOf(b, gigId);
    }
  }

  lemma {:induction false} AllOfOneGig<T>(rows: seq<Child<T>>, owner: string, gigId: string)
    requires forall i :: 0 <= i < |rows| ==> rows[i].gigId == owner
    ensures RowsOf(rows, gigId) == if owner == gigId then rows else []
    ensures Others(rows, gigId) == if owner == gigId then [] else rows
  {
    if rows != [] {
      AllOfOneGig(rows[1..], owner, gigId);
    }
  }

  lemma {:induction false} OthersSplit<T>(table: seq<Child<T>>, gigId: string, other: string)
    ensures RowsOf(Others(table, gigId), other) == if other == gigId then [] else RowsOf(table, other)
  {
    if table != [] {
      var rest := Others(table[1..], gigId);
      OthersSplit(table[1..], gigId, other);
      if table[0].gigId == gigId {
        assert Others(table, gigId) == rest;
      } else {
        assert Others(table, gigId) == [table[0]] + rest;
        RowsOfConcat([table[0]], rest, other);
        assert [table[0]][1..] == [];
      }
    }
  }

  lemma {:induction false} OthersTwice<T>(table: seq<Child<T>>, gigId: string)
    ensures Others(Others(table, gigId), gigId) == Others(table, gigId)
  {
    if table != [] {
      var rest := Others(table[1..], gigId);
      OthersTwice(table[1..], gigId);
      assert ([table[0]] + rest)[1..] == rest;
      assert Others(table, gigId) == if table[0].gigId == gigId then rest else [table[0]] + rest;
    }
  }

  lemma {:induction false} OthersAreOthers<T>(table: seq<Child<T>>, gigId: string)
    ensures forall i :: 0 <= i < |Others(table, gigId)| ==> Others(table, gigId)[i].gigId != gigId
  {
    if table != [] {
      OthersAreOthers(table[1..], gigId);
    }
  }

  /** Replacing a gig's rows leaves those of every other gig where they were. */
  lemma Replaced<T>(table: seq<Child<T>>, gigId: string, rows: seq<Child<T>>, other: string)
    requires forall i :: 0 <= i < |rows| ==> rows[i].gigId == gigId
    ensures var next := Others(table, gigId) + rows;
            && Others(next, gigId) == Others(table, gigId)
            && RowsOf(next, gigId) == rows
            && (other != gigId ==> RowsOf(next, other) == RowsOf(table, other))
  {
    OthersOfConcat(Others(table, gigId), rows, gigId);
    RowsOfConcat(Others(table, gigId), rows, gigId);
    RowsOfConcat(Others(table, gigId), rows, other);
    OthersSplit(table, gigId, gigId);
    OthersSplit(table, gigId, other);
    OthersTwice(table, gigId);
    AllOfOneGig(rows, gigId, gigId);
    AllOfOneGig(rows, gigId, other);
    assert [] + rows == rows;
    assert Others(table, gigId) + [] == Others(table, gigId);
    assert RowsOf(table, other) + [] == RowsOf(table, other);
  }

  /** A sequence in order is its own stable sort. */
  lemma {:induction false} SortedIsFixed<T>(before: (T, T) -> bool, s: seq<T>)
    requires Sorted(before, s)
    ensures StableSort(before, s) == s
  {
    if s != [] {
      var n := |s| - 1;
      SortedIsFixed(before, s[..n]);
      assert s == s[..n] + [s[n]];
    }
  }

  /** When the transaction commits: no statement fails from outside, the gig exists (or nothing is inserted),
      and no new row clashes with another new row or with a row of another gig. */
  ghost predicate Commits<T>(slot: Child<T> -> Slot, table: seq<Child<T>>, gigId: string, rows: seq<Child<T>>,
                             gigExists: bool, faults: nat -> bool) {
    && NoFault(faults, 0, |rows| + 3)
    && (rows == [] || gigExists)
    && Compatible(slot, Others(table, gigId), rows)
  }

  /** A transaction commits exactly then, and puts the rows behind those of the other gigs. */
  lemma TransactionOutcome<T>(slot: Child<T> -> Slot, table: seq<Child<T>>, gigId: string, rows: seq<Child<T>>,
                              gigExists: bool, faults: nat -> bool)
    ensures Transact(slot, table, gigId, rows, gigExists, faults)
            == if Commits(slot, table, gigId, rows, gigExists, faults) then Some(Others(table, gigId) + rows) else None
  {
    var n := |rows|;
    InsertsSucceed(slot, Others(table, gigId), rows, gigExists, faults, 1);
    assert NoFault(faults, 0, n + 3) <==> !faults(0) && NoFault(faults, 1, n) && !faults(n + 1) && !faults(n + 2);
  }

  /** Main result. Committed, the ordered read returns exactly the rows given, in their order, numbered
      1..n, with the supplied ids kept; and no other gig's rows change. */
  lemma ReplaceReadsBack<T>(table: seq<Child<T>>, gigId: string, items: seq<Input<T>>, generated: nat -> string, other: string)
    ensures var rows := NewRows(gigId, items, generated);
            var after := Others(table, gigId) + rows;
            && Read(after, gigId) == rows
            && Others(after, gigId) == Others(table, gigId)
            && (other != gigId ==> Read(after, other) == Read(table, other))
    ensures forall i :: 0 <= i < |items| ==>
              && NewRows(gigId, items, generated)[i].sortOrder == i + 1
              && NewRows(gigId, items, generated)[i].value == items[i].value
              && NewRows(gigId, items, generated)[i].id == if items[i].id != "" then items[i].id else generated(i)
  {
    var rows := NewRows(gigId, items, generated);
    Replaced(table, gigId, rows, other);
    SortedIsFixed(ByPosition(), rows);
  }
}
