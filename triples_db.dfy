/**
 * The triples table: an append-only store of (head, rel, tail) rows over
 * integer ids, queried by class, that is by a (rel, tail) pair.
 * The SQLite file, its connection and its indices are not modelled; the
 * table is the sequence of its rows in insertion order.
 */
module Triples {

  /** One row of the `triples` table. */
  datatype DbTriple = DbTriple(head: int, rel: int, tail: int)

  /** The heads of the stored rows whose relation and tail are `rel` and `tail`. */
  function HeadsWithClass(rows: seq<DbTriple>, rel: int, tail: int): (heads: set<int>)
    ensures forall h :: h in heads <==> DbTriple(h, rel, tail) in rows
  {
    set t | t in rows && t.rel == rel && t.tail == tail :: t.head
  }

  /** Duplicate rows give one head, so there are never more heads than rows. */
  lemma {:induction false} HeadsWithClassBound(rows: seq<DbTriple>, rel: int, tail: int)
    ensures |HeadsWithClass(rows, rel, tail)| <= |rows|
  {
    if rows != [] {
      var init, last := rows[..|rows| - 1], rows[|rows| - 1];
      HeadsWithClassBound(init, rel, tail);
      assert rows == init + [last];
      var extra := if last.rel == rel && last.tail == tail then {last.head} else {};
      assert HeadsWithClass(rows, rel, tail) == HeadsWithClass(init, rel, tail) + extra;
    }
  }

  /** Appending rows never removes a head from any class. */
  lemma HeadsWithClassMonotone(rows: seq<DbTriple>, more: seq<DbTriple>, rel: int, tail: int)
    ensures HeadsWithClass(rows, rel, tail) <= HeadsWithClass(rows + more, rel, tail)
  {
  }

  /**
   * A triples database. `create_triples_table` is the constructor (an empty
   * table); `insert_triples` appends; `select_entities_with_class` reads.
   */
  class TriplesDb {
    var rows: seq<DbTriple>

    constructor ()
      ensures rows == []
    {
      rows := [];
    }

    method InsertTriples(dbTriples: seq<DbTriple>)
      modifies this
      ensures rows == old(rows) + dbTriples
      ensures forall rel, tail ::
        HeadsWithClass(old(rows), rel, tail) <= HeadsWithClass(rows, rel, tail)
    {
      rows := rows + dbTriples;
      forall rel, tail
        ensures HeadsWithClass(old(rows), rel, tail) <= HeadsWithClass(rows, rel, tail)
      {
        HeadsWithClassMonotone(old(rows), dbTriples, rel, tail);
      }
    }

    /** The set of heads h such that (h, class_.0, class_.1) is stored. */
    function SelectEntitiesWithClass(class_: (int, int)): (heads: set<int>)
      reads this
      ensures forall h :: h in heads <==> DbTriple(h, class_.0, class_.1) in rows
      ensures |heads| <= |rows|
    {
      HeadsWithClassBound(rows, class_.0, class_.1);
      HeadsWithClass(rows, class_.0, class_.1)
    }
  }
}
