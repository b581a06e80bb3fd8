/**
 * `create_ower_dataset`: builds the OWER sample rows. The triples of each
 * split are stored one by one in a triples table; for every class
 * `(rel, tail)` the table yields the set of entities of that class; every
 * entity of the split's contexts becomes one row: the entity, one 0/1
 * column per class, and one of its context sentences with surrounding
 * whitespace removed.
 *
 * Files and SQLite are not modelled: the loaded triples, contexts and
 * classes are the inputs, the rows of the three sample files the outputs.
 * Python's set order is an arbitrary choice.
 */
module OwerDataset {
  import opened Triples
  import opened Wrappers
  import opened PyStrings

  /** A triple as read from a triples file. */
  type Triple = (int, int, int)

  /** `{ent: {sentence}}` in the dict's iteration order. */
  type Contexts = seq<(int, set<string>)>

  /** A cell of a sample row: the entity and class bits are ints, the sentence a string. */
  datatype Cell = IntCell(i: int) | StrCell(s: string)

  type Row = seq<Cell>

  // ---------------------------------------------------------------------
  // Triples tables
  // ---------------------------------------------------------------------

  function ToDbTriple(t: Triple): DbTriple { DbTriple(t.0, t.1, t.2) }

  /** The rows a split's triples give, in file order. */
  function ToDbTriples(triples: seq<Triple>): (rows: seq<DbTriple>)
    ensures |rows| == |triples|
    ensures forall h, r, t :: DbTriple(h, r, t) in rows <==> (h, r, t) in triples
  {
    var rows := seq(|triples|, i requires 0 <= i < |triples| => ToDbTriple(triples[i]));
    assert forall i :: 0 <= i < |triples| ==> rows[i] == DbTriple(triples[i].0, triples[i].1, triples[i].2);
    rows
  }

  /** `create_triples_table`, then `insert_triple` for each triple in order. */
  method FillTriplesDb(triples: seq<Triple>) returns (db: TriplesDb)
    ensures fresh(db)
    ensures db.rows == ToDbTriples(triples)
  {
    db := new TriplesDb();
    for i := 0 to |triples|
      invariant db.rows == ToDbTriples(triples[..i])
    {
      var triple := triples[i];
      db.InsertTriples([DbTriple(triple.0, triple.1, triple.2)]);
      assert triples[..i + 1] == triples[..i] + [triple];
    }
    assert triples[..|triples|] == triples;
  }

  // ---------------------------------------------------------------------
  // Class entities
  // ---------------------------------------------------------------------

  /** `class_to_entities[c]` of a `defaultdict(set)`: the empty set when absent. */
  function EntsOf(classToEnts: map<(int, int), set<int>>, c: (int, int)): set<int>
  {
    if c in classToEnts then classToEnts[c] else {}
  }

  /** Fills `class_to_entities` with the table's entities of every class. */
  method ClassToEntities(db: TriplesDb, classes: seq<(int, int)>) returns (classToEnts: map<(int, int), set<int>>)
    ensures classToEnts.Keys == set c | c in classes
    ensures forall c, h :: c in classes ==> (h in EntsOf(classToEnts, c) <==> DbTriple(h, c.0, c.1) in db.rows)
  {
    classToEnts := map[];
    for i := 0 to |classes|
      invariant classToEnts.Keys == set c | c in classes[..i]
      invariant forall c, h :: c in classToEnts ==> (h in classToEnts[c] <==> DbTriple(h, c.0, c.1) in db.rows)
    {
      var class_ := classes[i];
      classToEnts := classToEnts[class_ := db.SelectEntitiesWithClass(class_)];
      assert classes[..i + 1] == classes[..i] + [class_];
    }
    assert classes[..|classes|] == classes;
  }

  // ---------------------------------------------------------------------
  // Sample rows
  // ---------------------------------------------------------------------

  /** `cell` holds one of `sents`, stripped. */
  predicate IsSentenceCell(cell: Cell, sents: set<string>)
  {
    exists sent :: sent in sents && cell == StrCell(Strip(sent))
  }

  /** `row` is a legitimate sample row for the context entry `(ent, sents)`. */
  predicate IsRowOf(row: Row, entry: (int, set<string>), classes: seq<(int, int)>,
                    classToEnts: map<(int, int), set<int>>)
  {
    && |row| == |classes| + 2
    && row[0] == IntCell(entry.0)
    && (forall j :: 0 <= j < |classes| ==>
          row[j + 1] == IntCell(if entry.0 in EntsOf(classToEnts, classes[j]) then 1 else 0))
    && IsSentenceCell(row[|classes| + 1], entry.1)
  }

  /** The class columns of one entity, in class order. */
  method ClassBits(ent: int, classes: seq<(int, int)>, classToEnts: map<(int, int), set<int>>)
    returns (bits: seq<Cell>)
    ensures |bits| == |classes|
    ensures forall j :: 0 <= j < |classes| ==>
      bits[j] == IntCell(if ent in EntsOf(classToEnts, classes[j]) then 1 else 0)
  {
    bits := [];
    for j := 0 to |classes|
      invariant |bits| == j
      invariant forall k :: 0 <= k < j ==>
        bits[k] == IntCell(if ent in EntsOf(classToEnts, classes[k]) then 1 else 0)
    {
      bits := bits + [IntCell(if ent in EntsOf(classToEnts, classes[j]) then 1 else 0)];
    }
  }

  /** No context entry is without sentences. */
  predicate AllHaveSentences(contexts: Contexts)
  {
    forall i :: 0 <= i < |contexts| ==> |contexts[i].1| != 0
  }

  /**
   * The row of one context entry: the entity, its class columns and the
   * first of its sentences, stripped; `None` where `list(sents)[0]` raises.
   */
  method EntityRow(entry: (int, set<string>), classes: seq<(int, int)>, classToEnts: map<(int, int), set<int>>)
    returns (row: Option<Row>)
    ensures row.None? <==> |entry.1| == 0
    ensures row.Some? ==> IsRowOf(row.value, entry, classes, classToEnts)
  {
    var (ent, sents) := entry;
    var bits := ClassBits(ent, classes, classToEnts);
    if |sents| == 0 {
      return None;
    }
    var sent :| sent in sents;
    var tsvRow := [IntCell(ent)] + bits + [StrCell(Strip(sent))];
    assert tsvRow[|classes| + 1] == StrCell(Strip(sent));
    assert forall j :: 0 <= j < |classes| ==> tsvRow[j + 1] == bits[j];
    row := Some(tsvRow);
  }

  /**
   * One row per context entry, in context order; an entity without
   * sentences makes `list(sents)[0]` raise an `IndexError`.
   */
  method BuildRows(contexts: Contexts, classes: seq<(int, int)>, classToEnts: map<(int, int), set<int>>)
    returns (r: Result<seq<Row>>)
    ensures r.Success? <==> AllHaveSentences(contexts)
    ensures r.Failure? ==> r.error == IndexError
    ensures r.Success? ==> |r.value| == |contexts|
    ensures r.Success? ==> forall i :: 0 <= i < |contexts| ==> IsRowOf(r.value[i], contexts[i], classes, classToEnts)
  {
    var tsvRows: seq<Row> := [];
    for i := 0 to |contexts|
      invariant |tsvRows| == i
      invariant forall k :: 0 <= k < i ==> |contexts[k].1| != 0
      invariant forall k :: 0 <= k < i ==> IsRowOf(tsvRows[k], contexts[k], classes, classToEnts)
    {
      var row := EntityRow(contexts[i], classes, classToEnts);
      if row.None? {
        return Failure(IndexError);
      }
      tsvRows := tsvRows + [row.value];
    }
    r := Success(tsvRows);
  }

  // ---------------------------------------------------------------------
  // The whole dataset
  // ---------------------------------------------------------------------

  /** `row` is the sample row of `entry` for the classes over the split's triples. */
  predicate IsSampleRow(row: Row, entry: (int, set<string>), classes: seq<(int, int)>, triples: seq<Triple>)
  {
    && |row| == |classes| + 2
    && row[0] == IntCell(entry.0)
    && (forall j :: 0 <= j < |classes| ==>
          row[j + 1] == IntCell(if (entry.0, classes[j].0, classes[j].1) in triples then 1 else 0))
    && IsSentenceCell(row[|classes| + 1], entry.1)
  }

  /** One sample row per context entry, in context order. */
  predicate SampleRows(rows: seq<Row>, contexts: Contexts, classes: seq<(int, int)>, triples: seq<Triple>)
  {
    |rows| == |contexts| && forall i :: 0 <= i < |contexts| ==> IsSampleRow(rows[i], contexts[i], classes, triples)
  }

  /** The rows of one split, or the exception raised while building them. */
  method SplitRows(triples: seq<Triple>, contexts: Contexts, classes: seq<(int, int)>)
    returns (r: Result<seq<Row>>)
    ensures r.Success? <==> AllHaveSentences(contexts)
    ensures r.Failure? ==> r.error == IndexError
    ensures r.Success? ==> SampleRows(r.value, contexts, classes, triples)
  {
    var db := FillTriplesDb(triples);
    var classToEnts := ClassToEntities(db, classes);
    r := BuildRows(contexts, classes, classToEnts);
    if r.Success? {
      forall i | 0 <= i < |contexts|
        ensures IsSampleRow(r.value[i], contexts[i], classes, triples)
      {
        forall j | 0 <= j < |classes|
          ensures contexts[i].0 in EntsOf(classToEnts, classes[j])
              <==> (contexts[i].0, classes[j].0, classes[j].1) in triples
        {
          assert classes[j] in classes;
        }
      }
    }
  }

  datatype OwerRows = OwerRows(train: seq<Row>, valid: seq<Row>, test: seq<Row>)

  /**
   * `create_ower_dataset`: the rows of the train, valid and test splits.
   * The first split with an entity without sentences raises.
   */
  method CreateOwerDataset(
    trainTriples: seq<Triple>, validTriples: seq<Triple>, testTriples: seq<Triple>,
    trainContexts: Contexts, validContexts: Contexts, testContexts: Contexts,
    classes: seq<(int, int)>)
    returns (r: Result<OwerRows>)
    ensures r.Success? <==>
      AllHaveSentences(trainContexts) && AllHaveSentences(validContexts) && AllHaveSentences(testContexts)
    ensures r.Failure? ==> r.error == IndexError
    ensures r.Success? ==>
      && SampleRows(r.value.train, trainContexts, classes, trainTriples)
      && SampleRows(r.value.valid, validContexts, classes, validTriples)
      && SampleRows(r.value.test, testContexts, classes, testTriples)
  {
    var trainRows := SplitRows(trainTriples, trainContexts, classes);
    if trainRows.Failure? {
      return Failure(trainRows.error);
    }
    var validRows := SplitRows(validTriples, validContexts, classes);
    if validRows.Failure? {
      return Failure(validRows.error);
    }
    var testRows := SplitRows(testTriples, testContexts, classes);
    if testRows.Failure? {
      return Failure(testRows.error);
    }
    r := Success(OwerRows(trainRows.value, validRows.value, testRows.value));
  }
}
