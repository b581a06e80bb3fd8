/**
 * `create_texter_dataset`: builds the POWER samples for the text
 * classifier. The closed-world train and valid triples become the train
 * graph; the most frequent `(rel, tail)` classes of that graph become class
 * records with a label and a relative frequency; for each split, every
 * entity with enough sentences becomes one sample holding its multi-hot
 * class vector and a random choice of its sentences.
 *
 * Files, directories and logging are not modelled: the loaded triples,
 * labels and sentences are the inputs, the records and samples the outputs.
 * The random choice of sentences is a nondeterministic choice.
 */
module TexterDataset {
  import opened Seqs
  import opened Triples
  import opened Wrappers

  /** One `(rel, tail, supp)` row of the class ranking of the train graph. */
  datatype RelTailSupp = RelTailSupp(rel: int, tail: int, supp: int)

  /** One row of the classes file: the class, its frequency and its label. */
  datatype ClassRecord = ClassRecord(rel: int, tail: int, freq: real, lbl: string)

  /** One sample: entity, its label, its class vector and its chosen sentences. */
  datatype Sample = Sample(ent: int, lbl: string, classes: seq<int>, sents: seq<string>)

  /** `{ent: {sent}}` in the dict's iteration order. */
  type EntSents = seq<(int, set<string>)>

  // ---------------------------------------------------------------------
  // Triples of the splits
  // ---------------------------------------------------------------------

  /** The train graph: closed-world train triples, then closed-world valid triples. */
  function TrainTriples(cwTrain: seq<DbTriple>, cwValid: seq<DbTriple>): (train: seq<DbTriple>)
    ensures |train| == |cwTrain| + |cwValid|
    ensures train[..|cwTrain|] == cwTrain && train[|cwTrain|..] == cwValid
    ensures forall t :: t in train <==> t in cwTrain || t in cwValid
  {
    cwTrain + cwValid
  }

  /**
   * A class of the train graph has exactly the heads it has among the
   * closed-world train triples together with those among the closed-world
   * valid triples.
   */
  lemma TrainClassHeads(cwTrain: seq<DbTriple>, cwValid: seq<DbTriple>, rel: int, tail: int)
    ensures HeadsWithClass(TrainTriples(cwTrain, cwValid), rel, tail)
         == HeadsWithClass(cwTrain, rel, tail) + HeadsWithClass(cwValid, rel, tail)
  {
  }

  // ---------------------------------------------------------------------
  // Class records
  // ---------------------------------------------------------------------

  /** The record of one class, or the exception its construction raises. */
  function ClassRecordOf(s: RelTailSupp, entToLabel: map<int, string>, relToLabel: map<int, string>)
    : (r: Result<ClassRecord>)
    ensures r.Failure? ==> r.error == ZeroDivisionError || r.error.KeyError?
  {
    if |entToLabel| == 0 then Failure(ZeroDivisionError)
    else if s.rel !in relToLabel then Failure(KeyError(s.rel))
    else if s.tail !in entToLabel then Failure(KeyError(s.tail))
    else
      Success(ClassRecord(s.rel, s.tail, s.supp as real / |entToLabel| as real,
                          relToLabel[s.rel] + " " + entToLabel[s.tail]))
  }

  /**
   * The class records in ranking order. The comprehension stops at the first
   * row that raises: a `ZeroDivisionError` when there are no entity labels,
   * else a `KeyError` for the first missing relation or tail label.
   */
  function ClassRecords(supps: seq<RelTailSupp>, entToLabel: map<int, string>, relToLabel: map<int, string>)
    : (r: Result<seq<ClassRecord>>)
    ensures r.Success? <==>
      supps == [] || (|entToLabel| > 0 && forall i :: 0 <= i < |supps| ==>
                       supps[i].rel in relToLabel && supps[i].tail in entToLabel)
    ensures r.Success? ==> |r.value| == |supps| && forall i :: 0 <= i < |supps| ==>
      && r.value[i].rel == supps[i].rel
      && r.value[i].tail == supps[i].tail
      && r.value[i].freq * (|entToLabel| as real) == supps[i].supp as real
      && r.value[i].lbl == relToLabel[supps[i].rel] + " " + entToLabel[supps[i].tail]
    ensures r == Failure(ZeroDivisionError) <==> supps != [] && |entToLabel| == 0
    ensures r.Failure? ==> r.error == ZeroDivisionError || r.error.KeyError?
    ensures r.Failure? && r.error.KeyError? ==>
      exists i :: 0 <= i < |supps| && (forall j :: 0 <= j < i ==> ClassRecordOf(supps[j], entToLabel, relToLabel).Success?)
        && ((supps[i].rel !in relToLabel && r.error.key == supps[i].rel)
            || (supps[i].rel in relToLabel && supps[i].tail !in entToLabel && r.error.key == supps[i].tail))
  {
    var recordOf := (s: RelTailSupp) => ClassRecordOf(s, entToLabel, relToLabel);
    MapResultSpec(supps, recordOf);
    MapResult(supps, recordOf)
  }

  // ---------------------------------------------------------------------
  // Class entities
  // ---------------------------------------------------------------------

  /** The head set of every ranked class in the table `rows`. */
  function ClassEnts(rows: seq<DbTriple>, supps: seq<RelTailSupp>): seq<set<int>>
  {
    seq(|supps|, i requires 0 <= i < |supps| => HeadsWithClass(rows, supps[i].rel, supps[i].tail))
  }

  /**
   * For each class of the ranking, the heads of that class in one split's
   * triples table, in ranking order.
   */
  method QueryClassEnts(db: TriplesDb, supps: seq<RelTailSupp>) returns (classEnts: seq<set<int>>)
    ensures |classEnts| == |supps|
    ensures forall i, h :: 0 <= i < |supps| ==>
      (h in classEnts[i] <==> DbTriple(h, supps[i].rel, supps[i].tail) in db.rows)
    ensures classEnts == ClassEnts(db.rows, supps)
  {
    classEnts := [];
    for i := 0 to |supps|
      invariant |classEnts| == i
      invariant forall k :: 0 <= k < i ==> classEnts[k] == HeadsWithClass(db.rows, supps[k].rel, supps[k].tail)
    {
      var s := supps[i];
      var ents := db.SelectEntitiesWithClass((s.rel, s.tail));
      classEnts := classEnts + [ents];
    }
  }

  // ---------------------------------------------------------------------
  // Samples
  // ---------------------------------------------------------------------

  /** The entries that have at least `sentCount` sentences, in order. */
  function Kept(entToSents: EntSents, sentCount: int): seq<(int, set<string>)>
  {
    Filter(entToSents, (e: (int, set<string>)) => |e.1| >= sentCount)
  }

  /** A sequence without repeated elements. */
  predicate Distinct<T(==)>(s: seq<T>)
  {
    forall i, j :: 0 <= i < j < |s| ==> s[i] != s[j]
  }

  /** `s` is a legitimate sample for the entry `(ent, sents)`. */
  predicate IsSampleOf(s: Sample, entry: (int, set<string>), classEnts: seq<set<int>>,
                       entToLabel: map<int, string>, sentCount: int)
  {
    && s.ent == entry.0
    && entry.0 in entToLabel && s.lbl == entToLabel[entry.0]
    && |s.classes| == |classEnts|
    && (forall c :: 0 <= c < |classEnts| ==> s.classes[c] == if entry.0 in classEnts[c] then 1 else 0)
    && |s.sents| == sentCount && Distinct(s.sents)
    && (forall k :: 0 <= k < |s.sents| ==> s.sents[k] in entry.1)
  }

  /** One sample per kept entry, in the order of the entries. */
  predicate SamplesOf(samples: seq<Sample>, entToSents: EntSents, classEnts: seq<set<int>>,
                      entToLabel: map<int, string>, sentCount: int)
  {
    var kept := Kept(entToSents, sentCount);
    |samples| == |kept|
    && forall j :: 0 <= j < |samples| ==> IsSampleOf(samples[j], kept[j], classEnts, entToLabel, sentCount)
  }

  /**
   * The exception `get_samples` raises, if any: the first entry raises a
   * `ValueError` when `sentCount` is negative (no entry is skipped then and
   * `sample` refuses a negative size); otherwise the first entry without a
   * label raises a `KeyError`, skipped or not, since the skip message
   * names the label too.
   */
  function SamplesError(entToSents: EntSents, entToLabel: map<int, string>, sentCount: int): Option<Error>
  {
    if entToSents == [] then None
    else
      var (ent, sents) := entToSents[0];
      if |sents| < sentCount then
        if ent !in entToLabel then Some(KeyError(ent)) else SamplesError(entToSents[1..], entToLabel, sentCount)
      else if sentCount < 0 then Some(ValueError)
      else if ent !in entToLabel then Some(KeyError(ent))
      else SamplesError(entToSents[1..], entToLabel, sentCount)
  }

  /** When `get_samples` fails, and with which exception. */
  lemma {:induction false} SamplesErrorCases(entToSents: EntSents, entToLabel: map<int, string>, sentCount: int)
    ensures SamplesError(entToSents, entToLabel, sentCount).None? <==>
      (entToSents == [] || sentCount >= 0) && forall i :: 0 <= i < |entToSents| ==> entToSents[i].0 in entToLabel
    ensures SamplesError(entToSents, entToLabel, sentCount) == Some(ValueError) <==>
      entToSents != [] && sentCount < 0
    ensures SamplesError(entToSents, entToLabel, sentCount).Some? && sentCount >= 0 ==>
      exists i :: 0 <= i < |entToSents|
        && SamplesError(entToSents, entToLabel, sentCount) == Some(KeyError(entToSents[i].0))
        && entToSents[i].0 !in entToLabel
        && forall j :: 0 <= j < i ==> entToSents[j].0 in entToLabel
  {
    if entToSents != [] {
      var rest := entToSents[1..];
      SamplesErrorCases(rest, entToLabel, sentCount);
      assert forall i :: 1 <= i < |entToSents| ==> entToSents[i] == rest[i - 1];
      var err := SamplesError(entToSents, entToLabel, sentCount);
      if err.Some? && sentCount >= 0 && entToSents[0].0 in entToLabel {
        assert err == SamplesError(rest, entToLabel, sentCount);
        var i :| 0 <= i < |rest| && err == Some(KeyError(rest[i].0)) && rest[i].0 !in entToLabel
          && forall j :: 0 <= j < i ==> rest[j].0 in entToLabel;
        assert entToSents[i + 1] == rest[i];
      }
    }
  }

  lemma SamplesErrorUnfold(entToSents: EntSents, entToLabel: map<int, string>, sentCount: int, i: nat)
    requires i < |entToSents|
    ensures var (ent, sents) := entToSents[i];
      SamplesError(entToSents[i..], entToLabel, sentCount) ==
        if |sents| < sentCount then
          (if ent !in entToLabel then Some(KeyError(ent)) else SamplesError(entToSents[i + 1..], entToLabel, sentCount))
        else if sentCount < 0 then Some(ValueError)
        else if ent !in entToLabel then Some(KeyError(ent))
        else SamplesError(entToSents[i + 1..], entToLabel, sentCount)
  {
    assert entToSents[i..][0] == entToSents[i] && entToSents[i..][1..] == entToSents[i + 1..];
  }

  lemma KeptSnoc(entToSents: EntSents, sentCount: int, i: nat)
    requires i < |entToSents|
    ensures Kept(entToSents[..i + 1], sentCount)
         == Kept(entToSents[..i], sentCount) + (if |entToSents[i].1| >= sentCount then [entToSents[i]] else [])
  {
    assert entToSents[..i + 1] == entToSents[..i] + [entToSents[i]];
    FilterSnoc(entToSents[..i], entToSents[i], (e: (int, set<string>)) => |e.1| >= sentCount);
  }

  /** Exactly the entries with at least `sentCount` sentences are kept, in order. */
  lemma KeptMembers(entToSents: EntSents, sentCount: int)
    ensures forall e :: e in Kept(entToSents, sentCount) ==> e in entToSents && |e.1| >= sentCount
    ensures forall e :: e in entToSents && |e.1| >= sentCount ==> e in Kept(entToSents, sentCount)
    ensures |Kept(entToSents, sentCount)| <= |entToSents|
  {
    var p := (e: (int, set<string>)) => |e.1| >= sentCount;
    FilterMembers(entToSents, p);
    FilterLength(entToSents, p);
  }

  /** `ent_classes`: bit `c` is 1 iff the entity is a head of class `c`. */
  method EntClasses(ent: int, classEnts: seq<set<int>>) returns (entClasses: seq<int>)
    ensures |entClasses| == |classEnts|
    ensures forall c :: 0 <= c < |classEnts| ==> entClasses[c] == if ent in classEnts[c] then 1 else 0
  {
    entClasses := [];
    for c := 0 to |classEnts|
      invariant |entClasses| == c
      invariant forall k :: 0 <= k < c ==> entClasses[k] == if ent in classEnts[k] then 1 else 0
    {
      entClasses := entClasses + [if ent in classEnts[c] then 1 else 0];
    }
  }

  /** `random.sample(sents, k)`: `k` distinct sentences, chosen arbitrarily. */
  method SampleSents(sents: set<string>, k: nat) returns (chosen: seq<string>)
    requires k <= |sents|
    ensures |chosen| == k && Distinct(chosen)
    ensures forall i :: 0 <= i < |chosen| ==> chosen[i] in sents
  {
    chosen := [];
    var remaining := sents;
    for i := 0 to k
      invariant |chosen| == i && Distinct(chosen)
      invariant remaining <= sents && |remaining| == |sents| - i
      invariant forall j :: 0 <= j < i ==> chosen[j] in sents && chosen[j] !in remaining
    {
      var sent :| sent in remaining;
      chosen := chosen + [sent];
      remaining := remaining - {sent};
    }
  }

  /**
   * `get_samples`: one sample per entity with at least `sentCount`
   * sentences, in the order of `entToSents`, or the exception raised.
   */
  method GetSamples(entToSents: EntSents, classEnts: seq<set<int>>, entToLabel: map<int, string>, sentCount: int)
    returns (r: Result<seq<Sample>>)
    ensures r.Failure? <==> SamplesError(entToSents, entToLabel, sentCount).Some?
    ensures r.Failure? ==> Some(r.error) == SamplesError(entToSents, entToLabel, sentCount)
    ensures r.Success? ==> SamplesOf(r.value, entToSents, classEnts, entToLabel, sentCount)
  {
    var samples: seq<Sample> := [];
    for i := 0 to |entToSents|
      invariant SamplesError(entToSents[i..], entToLabel, sentCount) == SamplesError(entToSents, entToLabel, sentCount)
      invariant SamplesOf(samples, entToSents[..i], classEnts, entToLabel, sentCount)
    {
      var (ent, sents) := entToSents[i];
      SamplesErrorUnfold(entToSents, entToLabel, sentCount, i);
      KeptSnoc(entToSents, sentCount, i);

      var entClasses := EntClasses(ent, classEnts);

      if |sents| < sentCount {
        if ent !in entToLabel {
          r := Failure(KeyError(ent));
          return;
        }
        continue;
      }

      if sentCount < 0 {
        r := Failure(ValueError);
        return;
      }
      var someSents := SampleSents(sents, sentCount);

      if ent !in entToLabel {
        r := Failure(KeyError(ent));
        return;
      }
      samples := samples + [Sample(ent, entToLabel[ent], entClasses, someSents)];
    }
    assert entToSents[|entToSents|..] == [];
    assert entToSents[..|entToSents|] == entToSents;
    r := Success(samples);
  }

  // ---------------------------------------------------------------------
  // The whole dataset
  // ---------------------------------------------------------------------

  /** `create_triples_table` followed by `insert_triples`. */
  method LoadTriplesDb(triples: seq<DbTriple>) returns (db: TriplesDb)
    ensures fresh(db) && db.rows == triples
  {
    db := new TriplesDb();
    db.InsertTriples(triples);
  }

  datatype TexterSamples = TexterSamples(
    classes: seq<ClassRecord>, train: seq<Sample>, valid: seq<Sample>, test: seq<Sample>)

  /**
   * `create_texter_dataset`: fills one triples table per split (the train
   * table with the closed-world train and valid triples, the others with the
   * open-world valid and test triples), builds the class records, queries
   * the class entities in each table and draws the samples of each split.
   * The first exception raised, in that order, is the result.
   */
  method CreateTexterDataset(
    cwTrain: seq<DbTriple>, cwValid: seq<DbTriple>, owValid: seq<DbTriple>, owTest: seq<DbTriple>,
    supps: seq<RelTailSupp>, entToLabel: map<int, string>, relToLabel: map<int, string>,
    trainEntToSents: EntSents, validEntToSents: EntSents, testEntToSents: EntSents, sentCount: int)
    returns (r: Result<TexterSamples>)
    ensures ClassRecords(supps, entToLabel, relToLabel).Failure? ==>
      r == Failure(ClassRecords(supps, entToLabel, relToLabel).error)
    ensures ClassRecords(supps, entToLabel, relToLabel).Success? && r.Failure? ==>
      Some(r.error) ==
        if SamplesError(trainEntToSents, entToLabel, sentCount).Some? then SamplesError(trainEntToSents, entToLabel, sentCount)
        else if SamplesError(validEntToSents, entToLabel, sentCount).Some? then SamplesError(validEntToSents, entToLabel, sentCount)
        else SamplesError(testEntToSents, entToLabel, sentCount)
    ensures r.Success? <==>
      && ClassRecords(supps, entToLabel, relToLabel).Success?
      && SamplesError(trainEntToSents, entToLabel, sentCount).None?
      && SamplesError(validEntToSents, entToLabel, sentCount).None?
      && SamplesError(testEntToSents, entToLabel, sentCount).None?
    ensures r.Success? ==>
      && r.value.classes == ClassRecords(supps, entToLabel, relToLabel).value
      && SamplesOf(r.value.train, trainEntToSents, ClassEnts(TrainTriples(cwTrain, cwValid), supps), entToLabel, sentCount)
      && SamplesOf(r.value.valid, validEntToSents, ClassEnts(owValid, supps), entToLabel, sentCount)
      && SamplesOf(r.value.test, testEntToSents, ClassEnts(owTest, supps), entToLabel, sentCount)
  {
    var trainTriplesDb := LoadTriplesDb(TrainTriples(cwTrain, cwValid));
    var validTriplesDb := LoadTriplesDb(owValid);
    var testTriplesDb := LoadTriplesDb(owTest);

    var classes := ClassRecords(supps, entToLabel, relToLabel);
    if classes.Failure? {
      return Failure(classes.error);
    }

    var trainClassEnts := QueryClassEnts(trainTriplesDb, supps);
    var validClassEnts := QueryClassEnts(validTriplesDb, supps);
    var testClassEnts := QueryClassEnts(testTriplesDb, supps);

    var trainSamples := GetSamples(trainEntToSents, trainClassEnts, entToLabel, sentCount);
    if trainSamples.Failure? {
      return Failure(trainSamples.error);
    }
    var validSamples := GetSamples(validEntToSents, validClassEnts, entToLabel, sentCount);
    if validSamples.Failure? {
      return Failure(validSamples.error);
    }
    var testSamples := GetSamples(testEntToSents, testClassEnts, entToLabel, sentCount);
    if testSamples.Failure? {
      return Failure(testSamples.error);
    }

    r := Success(TexterSamples(classes.value, trainSamples.value, validSamples.value, testSamples.value));
  }
}
