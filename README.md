# thesis-tools core, modelled in Dafny

This project models the data-processing core of the thesis-tools repository.
The repository builds datasets for open-world knowledge-graph completion and
predicts facts from a rule engine and a text classifier. The Dafny modules
follow the repository's files:

- `Triples` (`triples_db.dfy`): the SQLite triples table as a class holding the
  sequence of its `(head, rel, tail)` rows. `insert_triples` appends rows and
  `select_entities_with_class` returns the set of heads of one class, where a
  class is a `(rel, tail)` pair.
- `Ruler` (`ruler.dfy`): the rule pass of `train_ruler`.
  - Mined rules with confidence above 0.8 are kept and ranked by descending
    confidence with a stable sort, and those with a one-atom body are kept.
  - At most the first five of them are grounded. A body `(X, rel, t)` or
    `(h, rel, X)` binds its variable through one of two graph queries, and the
    head, of one of the same two shapes, is instantiated once per binding.
  - Each predicted fact appends `(rel, tail)` to the list of its head entity.
  - Every other shape of body or head increments the `unsupported_rules`
    counter.
  - The loop is proved against a reference function `Run` and a
    second, rule-by-rule reference (`UnsupportedCount`, `PredictedPairs`).
- `Aggregator` (`aggregator.dfy`): `Aggregator.predict`. The texter's and the
  ruler's predictions are indexed by fact, where a later prediction of the
  same fact wins. Every fact of either side gives one fused prediction: the
  larger of the two confidences (a missing side counts as 0), the texter's
  sentences and the ruler's rules. The fused predictions are ranked by
  descending confidence.
- `TexterDataset` (`texter_dataset.dfy`): `create_texter_dataset`.
  - The train graph is the closed-world train triples followed by the
    closed-world valid triples.
  - Class records carry the label `"<rel label> <tail label>"` and the
    frequency `supp / len(ent_to_label)`.
  - Each split has one head set per class.
  - `get_samples` emits one sample per entity with at least `sent_count`
    sentences. A sample holds the entity's multi-hot class vector and
    `sent_count` distinct sentences of that entity, chosen arbitrarily.
  - The exceptions raised on the modelled inputs are modelled:
    `ZeroDivisionError`, a `KeyError` for a missing label, and a `ValueError`
    for a negative sample size. The `TypeError` of `random.sample` on a set
    under Python 3.11 is not (see "Left out").
- `OwerDataset` (`ower_dataset.dfy`): `create_ower_dataset`.
  - Triples are inserted one by one and each class is queried into a
    `class_to_entities` map.
  - Each context entity gives one row: the entity, one 0/1 column per class,
    and one of its sentences passed through `str.strip`.
  - An entity without sentences makes `list(sents)[0]` raise `IndexError`.
- `PyStrings` (`strings.dfy`): Python's `str.isspace`, the whitespace `int` skips, and `str.strip()`.
- `DataModule` (`data_module.dfy`): `generate_batch`.
  - It returns the labels and the concatenated token ids.
  - Its offsets start at 0 and each adds the length of the previous text, that
    is, they are the exclusive prefix sums of the token counts.
  - An empty batch makes `torch.cat` raise.
- `FactsTsv` (`facts_tsv.dfy`): `FactsTsv.save` and `FactsTsv.load`, on rows of
  fields and on the text of the file.
  - `save` writes a header and one six-field row per fact, with `str` for the
    ids and minimal quoting.
  - `load` reads in universal-newline text mode, skips the header and parses
    the ids with `int`.
  - On rows, `load` after `save` gives the facts back whatever the labels
    hold. On text it does so when no label holds a tab, a quote or a line
    break.
- `Sorting`, `Seqs`, `Wrappers`: a stable descending insertion sort by a real
  key (Python's `list.sort(key=..., reverse=True)`), filtering (list
  comprehensions with a condition), and the `Option`/`Result` types. The
  `Error` type names the Python exception raised.

Python's dicts with insertion order are sequences of key/value pairs. Python's
sets keep their set type wherever the code does not depend on their order.
Where it does (the union walked in `Aggregator.predict`, `list(sents)[0]`,
`random.sample`), the model picks an arbitrary element, so every order is
covered. Integers are unbounded, as Python's are. Floating-point confidences
and frequencies are `real`.

Two places where the model follows the code rather than the intent its
names suggest:

- A rule's head and body are meant to share their variable. The code
  only checks each atom's shape, so `(X, r, t) <= (Y, r2, t2)` is grounded
  like `(X, r, t) <= (X, r2, t2)`; the model does the same.
- `create_ower_dataset` imports its table helpers (`create_triples_table`,
  `insert_triple`, `select_entities_with_class`) from a `dao.triples_db`
  module that is not part of this model. That module is assumed to behave
  like the `TriplesDb` class of `src/dao/ower/triples_db.py`, which models
  it: `create_triples_table` is the constructor,
  `select_entities_with_class` is the class query, and `insert_triple(t)`,
  which takes one triple, is modelled as `InsertTriples([t])` (see
  `OwerDataset.FillTriplesDb`).

## Model

| member | source | states |
|---|---|---|
| `Triples.HeadsWithClass` | src/dao/ower/triples_db.py:103-116 | an entity is a head of class `(rel, tail)` exactly when a row `(h, rel, tail)` is stored |
| `Triples.HeadsWithClassBound` | src/dao/ower/triples_db.py:116 | the result is a set: duplicate rows give one head, so there are never more heads than rows |
| `Triples.HeadsWithClassMonotone` | src/dao/ower/triples_db.py:94-116 | appending rows never removes a head from any class |
| `Triples.TriplesDb.constructor` | src/dao/ower/triples_db.py:62-92 | a freshly created table holds no rows |
| `Triples.TriplesDb.InsertTriples` | src/dao/ower/triples_db.py:94-101 | the table becomes the old rows followed by the new ones, in order, and every class keeps its old heads |
| `Triples.TriplesDb.SelectEntitiesWithClass` | src/dao/ower/triples_db.py:103-116 | returns exactly the heads `h` with `(h, rel, tail)` stored, and no more heads than rows |
| `Sorting.SortDescPermutes` | src/power/aggregator.py:41 | sorting by descending key is a permutation of its input |
| `Sorting.SortDescSorted` | src/power/aggregator.py:41 | the sorted list has non-increasing keys |
| `Sorting.SortDescStable` | src/train_ruler.py:98 | elements with equal keys keep their input order, as Python's stable sort does |
| `Ruler.GoodRulesMembers` | src/train_ruler.py:97-98 | exactly the rules with confidence above 0.8 are kept, each as often as in the input |
| `Ruler.GoodRulesSorted` | src/train_ruler.py:98 | the kept rules are ranked by non-increasing confidence |
| `Ruler.GoodRulesStable` | src/train_ruler.py:97-98 | among kept rules of one confidence, the input order is kept; rules of confidence at most 0.8 are all gone |
| `Ruler.GroundedRules` | src/train_ruler.py:97-135 | the grounded rules are the first `min(5, n)` of the ranked rules with a one-atom body: ranked, confident, taken from the input |
| `Ruler.QueryByRelTailCounts` | src/train_ruler.py:107-116 | the query by `(rel, tail)` returns each head once per stored edge `(head, rel, tail)` |
| `Ruler.QueryByHeadRelCounts` | src/train_ruler.py:118-127 | the query by `(head, rel)` returns each tail once per stored edge `(head, rel, tail)` |
| `Ruler.QueryByRelTailMatchesStore` | src/train_ruler.py:107-116 | the graph query by `(rel, tail)` and the triples table's class query find the same entities |
| `Ruler.BindingsCounts` | src/train_ruler.py:144-152 | a supported body binds `e` once per stored edge that matches the body with `e` put for its variable |
| `Ruler.GroundRuleShapes` | src/train_ruler.py:144-179 | a rule is skipped for its body exactly when the body has neither shape, and for its head exactly when the body has a shape and the head has neither |
| `Ruler.GroundingSound` | src/train_ruler.py:144-174 | every predicted fact is the head under a binding whose body edge is stored |
| `Ruler.GroundingComplete` | src/train_ruler.py:144-174 | every stored edge matching the body yields the head under that binding |
| `Ruler.GroundingCount` | src/train_ruler.py:168-174 | one predicted fact per binding; no binding, no fact |
| `Ruler.AddFactsLookup` | src/train_ruler.py:181-182 | after appending facts, each entity's list is its old list followed by the pairs of its own facts, in order; other entities keep their lists |
| `Ruler.AddFactsKeys` | src/train_ruler.py:181-182 | the entities with predictions are the old ones plus the heads of the appended facts |
| `Ruler.AddFactsNonEmpty` | src/train_ruler.py:181-182 | appending never leaves an entity with an empty list |
| `Ruler.StepEffect` | src/train_ruler.py:144-182 | one rule adds its pairs to every entity's list and bumps the counter exactly when it cannot be grounded |
| `Ruler.UnsupportedCountBound` | src/train_ruler.py:130-179 | no more rules are counted unsupported than were processed |
| `Ruler.RunMatchesReference` | src/train_ruler.py:130-185 | the pass counts exactly the rules that cannot be grounded and gathers for every entity the reference list of its predicted pairs, rule by rule, fact by fact |
| `Ruler.MatchBody` | src/train_ruler.py:144-157 | a body of shape `(Var, rel, Ent)` or `(Ent, rel, Var)` gives the bindings of the matching query; any other shape gives none |
| `Ruler.InstantiateHead` | src/train_ruler.py:168-179 | a head of one of the two shapes is instantiated once per binding, in order; any other shape gives none |
| `Ruler.ProcessRule` | src/train_ruler.py:137-185 | one turn of the loop is one step of the reference pass |
| `Ruler.AppendPredictions` | src/train_ruler.py:181-182 | the inner loop appends the facts' pairs as the reference `AddFacts` does |
| `Ruler.TrainRuler` | src/train_ruler.py:94-185 | predictions and counter are the reference pass over the chosen rules; the counter counts exactly the ungroundable rules and is at most 5; every entity's list is its predicted pairs and never empty |
| `Ruler.ExampleQueryByRelTail` | src/train_ruler.py:107-116 | on a three-edge graph the query lists the two matching heads in edge order |
| `Ruler.ExampleGroundVarEnt` | src/train_ruler.py:144-174 | `(X, 7, 2) <= (X, 5, 9)` grounds to one fact per matching edge |
| `Ruler.ExampleUnsupportedBody` | src/train_ruler.py:154-157 | a body without a variable only bumps the counter |
| `Aggregator.Index` | src/power/aggregator.py:25-26 | the index's facts are the facts of the list, each mapped to one of its predictions |
| `Aggregator.IndexLaterWins` | src/power/aggregator.py:25-26 | a fact predicted twice is indexed to its last prediction |
| `Aggregator.Fuse` | src/power/aggregator.py:31-39 | the fused confidence is the larger of the two sides' confidences, a missing side counting as 0; sentences come from the texter, rules from the ruler, empty when absent |
| `Aggregator.FuseFromInputs` | src/power/aggregator.py:25-37 | a fact on both sides fuses the last texter and the last ruler prediction of it: their max confidence, texter sentences, ruler rules |
| `Aggregator.FuseTexterOnly` | src/power/aggregator.py:31-37 | a fact only the texter predicts keeps its sentences, gets no rules, and its confidence floored at 0 |
| `Aggregator.FuseRulerOnly` | src/power/aggregator.py:31-37 | a fact only the ruler predicts keeps its rules, gets no sentences, and its confidence floored at 0 |
| `Aggregator.FuseEach` | src/power/aggregator.py:28-39 | the loop makes one fused prediction per fact of the union, each fact once |
| `Aggregator.Predict` | src/power/aggregator.py:19-43 | the output's facts are the union of both sides' facts, each exactly once, fused, ranked by non-increasing confidence; no inputs give no output |
| `TexterDataset.TrainTriples` | src/create_texter_dataset.py:120-122 | the train graph is the closed-world train triples followed by the closed-world valid triples, so a triple is in it exactly when it is in either |
| `TexterDataset.TrainClassHeads` | src/create_texter_dataset.py:120-132 | a class of the train table has exactly the union of its heads among the closed-world train and the closed-world valid triples |
| `TexterDataset.ClassRecords` | src/create_texter_dataset.py:153-155 | one record per ranked class, in order, with its `(rel, tail)`, frequency `supp / ent_count` and label `rel label + " " + tail label`; fails with `ZeroDivisionError` exactly when there are classes but no entity labels, and otherwise only with a `KeyError` naming the first missing relation or tail label |
| `TexterDataset.QueryClassEnts` | src/create_texter_dataset.py:165-179 | entry `i` is the set of heads of the `i`-th ranked class in the split's table |
| `TexterDataset.SamplesErrorCases` | src/create_texter_dataset.py:200-212 | `get_samples` fails exactly when `sent_count` is negative (with `ValueError`) or some entity has no label (with `KeyError` for the first) |
| `TexterDataset.KeptMembers` | src/create_texter_dataset.py:206-208 | exactly the entities with at least `sent_count` sentences are kept |
| `TexterDataset.EntClasses` | src/create_texter_dataset.py:202-204 | bit `c` of the class vector is 1 iff the entity is a head of class `c`, and the vector has one bit per class |
| `TexterDataset.SampleSents` | src/create_texter_dataset.py:210 | `sent_count` distinct sentences, all of the entity's |
| `TexterDataset.GetSamples` | src/create_texter_dataset.py:191-214 | one sample per kept entity, in dict order, with its label, class vector and sentences; or the exception the reference names |
| `TexterDataset.LoadTriplesDb` | src/create_texter_dataset.py:130-140 | a new table holding the split's triples |
| `TexterDataset.CreateTexterDataset` | src/create_texter_dataset.py:120-218 | the class records and the samples of the three splits over their own tables, or the first exception raised |
| `OwerDataset.ToDbTriples` | src/cmd/create_ower_dataset.py:139-140 | one row per triple, and a row is stored exactly when its triple is in the file |
| `OwerDataset.FillTriplesDb` | src/cmd/create_ower_dataset.py:137-150 | inserting the triples one by one leaves them in the table in file order |
| `OwerDataset.ClassToEntities` | src/cmd/create_ower_dataset.py:176-190 | every listed class is a key, and an entity is in a class's set exactly when the table stores it with that class |
| `OwerDataset.ClassBits` | src/cmd/create_ower_dataset.py:205-206 | column `j` is 1 iff the entity is in the set of class `j`, one column per class |
| `OwerDataset.EntityRow` | src/cmd/create_ower_dataset.py:204-207 | the row is the entity, its class columns and one of its sentences stripped; an entity without sentences gives none |
| `OwerDataset.BuildRows` | src/cmd/create_ower_dataset.py:199-209 | one row per context entry, in order, each of the entry; `IndexError` exactly when an entry has no sentences |
| `OwerDataset.SplitRows` | src/cmd/create_ower_dataset.py:137-209 | the rows of one split, with class columns read off the split's triples directly; `IndexError` exactly when an entity has no sentences |
| `OwerDataset.CreateOwerDataset` | src/cmd/create_ower_dataset.py:137-229 | the rows of the three splits, or `IndexError` exactly when some split has an entity without sentences |
| `PyStrings.StripSlice` | src/cmd/create_ower_dataset.py:207 | `strip()` leaves the slice between the leading and the trailing whitespace, which neither starts nor ends with whitespace |
| `PyStrings.StripIdempotent` | src/cmd/create_ower_dataset.py:207 | stripping twice cuts nothing more |
| `PyStrings.StripUnchanged` | src/cmd/create_ower_dataset.py:207 | a string without leading and trailing whitespace is left as it is |
| `DataModule.GenerateBatch` | src/snippets/torchtext_classifier_lightning/data_module.py:60-77 | fails exactly on an empty batch; otherwise labels in order, offsets the exclusive prefix sums of the token counts, tokens as long as all texts together, and each text at its offset |
| `DataModule.PrefixSumsSteps` | src/snippets/torchtext_classifier_lightning/data_module.py:72-74 | exclusive prefix sums start at 0, step by one count and never decrease |
| `DataModule.BatchOffsets` | src/snippets/torchtext_classifier_lightning/data_module.py:72-74 | a non-empty batch has one offset per entry, the first 0, each next larger by one text's length, non-decreasing |
| `DataModule.OffsetsArePrefixSums` | src/snippets/torchtext_classifier_lightning/data_module.py:74 | `cumsum([0] + counts[:-1])` is the exclusive prefix sums of the counts |
| `DataModule.ConcatLength` | src/snippets/torchtext_classifier_lightning/data_module.py:75 | the concatenation is as long as all token lists together |
| `DataModule.ConcatSlices` | src/snippets/torchtext_classifier_lightning/data_module.py:72-75 | each token list sits in the concatenation at the sum of the lengths before it |
| `DataModule.ExampleBatch` | src/snippets/torchtext_classifier_lightning/data_module.py:60-77 | `[(3, [10, 11]), (4, [12])]` packs to tokens `[10, 11, 12]`, offsets `[0, 2]`, labels `[3, 4]` |
| `FactsTsv.FactRow` | src/data/power/split/facts_tsv.py:49-50 | a fact is written as a six-field row |
| `FactsTsv.SaveRows` | src/data/power/split/facts_tsv.py:47-50 | the header row, then one row per fact, in list order |
| `FactsTsv.IntRoundTrip` | src/data/power/split/facts_tsv.py:50-57 | `int(str(n)) == n` for every integer |
| `FactsTsv.ExampleParseIntSpaces` | src/data/power/split/facts_tsv.py:57 | `int` skips surrounding no-break spaces and line breaks, but raises on a leading or trailing U+001C to U+001F, although `isspace` holds for them |
| `FactsTsv.RowFact` | src/data/power/split/facts_tsv.py:57-58 | a row gives a fact exactly when it has six fields and three ids `int` accepts, with the fields in `__iter__` order; else `ValueError` |
| `FactsTsv.LoadFactsSpec` | src/data/power/split/facts_tsv.py:57-58 | `load` succeeds exactly when every row does, giving one fact per row in order; otherwise `ValueError` |
| `FactsTsv.LoadRows` | src/data/power/split/facts_tsv.py:52-60 | no rows at all raise `StopIteration`; otherwise the header row is skipped and loading succeeds exactly when every further row parses, giving one fact per further row in order, and raises `ValueError` otherwise |
| `FactsTsv.RowFactOfFactRow` | src/data/power/split/facts_tsv.py:35-58 | a written fact row parses back to the fact |
| `FactsTsv.LoadSaveRows` | src/data/power/split/facts_tsv.py:44-60 | on rows, `load` after `save` gives back the facts, whatever their labels |
| `FactsTsv.Save` | src/data/power/split/facts_tsv.py:44-50 | the written text is the header line followed by one line per fact |
| `FactsTsv.ReadWrittenRows` | src/data/power/split/facts_tsv.py:45-54 | the reader yields exactly the written rows when no field holds a tab, a quote or a line break |
| `FactsTsv.SaveLoadRoundTrip` | src/data/power/split/facts_tsv.py:44-60 | for facts whose labels hold no tab, quote or line break, `load` of the saved file gives back the same facts |
| `FactsTsv.LoadEmptyText` | src/data/power/split/facts_tsv.py:55 | an empty file has no header, and `next` raises `StopIteration` |

## Left out

- Neo4j, SQLite, files and directories are not modelled. The graph and the tables are in-memory sequences of triples, and file contents are strings or rows.
- Command-line parsing, `check()`/`exit()`, logging and `pprint` are not modelled.
- `Rule.from_anyburl`, `Fact.from_neo4j`, the `Texter` and `Ruler` predictors and the `read_*`/`write_*` helpers are not part of this model. Their outputs are inputs here.
- `select_top_rel_tails` is not part of this model. Its ranked `(rel, tail, supp)` rows are an input.
- `select_heads_with_rel_tail` of the texter's table class is not part of this model. It is modelled as the table's set of heads of the class.
- Ruler.TrainRuler: entities are ids only. The `KeyError` that `ent_to_lbl[head.id]` raises for an entity without a label is not modelled, nor is the label itself.
- Ruler.TrainRuler: the two queries return edges in the graph's sequence order. Neo4j's own result order is not modelled.
- Ruler.GoodRulesSorted: `good_rules.sort` sorts in place; the model sorts a value, and the same holds for `preds.sort` in `Aggregator.Predict`.
- Aggregator.Predict: the union of facts is walked in an arbitrary order, as Python's set order is unspecified. So among equal confidences the output order is only "some order of the fused predictions", not one fixed order.
- TexterDataset.ClassRecords: `supp / ent_count` is an exact real, not an IEEE double.
- TexterDataset.SampleSents: `random.sample` is an arbitrary choice of distinct sentences. The seed, the distribution, and the `TypeError` Python 3.11 raises for sampling from a set are not modelled.
- OwerDataset.EntityRow: `list(sents)[0]` is an arbitrary sentence of the set, as set order is unspecified.
- FactsTsv.ReadWrittenRows: the reader treats a quote character as an ordinary character. So quoted fields, which the writer produces for labels holding a tab, a quote or a line break, are not read back; the text round trip is stated for labels without them.
- FactsTsv.RowFact: `int` is modelled for ASCII digits with single underscores, an optional sign and surrounding whitespace, where whitespace is what `int` skips: the `isspace` characters except U+001C to U+001F. Non-ASCII decimal digits, which Python also accepts, are not modelled.
- FactsTsv.ReadWrittenRows: Python's `csv` reader raises `_csv.Error` for a field longer than `csv.field_size_limit()`, 131072 characters by default. The model's reader has no such limit. So this lemma and FactsTsv.SaveLoadRoundTrip also cover labels longer than 131072 characters, for which `load` raises instead of returning the facts.
- FactsTsv.Save: the writer's `\r\n` line terminator and minimal quoting are modelled. Other dialect settings and the `encoding` are not.
- FactsTsv.IntRoundTrip: CPython 3.11 and later refuse by default to convert integers of more than 4300 digits with `str` and `int` (a `ValueError`). Ids are far smaller, and this limit is not modelled.
- The data module's `prepare_data`, its dataset download, its `random_split` and its shuffling data loaders are not modelled. Nor are the classifier modules and the training script; they are floating-point numerics over PyTorch.
- Tensors are sequences of ints. Torch's int64 overflow is not modelled.
