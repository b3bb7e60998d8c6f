/**
 * The class ContentBasedFiltering of Doyoung/cbfilter.py: the titles table,
 * the romaji names and popular titles read from it, the similarity table the
 * object builds, the "similar titles" query and the two offline evaluations.
 * The titles table is a constructor parameter instead of a CSV file.  The
 * evaluations loop over the test users as the source does and are proved
 * equal to the functions of Evaluation.
 */
module CbFilter {
  import opened Wrappers
  import opened Seqs
  import opened Similarity
  import opened Ranking
  import opened Evaluation

  // ---------------------------------------------------------------------
  // The titles table
  // ---------------------------------------------------------------------

  /** One row of the titles table, through the three columns the class reads. */
  datatype TitleRecord = TitleRecord(titleId: int, romaji: string, popularity: int)

  function RecordId(t: TitleRecord): int { t.titleId }

  function TitleIds(titles: seq<TitleRecord>): seq<int> { Each(titles, RecordId) }

  /** The popularity a title must exceed to count as popular. */
  const PopularityCut := 10000

  /** popular_titles: the ids of the popular titles, in table order. */
  function Popular(titles: seq<TitleRecord>): seq<int>
  {
    Each(Filter(titles, (t: TitleRecord) => t.popularity > PopularityCut), RecordId)
  }

  /** An id is popular exactly when some row of the table with that id has popularity above the cut. */
  lemma PopularIff(titles: seq<TitleRecord>, id: int)
    ensures id in Popular(titles) <==> exists t :: t in titles && t.titleId == id && t.popularity > PopularityCut
    ensures |Popular(titles)| <= |titles|
  {
    var pop := Filter(titles, (t: TitleRecord) => t.popularity > PopularityCut);
    if id in Popular(titles) {
      var k :| 0 <= k < |pop| && Each(pop, RecordId)[k] == id;
      assert pop[k] in pop;
    }
    if t :| t in titles && t.titleId == id && t.popularity > PopularityCut {
      assert t in pop;
      var k :| 0 <= k < |pop| && pop[k] == t;
      assert Each(pop, RecordId)[k] == id;
    }
  }

  /** title_romaji_map: title id to romaji name; when an id is repeated, the later row wins. */
  function RomajiMap(titles: seq<TitleRecord>): map<int, string>
  {
    if titles == [] then map[]
    else
      var t := titles[|titles| - 1];
      RomajiMap(titles[..|titles| - 1])[t.titleId := t.romaji]
  }

  /** The map has exactly the ids of the table, and each maps to the name on its last row. */
  lemma {:induction false} RomajiMapLookup(titles: seq<TitleRecord>, id: int)
    ensures id in RomajiMap(titles) <==> id in TitleIds(titles)
    ensures id in RomajiMap(titles) ==>
      exists k :: 0 <= k < |titles| && titles[k].titleId == id && RomajiMap(titles)[id] == titles[k].romaji
        && forall j :: k < j < |titles| ==> titles[j].titleId != id
  {
    if titles != [] {
      var init, t := titles[..|titles| - 1], titles[|titles| - 1];
      RomajiMapLookup(init, id);
      assert TitleIds(titles) == TitleIds(init) + [t.titleId] by {
        assert titles == init + [t];
        EachAppend(init, [t], RecordId);
      }
      if id == t.titleId {
        assert titles[|titles| - 1].titleId == id;
      } else if id in RomajiMap(titles) {
        var k :| 0 <= k < |init| && init[k].titleId == id && RomajiMap(init)[id] == init[k].romaji
          && forall j :: k < j < |init| ==> init[j].titleId != id;
        assert titles[k] == init[k];
        assert forall j :: k < j < |titles| ==> titles[j].titleId != id by {
          forall j | k < j < |titles| ensures titles[j].titleId != id {
            if j < |init| {
              assert titles[j] == init[j];
            }
          }
        }
      }
    }
  }

  // ---------------------------------------------------------------------
  // create_sim_mat
  // ---------------------------------------------------------------------

  /** One row of the title-feature data frame: its index label and its feature values. */
  datatype FeatureRow = FeatureRow(id: int, features: Vector)

  function FeatureId(r: FeatureRow): int { r.id }
  function FeaturesOf(r: FeatureRow): Vector { r.features }

  /** The rows of one data frame all have one value per column. */
  predicate SameWidth(df: seq<FeatureRow>)
  {
    forall r, s :: r in df && s in df ==> |r.features| == |s.features|
  }

  /** df.loc[index.isin(titles_df.title_id)]: the feature rows of known titles, in order. */
  function KnownRows(df: seq<FeatureRow>, ids: seq<int>): seq<FeatureRow>
  {
    Filter(df, (r: FeatureRow) => r.id in ids)
  }

  /** The table keeps a feature row exactly when its id is a known title, and keeps it as often as the frame has it. */
  lemma KnownRowsIff(df: seq<FeatureRow>, ids: seq<int>, r: FeatureRow)
    ensures r in KnownRows(df, ids) <==> r in df && r.id in ids
    ensures multiset(KnownRows(df, ids))[r] == if r.id in ids then multiset(df)[r] else 0
  {
    FilterCount(df, (x: FeatureRow) => x.id in ids, r);
  }

  lemma KnownRectangular(df: seq<FeatureRow>, ids: seq<int>)
    requires SameWidth(df)
    ensures Rectangular(Each(KnownRows(df, ids), FeaturesOf))
  {
    var known := KnownRows(df, ids);
    forall i | 0 <= i < |known| ensures |known[i].features| == |known[0].features| {
      assert known[i] in known && known[0] in known;
    }
  }

  /** scikit-learn refuses a feature table with no row or with no column. */
  predicate NoFeatures(known: seq<FeatureRow>)
  {
    known == [] || |known[0].features| == 0
  }

  /** The table of create_sim_mat for a known metric. */
  function TableOf(known: seq<FeatureRow>, metric: Metric, sqrt: real -> real): (m: SimMatrix)
    requires Rectangular(Each(known, FeaturesOf))
    ensures Square(m) && m.ids == Each(known, FeatureId)
  {
    Build(Each(known, FeatureId), Each(known, FeaturesOf), metric, sqrt)
  }

  // ---------------------------------------------------------------------
  // check_sanity
  // ---------------------------------------------------------------------

  /** A row or column label of the query's answer: a title id, a romaji name, or NaN for an id with no name. */
  datatype Label = Id(id: int) | Romaji(name: string) | NoLabel

  datatype Entry = Entry(title: Label, value: real)

  /** The one-column frame check_sanity returns: its column header and its rows. */
  datatype SimRank = SimRank(header: Label, entries: seq<Entry>)

  /** The first of xs that is not among ids, as selecting those columns reports it. */
  function FirstMissing(xs: seq<int>, ids: seq<int>): (r: Option<int>)
    ensures r.None? <==> AllIn(xs, ids)
    ensures r.Some? ==> r.value in xs && r.value !in ids
  {
    if xs == [] then None
    else if xs[0] !in ids then
      var x := xs[0];
      assert x in xs && x !in ids;
      Some(x)
    else
      var r := FirstMissing(xs[1..], ids);
      assert forall x :: x in xs ==> x == xs[0] || x in xs[1..];
      r
  }

  /** The row of title id restricted to the columns cols, in the order of cols. */
  function ColumnCells(m: SimMatrix, id: int, cols: seq<int>): (cells: seq<Cell>)
    requires Square(m) && id in m.ids && AllIn(cols, m.ids)
    ensures |cells| == |cols|
    ensures forall k :: 0 <= k < |cols| ==> cells[k] == Cell(cols[k], Sim(m, id, cols[k]))
    ensures forall c :: c in cells ==> c.id in cols
  {
    seq(|cols|, k requires 0 <= k < |cols| => Cell(cols[k], Sim(m, id, cols[k])))
  }

  /** The columns the query ranks: the popular titles, or every title of the table. */
  function QueryColumns(m: SimMatrix, popular: seq<int>, onlyPopular: bool): seq<int>
  {
    if onlyPopular then popular else m.ids
  }

  function Plain(c: Cell): Entry { Entry(Id(c.id), c.score) }

  /** index.map(title_romaji_map): an id with no name becomes NaN. */
  function Relabel(romaji: map<int, string>, c: Cell): Entry
  {
    Entry(if c.id in romaji then Romaji(romaji[c.id]) else NoLabel, c.score)
  }

  /**
   * check_sanity as a function of the object's fields.  The errors come in the order the source
   * raises them: no table, a popular title that is not a column, a query id that is not a row, a
   * query id with no romaji name.
   */
  function SimilarTitles(sim: Option<SimMatrix>, metric: Option<Metric>, popular: seq<int>, romaji: map<int, string>,
                         titleId: int, maxNum: int, inRomaji: bool, onlyPopular: bool): Result<SimRank, Error>
    requires sim.Some? ==> Square(sim.value)
  {
    if sim.None? then Err(NoMatrix)
    else
      var m := sim.value;
      var cols := QueryColumns(m, popular, onlyPopular);
      var missing := FirstMissing(cols, m.ids);
      if missing.Some? then Err(KeyError(missing.value))
      else if titleId !in m.ids then Err(KeyError(titleId))
      else
        var ranked := Rank(ColumnCells(m, titleId, cols), Ascending(metric), maxNum);
        if inRomaji && titleId !in romaji then Err(KeyError(titleId))
        else Ok(SimRank(if inRomaji then Romaji(romaji[titleId]) else Id(titleId),
                        Labelled(ranked, romaji, inRomaji)))
  }

  /** A ranked cell as a row of the answer, under its romaji name or under its id. */
  function LabelCell(romaji: map<int, string>, inRomaji: bool, c: Cell): (e: Entry)
    ensures e.value == c.score
  {
    if inRomaji then Relabel(romaji, c) else Plain(c)
  }

  /** The query fails exactly in these cases, and only a missing table gives NoMatrix. */
  lemma SimilarTitlesErrors(sim: Option<SimMatrix>, metric: Option<Metric>, popular: seq<int>, romaji: map<int, string>,
                            titleId: int, maxNum: int, inRomaji: bool, onlyPopular: bool)
    requires sim.Some? ==> Square(sim.value)
    ensures var res := SimilarTitles(sim, metric, popular, romaji, titleId, maxNum, inRomaji, onlyPopular);
      && (res == Err(NoMatrix) <==> sim.None?)
      && (res.Err? <==> sim.None? || (onlyPopular && !AllIn(popular, sim.value.ids)) || titleId !in sim.value.ids
                        || (inRomaji && titleId !in romaji))
      && (res.Err? && sim.Some? ==> res.error.KeyError?)
  {
  }

  /** The answer's rows for a ranked row: each ranked cell under its label. */
  function Labelled(ranked: seq<Cell>, romaji: map<int, string>, inRomaji: bool): seq<Entry>
  {
    Each(ranked, (c: Cell) => LabelCell(romaji, inRomaji, c))
  }

  /** The answer's values come in the order of the sort. */
  lemma RankedOrder(cells: seq<Cell>, ascending: bool, n: int, romaji: map<int, string>, inRomaji: bool)
    ensures var es := Labelled(Rank(cells, ascending, n), romaji, inRomaji);
      forall i, j :: 0 <= i < j < |es| ==> if ascending then es[i].value <= es[j].value else es[i].value >= es[j].value
  {
    RankFromRow(cells, ascending, n);
    var r := Rank(cells, ascending, n);
    forall i, j | 0 <= i < j < |r| ensures InOrder(r[i], r[j], ascending) { }
  }

  /**
   * Each labelled cell of a row whose cells are labelled by cols names a title of cols: by its id, or
   * by its romaji name, NaN only for a column with no name.
   */
  lemma LabelledTitles(ranked: seq<Cell>, cols: seq<int>, romaji: map<int, string>, inRomaji: bool)
    requires forall c :: c in ranked ==> c.id in cols
    ensures forall e :: e in Labelled(ranked, romaji, inRomaji) ==>
      if inRomaji then exists x :: x in cols && e.title == (if x in romaji then Romaji(romaji[x]) else NoLabel)
      else e.title.Id? && e.title.id in cols
  {
    var es := Labelled(ranked, romaji, inRomaji);
    forall e | e in es
      ensures if inRomaji then exists x :: x in cols && e.title == (if x in romaji then Romaji(romaji[x]) else NoLabel)
              else e.title.Id? && e.title.id in cols
    {
      var k :| 0 <= k < |es| && es[k] == e;
      var c := ranked[k];
      assert c in ranked;
    }
  }

  /** An answer is the labelled ranking of the query row over the query columns. */
  lemma SimilarTitlesOk(sim: Option<SimMatrix>, metric: Option<Metric>, popular: seq<int>, romaji: map<int, string>,
                        titleId: int, maxNum: int, inRomaji: bool, onlyPopular: bool)
    requires sim.Some? ==> Square(sim.value)
    ensures var res := SimilarTitles(sim, metric, popular, romaji, titleId, maxNum, inRomaji, onlyPopular);
      res.Ok? ==>
        var m := sim.value;
        var cols := QueryColumns(m, popular, onlyPopular);
        && AllIn(cols, m.ids) && titleId in m.ids
        && res.value.header == (if inRomaji then Romaji(romaji[titleId]) else Id(titleId))
        && res.value.entries == Labelled(Rank(ColumnCells(m, titleId, cols), Ascending(metric), maxNum), romaji, inRomaji)
  {
  }

  /**
   * An answer of the query: for max_num >= 0 it has min(max_num, |columns| - 1) entries; they are
   * the sorted query row (largest first for cosine similarity, smallest first otherwise) from
   * position 1 on, so position 0 is always dropped, under their ids or romaji names; and every entry
   * names one of the ranked columns (the popular titles with only_popular).
   */
  lemma SimilarTitlesRanked(sim: Option<SimMatrix>, metric: Option<Metric>, popular: seq<int>, romaji: map<int, string>,
                            titleId: int, maxNum: int, inRomaji: bool, onlyPopular: bool)
    requires sim.Some? ==> Square(sim.value)
    ensures var res := SimilarTitles(sim, metric, popular, romaji, titleId, maxNum, inRomaji, onlyPopular);
      res.Ok? ==>
        var m := sim.value;
        var cols := QueryColumns(m, popular, onlyPopular);
        var sorted := Sort(ColumnCells(m, titleId, cols), Ascending(metric));
        var es := res.value.entries;
        && (maxNum >= 0 ==> |es| == (if |cols| <= 1 then 0 else if maxNum < |cols| - 1 then maxNum else |cols| - 1))
        && (maxNum >= 0 ==> |es| <= maxNum)
        && (cols != [] ==> 1 + |es| <= |sorted| && es == Labelled(sorted[1..1 + |es|], romaji, inRomaji))
        && (cols == [] ==> es == [])
        && forall e :: e in es ==>
             if inRomaji then exists x :: x in cols && e.title == (if x in romaji then Romaji(romaji[x]) else NoLabel)
             else e.title.Id? && e.title.id in cols
  {
    SimilarTitlesOk(sim, metric, popular, romaji, titleId, maxNum, inRomaji, onlyPopular);
    var res := SimilarTitles(sim, metric, popular, romaji, titleId, maxNum, inRomaji, onlyPopular);
    if res.Ok? {
      var m := sim.value;
      var cols := QueryColumns(m, popular, onlyPopular);
      var cells := ColumnCells(m, titleId, cols);
      var ranked := Rank(cells, Ascending(metric), maxNum);
      if maxNum >= 0 {
        RankPositions(cells, Ascending(metric), maxNum);
      }
      RankSlice(cells, Ascending(metric), maxNum);
      RankFromRow(cells, Ascending(metric), maxNum);
      LabelledTitles(ranked, cols, romaji, inRomaji);
    }
  }

  /** The values of an answer come in the order of the sort: largest first for cosine similarity, smallest first otherwise. */
  lemma SimilarTitlesOrdered(sim: Option<SimMatrix>, metric: Option<Metric>, popular: seq<int>, romaji: map<int, string>,
                             titleId: int, maxNum: int, inRomaji: bool, onlyPopular: bool)
    requires sim.Some? ==> Square(sim.value)
    ensures var res := SimilarTitles(sim, metric, popular, romaji, titleId, maxNum, inRomaji, onlyPopular);
      res.Ok? ==> forall i, j :: 0 <= i < j < |res.value.entries| ==>
        if metric == Some(Cosine) then res.value.entries[i].value >= res.value.entries[j].value
        else res.value.entries[i].value <= res.value.entries[j].value
  {
    SimilarTitlesOk(sim, metric, popular, romaji, titleId, maxNum, inRomaji, onlyPopular);
    var res := SimilarTitles(sim, metric, popular, romaji, titleId, maxNum, inRomaji, onlyPopular);
    if res.Ok? {
      var m := sim.value;
      RankedOrder(ColumnCells(m, titleId, QueryColumns(m, popular, onlyPopular)), Ascending(metric), maxNum, romaji, inRomaji);
    }
  }

  /**
   * With only_popular, every title the query returns is a popular title of the table, given by its id
   * or by its romaji name; a popular title always has a name, so NaN never appears.
   */
  lemma SimilarTitlesPopular(sim: Option<SimMatrix>, metric: Option<Metric>, titles: seq<TitleRecord>,
                             titleId: int, maxNum: int, inRomaji: bool)
    requires sim.Some? ==> Square(sim.value)
    ensures var res := SimilarTitles(sim, metric, Popular(titles), RomajiMap(titles), titleId, maxNum, inRomaji, true);
      res.Ok? ==> forall e :: e in res.value.entries ==>
        exists t :: t in titles && t.popularity > PopularityCut && t.titleId in RomajiMap(titles)
          && e.title == (if inRomaji then Romaji(RomajiMap(titles)[t.titleId]) else Id(t.titleId))
  {
    var romaji := RomajiMap(titles);
    var res := SimilarTitles(sim, metric, Popular(titles), romaji, titleId, maxNum, inRomaji, true);
    if res.Ok? {
      SimilarTitlesRanked(sim, metric, Popular(titles), romaji, titleId, maxNum, inRomaji, true);
      forall e | e in res.value.entries
        ensures exists t :: t in titles && t.popularity > PopularityCut && t.titleId in romaji
                           && e.title == (if inRomaji then Romaji(romaji[t.titleId]) else Id(t.titleId))
      {
        var x :| x in Popular(titles) && e.title == (if inRomaji then (if x in romaji then Romaji(romaji[x]) else NoLabel) else Id(x));
        PopularIff(titles, x);
        var t :| t in titles && t.titleId == x && t.popularity > PopularityCut;
        var k :| 0 <= k < |titles| && titles[k] == t;
        assert TitleIds(titles)[k] == x;
        RomajiMapLookup(titles, x);
      }
    }
  }

  /**
   * The seed loop of evaluate_precision_recall: the titles each seed pushes, in turn, before the
   * set difference.
   */
  method PushedTitles(m: SimMatrix, seeds: seq<int>, ascending: bool, numPush: int) returns (recTitle: seq<int>)
    requires Square(m) && AllIn(seeds, m.ids)
    ensures recTitle == RecList(m, seeds, ascending, numPush)
  {
    recTitle := [];
    for j := 0 to |seeds|
      invariant AllIn(seeds[..j], m.ids)
      invariant recTitle == RecList(m, seeds[..j], ascending, numPush)
    {
      assert seeds[..j + 1][..j] == seeds[..j];
      recTitle := recTitle + Neighbours(m, seeds[j], ascending, numPush);
    }
    assert seeds[..|seeds|] == seeds;
  }

  /**
   * The loop body of evaluate_precision_recall for one user: pool the titles the seeds push, drop
   * the seeds, and in the try block record the precision when something was recommended and then the
   * recall when the user liked some test title.
   */
  method EvaluateUser(m: SimMatrix, train: seq<Review>, test: seq<Review>, user: int, threshold: real,
                      ascending: bool, numPush: int, precision: seq<UserValue>, recall: seq<UserValue>)
    returns (newPrecision: seq<UserValue>, newRecall: seq<UserValue>)
    requires Square(m) && TitlesIn(train, m.ids)
    ensures newPrecision == precision + PrecisionEntry(user, UserEval(m, train, test, user, threshold, ascending, numPush))
    ensures newRecall == recall + RecallEntry(user, UserEval(m, train, test, user, threshold, ascending, numPush))
  {
    var seeds := Seeds(train, user, threshold);
    SeedsInTable(m, train, user, threshold);
    var recTitle := PushedTitles(m, seeds, ascending, numPush);
    var rec := SetOf(recTitle) - SetOf(seeds);
    assert rec == Recommended(m, seeds, ascending, numPush);
    var liked := Liked(test, user, threshold);
    newPrecision, newRecall := RecordScores(user, rec, liked, precision, recall);
  }

  /** The try block of evaluate_precision_recall for one user. */
  method RecordScores(user: int, rec: set<int>, liked: seq<int>, precision: seq<UserValue>, recall: seq<UserValue>)
    returns (newPrecision: seq<UserValue>, newRecall: seq<UserValue>)
    ensures newPrecision == precision + PrecisionEntry(user, Score(rec, liked))
    ensures newRecall == recall + RecallEntry(user, Score(rec, liked))
  {
    var hits := |rec * SetOf(liked)|;
    newPrecision, newRecall := precision, recall;
    if |rec| != 0 {
      newPrecision := precision + [UserValue(user, hits as real / |rec| as real)];
      if |liked| != 0 {
        newRecall := recall + [UserValue(user, hits as real / |liked| as real)];
      }
    }
  }

  /** The loop over the test users of evaluate_precision_recall, filling the two dictionaries. */
  method EvaluateUsers(m: SimMatrix, train: seq<Review>, test: seq<Review>, users: seq<int>, threshold: real,
                       ascending: bool, numPush: int)
    returns (precision: seq<UserValue>, recall: seq<UserValue>)
    requires Square(m) && TitlesIn(train, m.ids)
    ensures precision == Precisions(m, train, test, users, threshold, ascending, numPush)
    ensures recall == Recalls(m, train, test, users, threshold, ascending, numPush)
  {
    precision, recall := [], [];
    for i := 0 to |users|
      invariant precision == Precisions(m, train, test, users[..i], threshold, ascending, numPush)
      invariant recall == Recalls(m, train, test, users[..i], threshold, ascending, numPush)
    {
      DictionariesStep(m, train, test, users, i, threshold, ascending, numPush);
      precision, recall := EvaluateUser(m, train, test, users[i], threshold, ascending, numPush, precision, recall);
    }
    assert users[..|users|] == users;
  }

  // ---------------------------------------------------------------------
  // The class
  // ---------------------------------------------------------------------

  class ContentBasedFiltering {
    var simMat: Option<SimMatrix>
    var titles: seq<TitleRecord>
    var titleRomajiMap: map<int, string>
    var popularTitles: seq<int>
    var similarityMetric: Option<Metric>

    /**
     * The name map and the popular list are those of the titles table, a table and a metric are set
     * together, and the table is square, labelled with known titles.
     */
    ghost predicate Valid()
      reads this
    {
      && titleRomajiMap == RomajiMap(titles)
      && popularTitles == Popular(titles)
      && (simMat.Some? <==> similarityMetric.Some?)
      && (simMat.Some? ==> Square(simMat.value) && AllIn(simMat.value.ids, TitleIds(titles)))
    }

    /** __init__, given the titles table: no table and no metric yet. */
    constructor (titlesTable: seq<TitleRecord>)
      ensures Valid()
      ensures titles == titlesTable && simMat == None && similarityMetric == None
    {
      simMat := None;
      titles := titlesTable;
      titleRomajiMap := RomajiMap(titlesTable);
      popularTitles := Popular(titlesTable);
      similarityMetric := None;
    }

    /**
     * create_sim_mat: an unknown method name raises, and so does an empty feature table, both before
     * anything is assigned; otherwise the table of the known feature rows under that metric, labelled
     * with their ids, and the metric are stored.
     */
    method CreateSimMat(df: seq<FeatureRow>, name: string, sqrt: real -> real) returns (err: Option<Error>)
      requires Valid() && SameWidth(df)
      modifies this
      ensures Valid()
      ensures titles == old(titles)
      ensures var known := KnownRows(df, TitleIds(titles));
        if ParseMetric(name).None? || NoFeatures(known) then
          && err == Some(if ParseMetric(name).None? then UnknownMethod else EmptyFeatures)
          && simMat == old(simMat) && similarityMetric == old(similarityMetric)
        else
          && Rectangular(Each(known, FeaturesOf))
          && err == None
          && similarityMetric == ParseMetric(name)
          && simMat == Some(TableOf(known, ParseMetric(name).value, sqrt))
    {
      var known := KnownRows(df, TitleIds(titles));
      var metric := ParseMetric(name);
      if metric.None? {
        return Some(UnknownMethod);
      }
      if known == [] || |known[0].features| == 0 {
        return Some(EmptyFeatures);
      }
      KnownRectangular(df, TitleIds(titles));
      var table := TableOf(known, metric.value, sqrt);
      assert AllIn(table.ids, TitleIds(titles)) by {
        forall x | x in table.ids ensures x in TitleIds(titles) {
          var k :| 0 <= k < |known| && Each(known, FeatureId)[k] == x;
          assert known[k] in known;
        }
      }
      similarityMetric := metric;
      simMat := Some(table);
      err := None;
    }

    /**
     * check_sanity: for max_num >= 0 at most max_num titles, those at sorted positions 1 to max_num
     * of the query row, and with only_popular only popular ones, by id or by romaji name.
     */
    function CheckSanity(titleId: int, maxNum: int, inRomaji: bool, onlyPopular: bool): (res: Result<SimRank, Error>)
      reads this
      requires Valid()
      ensures res == Err(NoMatrix) <==> simMat.None?
      ensures res.Ok? && maxNum >= 0 ==> |res.value.entries| <= maxNum
      ensures res.Ok? && onlyPopular && !inRomaji ==>
        forall e :: e in res.value.entries ==> e.title.Id? && e.title.id in popularTitles
      ensures res.Ok? && onlyPopular ==>
        forall e :: e in res.value.entries ==>
          exists t :: t in titles && t.popularity > PopularityCut && t.titleId in titleRomajiMap
                      && e.title == (if inRomaji then Romaji(titleRomajiMap[t.titleId]) else Id(t.titleId))
    {
      var res := SimilarTitles(simMat, similarityMetric, popularTitles, titleRomajiMap, titleId, maxNum, inRomaji, onlyPopular);
      SimilarTitlesErrors(simMat, similarityMetric, popularTitles, titleRomajiMap, titleId, maxNum, inRomaji, onlyPopular);
      if res.Ok? then
        SimilarTitlesRanked(simMat, similarityMetric, popularTitles, titleRomajiMap, titleId, maxNum, inRomaji, onlyPopular);
        SimilarTitlesPopular(simMat, similarityMetric, titles, titleId, maxNum, inRomaji);
        res
      else res
    }

    /**
     * evaluate_rmse: the loop over the test users grows test_result one user at a time; the outcome is
     * Evaluation.Rmse of the object's table and metric.
     */
    method EvaluateRmse(trainFrame: ReviewFrame, testFrame: ReviewFrame, sqrt: real -> real)
      returns (res: Result<RmseOutcome, Error>)
      requires Valid()
      ensures res == Rmse(simMat, similarityMetric, trainFrame, testFrame, sqrt)
    {
      if similarityMetric != Some(Cosine) {
        return Err(NotCosine);
      }
      if !HasReviewColumns(trainFrame) || !HasReviewColumns(testFrame) {
        return Err(MissingColumns);
      }
      var m := simMat.value;
      var train := InTable(trainFrame.rows, m.ids);
      var test := Eligible(testFrame.rows, train, m.ids);
      var users := TestUsers(test);
      var testResult: seq<ScoredRow> := [];
      for i := 0 to |users|
        invariant testResult == TestResult(m, train, test, users[..i])
      {
        var user := users[i];
        var predictions := PredictionDict(m, train, user);
        testResult := testResult + UserResult(RowsOf(test, user), predictions);
        assert users[..i + 1][..i] == users[..i];
      }
      assert users[..|users|] == users;
      var mse := Mse(testResult);
      if mse.Err? {
        return Err(mse.error);
      }
      return Ok(RmseOutcome(sqrt(mse.value), testResult));
    }

    /**
     * evaluate_precision_recall: the loop over the test users fills the two dictionaries; the outcome
     * is Evaluation.PrecisionRecall of the object's table and metric.
     */
    method EvaluatePrecisionRecall(trainFrame: ReviewFrame, testFrame: ReviewFrame, threshold: real, numPush: int)
      returns (res: Result<PrOutcome, Error>)
      requires Valid()
      ensures res == PrecisionRecall(simMat, similarityMetric, trainFrame, testFrame, threshold, numPush)
    {
      if "title_id" !in trainFrame.columns {
        return Err(MissingColumns);
      }
      if simMat.None? {
        return Err(NoMatrix);
      }
      if "user_id" !in trainFrame.columns || "user_id" !in testFrame.columns || "title_id" !in testFrame.columns {
        return Err(MissingColumns);
      }
      var m := simMat.value;
      var train := InTable(trainFrame.rows, m.ids);
      var test := Eligible(testFrame.rows, train, m.ids);
      var users := TestUsers(test);
      if users != [] && ("score" !in trainFrame.columns || "score" !in testFrame.columns) {
        return Err(MissingColumns);
      }
      var ascending := similarityMetric != Some(Cosine);
      var precision, recall := EvaluateUsers(m, train, test, users, threshold, ascending, numPush);
      return Ok(PrOutcome(Mean(precision), Mean(recall), precision, recall));
    }
  }
}
