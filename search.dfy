/** The trip search of the document store: the `city` view's map step, which
    indexes trips by city, and the `searchlist` list function, which scans the
    view's rows, applies the mood and date filters, scores every admitted trip
    and collects the scored trips in scan order. */
module Search {
  import opened Wrappers
  import Strings

  /** Dates are only ever compared by order, so an ordinal stands for them. */
  type Date = int

  /** A stored document. Every field but the type, city and category may be missing. */
  datatype Doc = Doc(
    kind: string,
    city: string,
    category: seq<string>,
    startDate: Option<Date>,
    endDate: Option<Date>,
    budget: Option<int>,
    persons: Option<int>,
    days: Option<int>,
    accommodations: Option<int>)

  /** A row of the `city` view: the key it was emitted under and the document. */
  datatype Row = Row(key: string, value: Doc)

  /** The list function's query parameters. For the numeric and date
      parameters, `None` stands for a parameter that is missing or blank,
      which the list treats alike as falsy, and `Some(0)` is a given "0",
      which is truthy; `""` is the moods string that is missing or blank.
      The city is only ever compared with a row's key: `None` is a missing
      city, which matches no row here because every document carries a
      city, and `Some("")` is a blank one, which matches the rows keyed "". */
  datatype Query = Query(
    city: Option<string>,
    moods: string,
    startDate: Option<Date>,
    endDate: Option<Date>,
    budget: Option<int>,
    persons: Option<int>,
    days: Option<int>,
    accommodations: Option<int>)

  /** A trip with the relevance the list wrote into it. */
  datatype Scored = Scored(trip: Doc, relevance: real)

  /** The per-criterion relevance record of the list function. */
  datatype Contributions = Contributions(
    moods: real, budget: real, persons: real, days: real, accommodations: real)

  // The relevance weights (RELEVANCE_CONFIG).
  const WeightMoods: real := 0.4
  const WeightDays: real := 0.2
  const WeightPersons: real := 0.2
  const WeightBudget: real := 0.1
  const WeightAccommodations: real := 0.1

  const MoodSeparator: char := '.'

  // ---------------------------------------------------------------------------
  // The map step of the `city` view
  // ---------------------------------------------------------------------------

  /** What the map function emits for one document: one row for a trip,
      keyed by its city and holding the trip, and nothing for anything else. */
  function Emit(doc: Doc): (rows: seq<Row>)
    ensures |rows| <= 1
    ensures rows != [] <==> doc.kind == "trip"
    ensures forall r :: r in rows ==> r.key == doc.city && r.value == doc
  {
    if doc.kind == "trip" then [Row(doc.city, doc)] else []
  }

  /** The rows the view holds for a sequence of documents, document by document. */
  function CityView(docs: seq<Doc>): seq<Row>
    decreases |docs|
  {
    if docs == [] then [] else CityView(docs[..|docs| - 1]) + Emit(docs[|docs| - 1])
  }

  /** The view holds a row for every trip and nothing else: each row is keyed
      by its trip's city, and every trip appears under its city. */
  lemma {:induction false} CityViewRows(docs: seq<Doc>)
    ensures forall r :: r in CityView(docs) ==> r.value.kind == "trip" && r.key == r.value.city && r.value in docs
    ensures forall d :: d in docs && d.kind == "trip" ==> Row(d.city, d) in CityView(docs)
    decreases |docs|
  {
    if docs != [] {
      var init, last := docs[..|docs| - 1], docs[|docs| - 1];
      CityViewRows(init);
      assert docs == init + [last];
      assert CityView(docs) == CityView(init) + Emit(last);
    }
  }

  /** The view of two batches of documents is the view of the first followed
      by the view of the second: rows keep the documents' order. */
  lemma {:induction false} CityViewAppend(a: seq<Doc>, b: seq<Doc>)
    ensures CityView(a + b) == CityView(a) + CityView(b)
    decreases |b|
  {
    if b == [] {
      assert a + b == a;
    } else {
      var b', last := b[..|b| - 1], b[|b| - 1];
      assert (a + b)[..|a + b| - 1] == a + b' && (a + b)[|a + b| - 1] == last;
      CityViewAppend(a, b');
      calc {
        CityView(a + b);
        CityView(a + b') + Emit(last);
        CityView(a) + CityView(b') + Emit(last);
        CityView(a) + (CityView(b') + Emit(last));
        CityView(a) + CityView(b);
      }
    }
  }

  // ---------------------------------------------------------------------------
  // Scoring one document against a query (specification of the list's loop body)
  // ---------------------------------------------------------------------------

  /** An empty query object, which the list answers with no rows at all. */
  predicate IsEmptyQuery(q: Query) {
    q == Query(None, "", None, None, None, None, None, None)
  }

  /** The requested mood tokens. */
  function MoodTokens(q: Query): (tokens: seq<string>)
    ensures |tokens| >= 1
  {
    Strings.Split(q.moods, MoodSeparator)
  }

  /** How many of the tokens occur in the category list (`moods_hit`). */
  function Hits(tokens: seq<string>, category: seq<string>): (n: nat)
    ensures n <= |tokens|
    ensures n > 0 <==> exists i :: 0 <= i < |tokens| && tokens[i] in category
    decreases |tokens|
  {
    if tokens == [] then 0
    else
      var init := tokens[..|tokens| - 1];
      var n := Hits(init, category) + if tokens[|tokens| - 1] in category then 1 else 0;
      assert forall i :: 0 <= i < |init| ==> init[i] == tokens[i];
      n
  }

  /** The mood filter: with moods requested, at least one of them must hit. */
  predicate MoodsPass(q: Query, d: Doc) {
    q.moods == "" || Hits(MoodTokens(q), d.category) > 0
  }

  /** The date filter, applied when both query dates are given. A comparison
      with a missing trip date is false, so it never excludes. Stated as
      containment: every date the trip gives lies within the query's range. */
  predicate DatesPass(q: Query, d: Doc)
    ensures DatesPass(q, d) <==>
      q.startDate.None? || q.endDate.None? ||
      ((d.startDate.None? || q.startDate.value <= d.startDate.value) &&
       (d.endDate.None? || d.endDate.value <= q.endDate.value))
  {
    !(q.startDate.Some? && q.endDate.Some?) ||
    !((d.startDate.Some? && q.startDate.value > d.startDate.value) ||
      (d.endDate.Some? && q.endDate.value < d.endDate.value))
  }

  /** Both hard filters hold. */
  predicate Admitted(q: Query, d: Doc) {
    MoodsPass(q, d) && DatesPass(q, d)
  }

  /** A requested threshold that a present trip value reaches; a comparison
      with a missing trip value is false. */
  predicate Reaches(want: Option<int>, have: Option<int>) {
    want.Some? && have.Some? && want.value <= have.value
  }

  /** The relevance record after the criteria checks. The persons criterion
      reads the trip's budget and awards the budget weight. */
  function Earned(q: Query, d: Doc): Contributions {
    var tokens := MoodTokens(q);
    Contributions(
      moods := if q.moods != "" then WeightMoods / (|tokens| as real) * (Hits(tokens, d.category) as real) else 0.0,
      budget := if Reaches(q.budget, d.budget) then WeightBudget else 0.0,
      persons := if Reaches(q.persons, d.budget) then WeightBudget else 0.0,
      days := if Reaches(q.days, d.days) then WeightDays else 0.0,
      accommodations := if Reaches(q.accommodations, d.accommodations) then WeightAccommodations else 0.0)
  }

  /** The weight a criterion adds to the possible relevance. */
  function WeightIf(present: bool, weight: real): real {
    if present then weight else 0.0
  }

  /** The possible relevance (`possibleRelevance`) for the criteria the query carries. */
  function Possible(q: Query): real {
    WeightIf(q.moods != "", WeightMoods) + WeightIf(q.budget.Some?, WeightBudget)
    + WeightIf(q.persons.Some?, WeightPersons) + WeightIf(q.days.Some?, WeightDays)
    + WeightIf(q.accommodations.Some?, WeightAccommodations)
  }

  /** The five entries of the relevance record in its key order. */
  function Entries(c: Contributions): seq<real> {
    [c.moods, c.budget, c.persons, c.days, c.accommodations]
  }

  /** The sum of a sequence of reals, first to last. */
  function SumOf(s: seq<real>): real
    decreases |s|
  {
    if s == [] then 0.0 else SumOf(s[..|s| - 1]) + s[|s| - 1]
  }

  /** The score `total` before the zero-hit workaround: the sum of the record's entries. */
  function Total(c: Contributions): real {
    c.moods + c.budget + c.persons + c.days + c.accommodations
  }

  /** Summing the entries one by one, in key order, gives the total. */
  lemma SumOfEntries(c: Contributions)
    ensures SumOf(Entries(c)) == Total(c)
  {
    var e := Entries(c);
    assert e[..1][..0] == [];
    assert SumOf(e[..1]) == c.moods;
    assert e[..2][..1] == e[..1];
    assert SumOf(e[..2]) == c.moods + c.budget;
    assert e[..3][..2] == e[..2];
    assert SumOf(e[..3]) == c.moods + c.budget + c.persons;
    assert e[..4][..3] == e[..3];
    assert SumOf(e[..4]) == c.moods + c.budget + c.persons + c.days;
    assert e[..4] == e[..|e| - 1];
  }

  /** The mood entry `0.4 / moods_sum * moods_hit` lies between zero and the
      mood weight, and is positive when some mood hit. */
  lemma MoodShareBounds(sum: nat, hit: nat)
    requires 1 <= sum && hit <= sum
    ensures 0.0 <= WeightMoods / (sum as real) * (hit as real) <= WeightMoods
    ensures hit > 0 ==> WeightMoods / (sum as real) * (hit as real) > 0.0
  {
    var n, h := sum as real, hit as real;
    var share := WeightMoods / n;
    assert share > 0.0;
    assert share * h <= share * n;
    assert share * n == WeightMoods;
  }

  /** Each entry of the relevance record lies between zero and the weight of
      its criterion when the query carries it, and is zero otherwise; the
      persons entry never exceeds the budget weight. So the total never
      exceeds the possible relevance, and falls short of it by at least the
      difference of the persons and budget weights when persons is queried. */
  lemma EarnedWithinWeights(q: Query, d: Doc)
    ensures var c := Earned(q, d);
      && 0.0 <= c.moods <= WeightIf(q.moods != "", WeightMoods)
      && 0.0 <= c.budget <= WeightIf(q.budget.Some?, WeightBudget)
      && 0.0 <= c.persons <= WeightIf(q.persons.Some?, WeightBudget)
      && 0.0 <= c.days <= WeightIf(q.days.Some?, WeightDays)
      && 0.0 <= c.accommodations <= WeightIf(q.accommodations.Some?, WeightAccommodations)
    ensures 0.0 <= Total(Earned(q, d)) <= Possible(q)
    ensures q.persons.Some? ==> Total(Earned(q, d)) <= Possible(q) - (WeightPersons - WeightBudget)
  {
    var tokens := MoodTokens(q);
    MoodShareBounds(|tokens|, Hits(tokens, d.category));
  }

  /** The possible relevance is the sum of the weights of the criteria present:
      zero exactly when the query carries none of them, at most the sum of all weights. */
  lemma PossibleRange(q: Query)
    ensures 0.0 <= Possible(q) <= WeightMoods + WeightBudget + WeightPersons + WeightDays + WeightAccommodations
    ensures Possible(q) == 0.0 <==>
      q.moods == "" && q.budget.None? && q.persons.None? && q.days.None? && q.accommodations.None?
    ensures q.moods == "" ==> Possible(q) <= 0.6
  {
  }

  /** The relevance computed from the total and the possible relevance,
      including the workaround for a trip that hit no criterion: the total
      becomes 1 and the possible relevance (taken as 0.5 when no criterion was
      given) is doubled. */
  function Score(total: real, possible: real): real
    requires total != 0.0 ==> possible != 0.0
  {
    if total == 0.0 then 1.0 * 100.0 / (2.0 * (if possible == 0.0 then 0.5 else possible))
    else total * 100.0 / possible
  }

  /** A total that reaches part of the possible relevance scores in (0, 100],
      and 100 exactly when it reaches all of it. */
  lemma ScoreWhenHit(total: real, possible: real)
    requires 0.0 < total <= possible
    ensures 0.0 < Score(total, possible) <= 100.0
    ensures Score(total, possible) == 100.0 <==> total == possible
  {
    var r := total * 100.0 / possible;
    assert r * possible == total * 100.0;
    if r > 100.0 {
      assert r * possible > 100.0 * possible;
    }
  }

  /** The zero-hit workaround. Without optional criteria the score is 100.
      Otherwise score times possible relevance is 50, so the score stays
      within 100 exactly when the possible relevance is at least 0.5. */
  lemma ScoreWhenNoHit(possible: real)
    requires possible >= 0.0
    ensures possible == 0.0 ==> Score(0.0, possible) == 100.0
    ensures possible > 0.0 ==> Score(0.0, possible) * possible == 50.0
    ensures possible > 0.0 ==> (Score(0.0, possible) <= 100.0 <==> possible >= 0.5)
    ensures Score(0.0, possible) > 0.0
  {
    if possible > 0.0 {
      var r := Score(0.0, possible);
      assert r == 100.0 / (2.0 * possible);
      assert r * (2.0 * possible) == 100.0;
      assert r > 0.0;
      if possible >= 0.5 {
        assert r * (2.0 * possible) >= r;
      } else {
        assert r * (2.0 * possible) < r;
      }
    }
  }

  /** The relevance the list writes into an admitted trip. */
  function Relevance(q: Query, d: Doc): real {
    EarnedWithinWeights(q, d);
    Score(Total(Earned(q, d)), Possible(q))
  }

  /** A trip that hit something scores in (0, 100], and 100 exactly when the
      total reaches the possible relevance. */
  lemma RelevanceWhenHit(q: Query, d: Doc)
    requires Total(Earned(q, d)) > 0.0
    ensures 0.0 < Relevance(q, d) <= 100.0
    ensures Relevance(q, d) == 100.0 <==> Total(Earned(q, d)) == Possible(q)
  {
    EarnedWithinWeights(q, d);
    ScoreWhenHit(Total(Earned(q, d)), Possible(q));
  }

  /** With persons queried, a trip that hit something never scores 100: the
      persons criterion can earn only the budget weight. */
  lemma PersonsQueryNeverFullScore(q: Query, d: Doc)
    requires q.persons.Some? && Total(Earned(q, d)) > 0.0
    ensures Relevance(q, d) < 100.0
  {
    EarnedWithinWeights(q, d);
    RelevanceWhenHit(q, d);
  }

  /** A trip that hit no criterion: it scores 100 when the query carries no
      optional criterion, and otherwise at most 100 exactly when the possible
      relevance is at least 0.5; a query whose criteria are worth less than
      0.5 in all (persons alone, or persons and days, for instance) scores
      such a trip above 100. */
  lemma ZeroHitRelevance(q: Query, d: Doc)
    requires Total(Earned(q, d)) == 0.0
    ensures Possible(q) == 0.0 ==> Relevance(q, d) == 100.0
    ensures Possible(q) > 0.0 ==> (Relevance(q, d) <= 100.0 <==> Possible(q) >= 0.5)
    ensures Relevance(q, d) > 0.0
  {
    PossibleRange(q);
    ScoreWhenNoHit(Possible(q));
  }

  /** With moods requested, an admitted trip hit at least one mood, so the
      zero-hit workaround never applies to it. */
  lemma MoodsAdmittedHasHit(q: Query, d: Doc)
    requires q.moods != "" && Admitted(q, d)
    ensures Total(Earned(q, d)) > 0.0
  {
    var tokens := MoodTokens(q);
    assert Hits(tokens, d.category) > 0;
    MoodShareBounds(|tokens|, Hits(tokens, d.category));
    assert Earned(q, d).moods > 0.0;
    EarnedWithinWeights(q, d);
  }

  /** Every score the list writes is positive. */
  lemma RelevancePositive(q: Query, d: Doc)
    ensures Relevance(q, d) > 0.0
  {
    EarnedWithinWeights(q, d);
    if Total(Earned(q, d)) == 0.0 {
      ZeroHitRelevance(q, d);
    } else {
      RelevanceWhenHit(q, d);
    }
  }

  /** The mood filter in terms of the requested tokens: with moods requested,
      a trip is admitted only if its category contains one of the tokens. */
  lemma MoodFilter(q: Query, d: Doc)
    requires q.moods != ""
    ensures MoodsPass(q, d) <==> exists i :: 0 <= i < |MoodTokens(q)| && MoodTokens(q)[i] in d.category
    ensures Hits(MoodTokens(q), d.category) <= |MoodTokens(q)|
  {
  }

  /** The date rule is containment: with both query dates and both trip dates
      given, a trip passes exactly when its range lies inside the query's. */
  lemma DateRuleIsContainment(q: Query, d: Doc)
    requires q.startDate.Some? && q.endDate.Some? && d.startDate.Some? && d.endDate.Some?
    ensures DatesPass(q, d) <==>
      q.startDate.value <= d.startDate.value && d.endDate.value <= q.endDate.value
  {
  }

  /** The trip's own persons field is never read: the persons criterion
      compares with the budget, and changing the trip's persons leaves its
      admission and score unchanged. */
  lemma PersonsComparedWithBudget(q: Query, d: Doc, persons: Option<int>)
    ensures Earned(q, d).persons == WeightIf(Reaches(q.persons, d.budget), WeightBudget)
    ensures Admitted(q, d.(persons := persons)) == Admitted(q, d)
    ensures Relevance(q, d.(persons := persons)) == Relevance(q, d)
  {
    assert Earned(q, d.(persons := persons)) == Earned(q, d);
  }

  /** A trip that hits nothing can outrank a trip that hits the persons
      criterion: for a query carrying only persons = 2, a trip with budget 1
      scores 250 and a trip with budget 5 scores 50. */
  lemma ZeroHitOutranksHit()
    ensures var q := Query(Some("Berlin"), "", None, None, None, Some(2), None, None);
      var miss := Doc("trip", "Berlin", [], None, None, Some(1), None, None, None);
      var hit := Doc("trip", "Berlin", [], None, None, Some(5), None, None, None);
      Admitted(q, miss) && Admitted(q, hit) &&
      Relevance(q, miss) == 250.0 && Relevance(q, hit) == 50.0
  {
    var q := Query(Some("Berlin"), "", None, None, None, Some(2), None, None);
    var miss := Doc("trip", "Berlin", [], None, None, Some(1), None, None, None);
    var hit := Doc("trip", "Berlin", [], None, None, Some(5), None, None, None);
    assert Total(Earned(q, miss)) == 0.0;
    assert Total(Earned(q, hit)) == 0.1;
    assert Possible(q) == 0.2;
  }

  /** A query that carries persons or days and no other optional criterion
      is worth 0.2 or 0.4. */
  lemma PossibleOfPersonsAndDays(q: Query)
    requires q.moods == "" && q.budget.None? && q.accommodations.None?
    requires q.persons.Some? || q.days.Some?
    ensures Possible(q) == 0.2 || Possible(q) == 0.4
  {
  }

  /** The zero-hit workaround on a possible relevance of 0.2 gives 250, and
      on 0.4 gives 125. */
  lemma ZeroHitScoreOfPersonsAndDays(p: real)
    requires p == 0.2 || p == 0.4
    ensures p == 0.2 ==> Score(0.0, p) == 250.0
    ensures p == 0.4 ==> Score(0.0, p) == 125.0
  {
    assert Score(0.0, 0.2) == 1.0 * 100.0 / 0.4 == 250.0;
    assert Score(0.0, 0.4) == 1.0 * 100.0 / 0.8 == 125.0;
  }

  /** A trip that hits nothing scores 250 for a query worth 0.2 and 125 for
      a query worth 0.4. */
  lemma ZeroHitOfPersonsAndDays(q: Query, d: Doc)
    requires Total(Earned(q, d)) == 0.0
    ensures Possible(q) == 0.2 ==> Relevance(q, d) == 250.0
    ensures Possible(q) == 0.4 ==> Relevance(q, d) == 125.0
  {
    var p := Possible(q);
    assert Relevance(q, d) == Score(0.0, p);
    if p == 0.2 || p == 0.4 {
      ZeroHitScoreOfPersonsAndDays(p);
    }
  }

  /** Relevance is not monotone in the criteria met. For a query without
      moods, budget or accommodations (the trip search never sends budget or
      accommodations, and sends no moods when the request has none), a trip
      that hits nothing scores 125 or 250 whenever some criterion was given,
      and so outranks every trip that hit something. */
  lemma ZeroHitOutranksEveryHit(q: Query, miss: Doc, hit: Doc)
    requires q.moods == "" && q.budget.None? && q.accommodations.None?
    requires q.persons.Some? || q.days.Some?
    requires Total(Earned(q, miss)) == 0.0 && Total(Earned(q, hit)) > 0.0
    ensures Relevance(q, miss) == 125.0 || Relevance(q, miss) == 250.0
    ensures Relevance(q, hit) < Relevance(q, miss)
  {
    PossibleOfPersonsAndDays(q);
    ZeroHitOfPersonsAndDays(q, miss);
    RelevanceWhenHit(q, hit);
  }

  // ---------------------------------------------------------------------------
  // The scan (specification of the list function)
  // ---------------------------------------------------------------------------

  /** The row guard: a non-empty query whose city equals the row's key.
      Since every row key here is a city string, a query whose city equals a
      key is never empty, and the first test only follows the guard as the
      list writes it; against a trip without a city it is what keeps the
      empty query from matching. */
  predicate CityMatches(q: Query, r: Row) {
    !IsEmptyQuery(q) && q.city == Some(r.key)
  }

  /** A row the list scores and pushes. */
  predicate Selected(q: Query, r: Row) {
    CityMatches(q, r) && Admitted(q, r.value)
  }

  /** What the list pushes for one row. */
  function Step(q: Query, r: Row): seq<Scored> {
    if Selected(q, r) then [Scored(r.value, Relevance(q, r.value))] else []
  }

  /** What the list sends for a sequence of rows. */
  function Scan(q: Query, rows: seq<Row>): seq<Scored>
    decreases |rows|
  {
    if rows == [] then [] else Scan(q, rows[..|rows| - 1]) + Step(q, rows[|rows| - 1])
  }

  /** The positions of the selected rows, in increasing order. */
  function SelectedIndices(q: Query, rows: seq<Row>): seq<nat>
    decreases |rows|
  {
    if rows == [] then []
    else SelectedIndices(q, rows[..|rows| - 1]) + if Selected(q, rows[|rows| - 1]) then [|rows| - 1] else []
  }

  /** The positions of the selected rows increase, and a row is selected
      exactly when its position is listed. */
  lemma {:induction false} SelectedIndicesExact(q: Query, rows: seq<Row>)
    ensures forall k :: 0 <= k < |SelectedIndices(q, rows)| ==> SelectedIndices(q, rows)[k] < |rows|
    ensures forall k, m :: 0 <= k < m < |SelectedIndices(q, rows)| ==>
      SelectedIndices(q, rows)[k] < SelectedIndices(q, rows)[m]
    ensures forall i :: 0 <= i < |rows| ==> (Selected(q, rows[i]) <==> i in SelectedIndices(q, rows))
    decreases |rows|
  {
    if rows != [] {
      var n := |rows| - 1;
      var init := rows[..n];
      SelectedIndicesExact(q, init);
      var idx0 := SelectedIndices(q, init);
      assert forall i :: 0 <= i < n ==> init[i] == rows[i];
      if Selected(q, rows[n]) {
        assert SelectedIndices(q, rows) == idx0 + [n];
      } else {
        assert SelectedIndices(q, rows) == idx0;
      }
    }
  }

  /** The scan lists exactly the selected rows, each once, in row order: its
      k-th entry is the k-th selected row (see SelectedIndicesExact) with its relevance. */
  lemma {:induction false} ScanListsSelectedRows(q: Query, rows: seq<Row>)
    ensures |Scan(q, rows)| == |SelectedIndices(q, rows)|
    ensures forall k :: 0 <= k < |SelectedIndices(q, rows)| ==>
      var i := SelectedIndices(q, rows)[k];
      i < |rows| && Selected(q, rows[i])
      && Scan(q, rows)[k] == Scored(rows[i].value, Relevance(q, rows[i].value))
    decreases |rows|
  {
    if rows != [] {
      var n := |rows| - 1;
      var init := rows[..n];
      ScanListsSelectedRows(q, init);
      SelectedIndicesExact(q, init);
      var idx0, scan0 := SelectedIndices(q, init), Scan(q, init);
      var idx, scan := SelectedIndices(q, rows), Scan(q, rows);
      assert idx[..|idx0|] == idx0 && scan[..|scan0|] == scan0;
      forall k | 0 <= k < |idx0|
        ensures idx[k] < |rows| && Selected(q, rows[idx[k]])
        ensures scan[k] == Scored(rows[idx[k]].value, Relevance(q, rows[idx[k]].value))
      {
        assert idx[k] == idx0[k] && scan[k] == scan0[k];
        assert init[idx0[k]] == rows[idx0[k]];
      }
    }
  }

  /** Scanning two batches of rows is scanning the first, then the second. */
  lemma {:induction false} ScanAppend(q: Query, a: seq<Row>, b: seq<Row>)
    ensures Scan(q, a + b) == Scan(q, a) + Scan(q, b)
    decreases |b|
  {
    if b == [] {
      assert a + b == a;
    } else {
      var b' := b[..|b| - 1];
      assert (a + b)[..|a + b| - 1] == a + b';
      ScanAppend(q, a, b');
    }
  }

  /** Every entry of the scan comes from a row keyed by the query city that
      passed both filters, and carries that trip's relevance, which is positive. */
  lemma ScanEntries(q: Query, rows: seq<Row>)
    ensures forall s :: s in Scan(q, rows) ==>
      (exists i :: 0 <= i < |rows| && Selected(q, rows[i]) && rows[i].value == s.trip)
      && q.city.Some? && Admitted(q, s.trip) && s.relevance == Relevance(q, s.trip) && s.relevance > 0.0
  {
    var scan, idx := Scan(q, rows), SelectedIndices(q, rows);
    ScanListsSelectedRows(q, rows);
    forall s | s in scan
      ensures exists i :: 0 <= i < |rows| && Selected(q, rows[i]) && rows[i].value == s.trip
      ensures q.city.Some? && Admitted(q, s.trip) && s.relevance == Relevance(q, s.trip) && s.relevance > 0.0
    {
      var k :| 0 <= k < |scan| && scan[k] == s;
      var i := idx[k];
      assert Selected(q, rows[i]) && s == Scored(rows[i].value, Relevance(q, rows[i].value));
      RelevancePositive(q, rows[i].value);
    }
  }

  /** An empty query yields an empty result. */
  lemma {:induction false} EmptyQueryYieldsNothing(q: Query, rows: seq<Row>)
    requires IsEmptyQuery(q)
    ensures Scan(q, rows) == []
    decreases |rows|
  {
    if rows != [] {
      EmptyQueryYieldsNothing(q, rows[..|rows| - 1]);
    }
  }

  /** Scanning the city view: every result is a trip of the query city that
      passed both filters. */
  lemma ScanOfCityView(q: Query, docs: seq<Doc>)
    ensures forall s :: s in Scan(q, CityView(docs)) ==>
      s.trip in docs && s.trip.kind == "trip" && q.city == Some(s.trip.city) && Admitted(q, s.trip)
  {
    ScanEntries(q, CityView(docs));
    CityViewRows(docs);
  }

  /** Two Berlin trips, one tagged "beach" for two persons and three days, one
      tagged "city" for four persons and five days, neither with a budget. */
  function BerlinTrips(): seq<Doc> {
    [Doc("trip", "Berlin", ["beach"], None, None, None, Some(2), Some(3), None),
     Doc("trip", "Berlin", ["city"], None, None, None, Some(4), Some(5), None)]
  }

  /** The city view of two trips holds both, in order. */
  lemma CityViewOfTwoTrips(d0: Doc, d1: Doc)
    requires d0.kind == "trip" && d1.kind == "trip"
    ensures CityView([d0, d1]) == [Row(d0.city, d0), Row(d1.city, d1)]
  {
    var docs := [d0, d1];
    assert docs[..|docs| - 1] == [d0];
    assert [d0][..0] == [];
    assert CityView([d0]) == [Row(d0.city, d0)];
  }

  /** The scan of two rows is what the list pushes for the first, then for the second. */
  lemma ScanOfTwoRows(q: Query, r0: Row, r1: Row)
    ensures Scan(q, [r0, r1]) == Step(q, r0) + Step(q, r1)
  {
    var rows := [r0, r1];
    assert rows[..|rows| - 1] == [r0];
    assert [r0][..0] == [];
    assert Scan(q, [r0]) == Step(q, r0);
  }

  /** The scan of the city view of two trips of the query city lists the
      admitted ones in document order, each with its relevance. */
  lemma ScanOfTwoTrips(q: Query, d0: Doc, d1: Doc)
    requires d0.kind == "trip" && d1.kind == "trip"
    requires !IsEmptyQuery(q) && q.city == Some(d0.city) && q.city == Some(d1.city)
    ensures Scan(q, CityView([d0, d1])) ==
      (if Admitted(q, d0) then [Scored(d0, Relevance(q, d0))] else []) +
      (if Admitted(q, d1) then [Scored(d1, Relevance(q, d1))] else [])
  {
    var r0, r1 := Row(d0.city, d0), Row(d1.city, d1);
    CityViewOfTwoTrips(d0, d1);
    ScanOfTwoRows(q, r0, r1);
    assert CityMatches(q, r0) && CityMatches(q, r1);
  }

  /** The query for the mood "beach" and two persons in Berlin. */
  function BeachForTwo(): Query {
    Query(Some("Berlin"), "beach", None, None, None, Some(2), None, None)
  }

  /** The query's only mood token is "beach". */
  lemma BeachForTwoTokens()
    ensures MoodTokens(BeachForTwo()) == ["beach"]
  {
    Strings.SplitWithoutSeparator("beach", MoodSeparator);
  }

  /** The beach trip hits the mood but not the persons criterion, which is
      compared with its missing budget: it scores 0.4 * 100 / 0.6 rather than 100. */
  lemma BeachTripScore()
    ensures Admitted(BeachForTwo(), BerlinTrips()[0])
    ensures Relevance(BeachForTwo(), BerlinTrips()[0]) == 200.0 / 3.0
  {
    var q, d := BeachForTwo(), BerlinTrips()[0];
    BeachForTwoTokens();
    assert ["beach"][..0] == [];
    assert Hits(["beach"], d.category) == 1;
    assert Earned(q, d) == Contributions(0.4, 0.0, 0.0, 0.0, 0.0);
    assert Possible(q) == 0.6;
    assert Score(0.4, 0.6) == 200.0 / 3.0;
  }

  /** The city trip misses the mood and is filtered out. */
  lemma CityTripFiltered()
    ensures !Admitted(BeachForTwo(), BerlinTrips()[1])
  {
    BeachForTwoTokens();
    assert ["beach"][..0] == [];
    assert Hits(["beach"], BerlinTrips()[1].category) == 0;
  }

  /** Asking for the mood "beach" and two persons lists only the beach trip,
      with the relevance 200 / 3. */
  lemma BeachAndPersonsScenario()
    ensures Scan(BeachForTwo(), CityView(BerlinTrips())) == [Scored(BerlinTrips()[0], 200.0 / 3.0)]
  {
    BeachTripScore();
    CityTripFiltered();
    ScanOfTwoTrips(BeachForTwo(), BerlinTrips()[0], BerlinTrips()[1]);
  }

  /** Asking for the mood "ski", which neither Berlin trip carries, lists
      nothing: the plugin then falls back to the city's trips. */
  lemma NoMoodHitScenario()
    ensures Scan(Query(Some("Berlin"), "ski", None, None, None, None, None, None), CityView(BerlinTrips())) == []
  {
    var q, docs := Query(Some("Berlin"), "ski", None, None, None, None, None, None), BerlinTrips();
    assert MoodTokens(q) == ["ski"] by {
      Strings.SplitWithoutSeparator("ski", MoodSeparator);
    }
    assert ["ski"][..0] == [];
    assert Hits(["ski"], docs[0].category) == 0 && Hits(["ski"], docs[1].category) == 0;
    ScanOfTwoTrips(q, docs[0], docs[1]);
  }

  /** A query with nothing but the city admits every trip and scores it 100. */
  lemma CityOnlyQueryScoresAll(q: Query, d: Doc)
    requires q.moods == "" && q.startDate.None? && q.endDate.None?
    requires q.budget.None? && q.persons.None? && q.days.None? && q.accommodations.None?
    ensures Admitted(q, d) && Relevance(q, d) == 100.0
  {
    assert Earned(q, d) == Contributions(0.0, 0.0, 0.0, 0.0, 0.0);
    assert Possible(q) == 0.0;
  }

  // ---------------------------------------------------------------------------
  // The list function as it runs
  // ---------------------------------------------------------------------------

  /** The mood check: every token counts towards `moods_sum`, every token found
      in the category counts towards `moods_hit` and sets `toPush`. */
  method CheckMoods(tokens: seq<string>, category: seq<string>) returns (moodsSum: nat, moodsHit: nat, toPush: bool)
    ensures moodsSum == |tokens|
    ensures moodsHit == Hits(tokens, category)
    ensures toPush <==> exists i :: 0 <= i < |tokens| && tokens[i] in category
  {
    toPush := false;
    moodsSum, moodsHit := 0, 0;
    for k := 0 to |tokens|
      invariant moodsSum == k
      invariant moodsHit == Hits(tokens[..k], category)
      invariant toPush == (moodsHit > 0)
    {
      assert tokens[..k + 1][..k] == tokens[..k];
      moodsSum := moodsSum + 1;
      if tokens[k] in category {
        toPush := true;
        moodsHit := moodsHit + 1;
      }
    }
    assert tokens[..|tokens|] == tokens;
  }

  /** The summing loop over the relevance record's properties. */
  method SumRecord(rel: Contributions) returns (total: real)
    ensures total == Total(rel)
  {
    var entries := Entries(rel);
    total := 0.0;
    for k := 0 to |entries|
      invariant total == SumOf(entries[..k])
    {
      assert entries[..k + 1][..k] == entries[..k];
      total := total + entries[k];
    }
    assert entries[..|entries|] == entries;
    SumOfEntries(rel);
  }

  /** One threshold criterion: when the query carries it, `add` is the weight
      it adds to the possible relevance, and `entry` the weight it earns when
      the trip's value reaches the requested one. */
  method CheckThreshold(want: Option<int>, have: Option<int>, weight: real, earns: real)
    returns (entry: real, add: real)
    ensures entry == (if Reaches(want, have) then earns else 0.0)
    ensures add == WeightIf(want.Some?, weight)
  {
    entry, add := 0.0, 0.0;
    if want.Some? {
      add := weight;
      if have.Some? && want.value <= have.value {
        entry := earns;
      }
    }
  }

  /** The criteria checks for an admitted trip: each criterion the query
      carries adds its weight to the possible relevance and, when it hits,
      sets its entry of the relevance record. */
  method CheckCriteria(q: Query, d: Doc, moodsSum: nat, moodsHit: nat) returns (rel: Contributions, possible: real)
    requires q.moods != "" ==> moodsSum == |MoodTokens(q)| && moodsHit == Hits(MoodTokens(q), d.category)
    ensures rel == Earned(q, d)
    ensures possible == Possible(q)
  {
    possible := 0.0;
    var moods := 0.0;
    if q.moods != "" {
      possible := WeightMoods;
      moods := WeightMoods / (moodsSum as real) * (moodsHit as real);
    }
    var budget, addBudget := CheckThreshold(q.budget, d.budget, WeightBudget, WeightBudget);
    possible := possible + addBudget;
    var persons, addPersons := CheckThreshold(q.persons, d.budget, WeightPersons, WeightBudget);
    possible := possible + addPersons;
    var days, addDays := CheckThreshold(q.days, d.days, WeightDays, WeightDays);
    possible := possible + addDays;
    var accommodations, addAccommodations :=
      CheckThreshold(q.accommodations, d.accommodations, WeightAccommodations, WeightAccommodations);
    possible := possible + addAccommodations;
    rel := Contributions(moods, budget, persons, days, accommodations);
  }

  /** The loop body for one row whose key matched: the mood check, the date
      check, and for an admitted trip the relevance record, the possible
      relevance, the total and the zero-hit workaround. */
  method ScoreRow(q: Query, d: Doc) returns (toPush: bool, relevance: real)
    ensures toPush == Admitted(q, d)
    ensures toPush ==> relevance == Relevance(q, d)
  {
    toPush := true;
    var moodsSum, moodsHit := 0, 0;
    if q.moods != "" {
      moodsSum, moodsHit, toPush := CheckMoods(Strings.Split(q.moods, MoodSeparator), d.category);
    }
    assert toPush == MoodsPass(q, d);
    if toPush && q.startDate.Some? && q.endDate.Some? {
      if (d.startDate.Some? && q.startDate.value > d.startDate.value)
        || (d.endDate.Some? && q.endDate.value < d.endDate.value) {
        toPush := false;
      }
    }
    assert toPush == Admitted(q, d);
    relevance := 0.0;
    if toPush {
      var rel, possible := CheckCriteria(q, d, moodsSum, moodsHit);
      var total := SumRecord(rel);
      ghost var earned, reachable := total, possible;
      if total == 0.0 {
        total := 1.0;
        if possible == 0.0 {
          possible := 0.5;
        }
        possible := possible * 2.0;
      }
      relevance := total * 100.0 / possible;
      assert relevance == Score(earned, reachable);
      assert earned == Total(Earned(q, d)) && reachable == Possible(q);
    }
  }

  /** The list function: one pass over the rows, pushing every admitted trip
      of the query city with its relevance. */
  method SearchList(q: Query, rows: seq<Row>) returns (result: seq<Scored>)
    ensures result == Scan(q, rows)
  {
    result := [];
    var queryIsEmpty := IsEmptyQuery(q);
    var i := 0;
    while i < |rows|
      invariant 0 <= i <= |rows|
      invariant result == Scan(q, rows[..i])
    {
      var row := rows[i];
      assert rows[..i + 1][..i] == rows[..i] && rows[..i + 1][i] == row;
      assert Scan(q, rows[..i + 1]) == result + Step(q, row);
      ghost var before := result;
      if !queryIsEmpty && q.city == Some(row.key) {
        var toPush, relevance := ScoreRow(q, row.value);
        if toPush {
          result := result + [Scored(row.value, relevance)];
        }
      }
      assert result == before + Step(q, row);
      i := i + 1;
    }
    assert rows[..|rows|] == rows;
  }
}
