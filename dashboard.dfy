/**
 * The dashboard's own logic: the dropdown labels and how a label is
 * parsed back into a product id and a name, the chart's confidence band
 * and reorder line, and the gate that drops error payloads.
 */
module Dashboard {
  import opened Wrappers
  import opened Schema
  import opened PyStr
  import opened ForecastApi

  /** A dropdown label: `"name (id)"`. */
  function Label(p: ProductPair): (text: string)
    ensures |text| == |p.product| + |p.productId| + 3
    ensures text[..|p.product|] == p.product
    ensures text[|p.product|..] == " (" + p.productId + ")"
  {
    p.product + " (" + p.productId + ")"
  }

  /** The labels of the metadata table, one per row in table order; none when the table is missing. */
  function LoadProductDetails(metadata: Option<seq<ProductPair>>): (labels: seq<string>)
    ensures metadata.None? ==> labels == []
    ensures metadata.Some? ==> |labels| == |metadata.value|
    ensures metadata.Some? ==> forall i :: 0 <= i < |labels| ==> labels[i] == Label(metadata.value[i])
  {
    match metadata
    case None => []
    case Some(rows) => seq(|rows|, i requires 0 <= i < |rows| => Label(rows[i]))
  }

  /**
   * The product id in a dropdown label. With both brackets present it is
   * the text after the last "(" with ")" stripped from both ends, so it
   * holds no "("; otherwise it is the label with its surrounding
   * whitespace stripped.
   */
  function ExtractProductId(selection: string): (id: string)
    ensures '(' in selection && ')' in selection ==> IsBracketedId(selection, id)
    ensures '(' in selection && ')' in selection ==> '(' !in id
    ensures !('(' in selection && ')' in selection) ==> id == Strip(selection, Whitespace)
  {
    if '(' in selection && ')' in selection then BracketedId(selection)
    else Strip(selection, Whitespace)
  }

  /**
   * `id` is what `split("(")[-1].strip(")")` leaves: a slice of the text
   * after the last "(" with only ")" around it, and no ")" at either end.
   */
  ghost predicate IsBracketedId(selection: string, id: string) {
    IsStrippedOf(AfterLast(selection, '('), {')'}, id)
  }

  /** `split("(")[-1].strip(")")`: the text after the last "(", closing brackets stripped. */
  function BracketedId(selection: string): (id: string)
    ensures IsBracketedId(selection, id)
    ensures '(' !in id
  {
    var tail := AfterLast(selection, '(');
    var id := Strip(tail, {')'});
    assert '(' !in tail;
    id
  }

  /** At most one text meets the description of a bracketed id. */
  lemma BracketedIdUnique(selection: string, x: string, y: string)
    requires IsBracketedId(selection, x) && IsBracketedId(selection, y)
    ensures x == y
  {
    StrippedUnique(AfterLast(selection, '('), {')'}, x, y);
  }

  /** Without both brackets, only the label's surrounding whitespace is removed. */
  lemma ExtractWithoutBrackets(selection: string)
    requires !('(' in selection && ')' in selection)
    ensures var id := ExtractProductId(selection);
      && (id != [] ==> id[0] !in Whitespace && id[|id| - 1] !in Whitespace)
      && (selection == [] || (selection[0] !in Whitespace && selection[|selection| - 1] !in Whitespace) ==> id == selection)
  {
    assert ExtractProductId(selection) == Strip(selection, Whitespace);
  }

  /** The text after the last separator is the part added after that separator. */
  lemma {:induction false} AfterLastAppended(prefix: string, sep: char, suffix: string)
    requires sep !in suffix
    ensures AfterLast(prefix + [sep] + suffix, sep) == suffix
    decreases |suffix|
  {
    var s := prefix + [sep] + suffix;
    if suffix != [] {
      var front := suffix[..|suffix| - 1];
      assert s[..|s| - 1] == prefix + [sep] + front;
      AfterLastAppended(prefix, sep, front);
      assert suffix == front + [suffix[|suffix| - 1]];
    }
  }

  /** Stripping ")" from an id followed by its closing bracket gives back the id. */
  lemma StripClosingBracket(id: string)
    requires ')' !in id
    ensures Strip(id + ")", {')'}) == id
  {
    var rs := {')'};
    var l := LStrip(id + ")", rs);
    if id == [] {
      assert l == [];
    } else {
      assert (id + ")")[0] == id[0];
      assert l == id + ")";
      assert (id + ")")[..|id|] == id;
      assert RStrip(id, rs) == id;
    }
  }

  /** A label built from an id free of brackets parses back to that id. */
  lemma ExtractLabelRoundTrip(p: ProductPair)
    requires '(' !in p.productId && ')' !in p.productId
    ensures ExtractProductId(Label(p)) == p.productId
  {
    var id := p.productId;
    var text := Label(p);
    assert text == (p.product + " ") + ['('] + (id + ")");
    assert text[|text| - 1] == ')' && text[|p.product| + 1] == '(';
    assert '(' in text && ')' in text;
    assert ExtractProductId(text) == Strip(AfterLast(text, '('), {')'});
    AfterLastAppended(p.product + " ", '(', id + ")");
    StripClosingBracket(id);
  }

  /** The product name the dashboard shows: the label with `" (id)"` removed. */
  function ProductName(selection: string, productId: string): (name: string)
    ensures |name| <= |selection|
    ensures !Occurs(" (" + productId + ")", selection) ==> name == selection
  {
    var pat := " (" + productId + ")";
    if Occurs(pat, selection) then Replace(selection, pat, "")
    else
      ReplaceAbsent(selection, pat, "");
      Replace(selection, pat, "")
  }

  /**
   * Removing `" (id)"` from a label gives back the name, provided the name
   * does not itself contain `" (id)"` and the id holds no ")".
   */
  lemma ProductNameRoundTrip(p: ProductPair)
    requires ')' !in p.productId
    requires !Occurs(" (" + p.productId + ")", p.product)
    ensures ProductName(Label(p), p.productId) == p.product
  {
    var pat := " (" + p.productId + ")";
    assert pat[..|pat| - 1] == " (" + p.productId;
    assert Label(p) == p.product + pat;
    RemoveAppended(p.product, pat);
  }

  /** Choosing a label recovers both halves of the metadata row it was built from. */
  lemma SelectionRoundTrip(p: ProductPair)
    requires '(' !in p.productId && ')' !in p.productId
    requires !Occurs(" (" + p.productId + ")", p.product)
    ensures ExtractProductId(Label(p)) == p.productId
    ensures ProductName(Label(p), ExtractProductId(Label(p))) == p.product
  {
    ExtractLabelRoundTrip(p);
    ProductNameRoundTrip(p);
  }

  /** The chart's confidence polygon. */
  datatype Band = Band(xs: seq<int>, ys: seq<real>)

  /** `s[::-1]`. */
  function Backwards<T>(s: seq<T>): (r: seq<T>)
    ensures |r| == |s|
    ensures forall i :: 0 <= i < |s| ==> r[i] == s[|s| - 1 - i]
  {
    seq(|s|, i requires 0 <= i < |s| => s[|s| - 1 - i])
  }

  function Dates(points: seq<Prediction>): (ds: seq<int>)
    ensures |ds| == |points| && forall i :: 0 <= i < |ds| ==> ds[i] == points[i].ds
  {
    seq(|points|, i requires 0 <= i < |points| => points[i].ds)
  }

  function Uppers(points: seq<Prediction>): (ys: seq<real>)
    ensures |ys| == |points| && forall i :: 0 <= i < |ys| ==> ys[i] == points[i].yhatUpper
  {
    seq(|points|, i requires 0 <= i < |points| => points[i].yhatUpper)
  }

  function Lowers(points: seq<Prediction>): (ys: seq<real>)
    ensures |ys| == |points| && forall i :: 0 <= i < |ys| ==> ys[i] == points[i].yhatLower
  {
    seq(|points|, i requires 0 <= i < |points| => points[i].yhatLower)
  }

  /**
   * The band: the dates forwards then backwards against the upper bounds
   * forwards then the lower bounds backwards. Vertex `i` and vertex
   * `2n - 1 - i` stand on the date of point `i`, at its upper and its
   * lower bound.
   */
  function ConfidenceBand(points: seq<Prediction>): (b: Band)
    ensures |b.xs| == |b.ys| == 2 * |points|
    ensures forall i :: 0 <= i < |points| ==>
      && b.xs[i] == points[i].ds && b.ys[i] == points[i].yhatUpper
      && b.xs[2 * |points| - 1 - i] == points[i].ds && b.ys[2 * |points| - 1 - i] == points[i].yhatLower
  {
    var ds := Dates(points);
    Mirrored(ds, ds);
    Mirrored(Uppers(points), Lowers(points));
    Band(ds + Backwards(ds), Uppers(points) + Backwards(Lowers(points)))
  }

  /** `a` followed by `b` reversed: position `i` holds `a[i]`, position `2n - 1 - i` holds `b[i]`. */
  lemma Mirrored<T>(a: seq<T>, b: seq<T>)
    requires |a| == |b|
    ensures |a + Backwards(b)| == 2 * |a|
    ensures forall i :: 0 <= i < |a| ==> (a + Backwards(b))[i] == a[i]
    ensures forall i :: 0 <= i < |a| ==> (a + Backwards(b))[2 * |a| - 1 - i] == b[i]
  {
  }

  /** The reorder line: one point per forecast date, all at the reorder point. */
  function ReorderLine(points: seq<Prediction>, reorderPoint: int): (line: seq<int>)
    ensures |line| == |points|
    ensures forall i :: 0 <= i < |line| ==> line[i] == reorderPoint
  {
    seq(|points|, _ => reorderPoint)
  }

  /**
   * The forecast call. `reply` is the decoded JSON object, or None when the
   * request or the decoding raised; a payload with an "error" key is
   * dropped too, anything else is passed on unchanged.
   */
  function GetForecast(reply: Option<Payload>): (data: Option<Payload>)
    ensures data.Some? <==> reply.Some? && "error" !in reply.value
    ensures data.Some? ==> data.value == reply.value
  {
    match reply
    case None => None
    case Some(payload) => if "error" in payload then None else Some(payload)
  }

  /**
   * The gate passes exactly the forecast responses of the endpoint, and
   * what it passes holds every key the dashboard reads afterwards.
   */
  lemma GatePassesOnlyForecasts(r: Response)
    ensures GetForecast(Reply(r)).Some? <==> r.Forecast?
    ensures GetForecast(Reply(r)).Some? ==>
      var data := GetForecast(Reply(r)).value;
      && "forecast" in data && "reorder_point" in data && "start_date" in data && "end_date" in data
      && "product_name" in data && "product_id" in data && "average_sales" in data
      && "total_sales" in data && "status" in data
  {
  }

  /** The horizon slider's range and the stock input's minimum. */
  const SliderMinDays := 7
  const SliderMaxDays := 90
  const MinStock := 0

  /** Every request the dashboard can make lies inside the endpoint's accepted range. */
  lemma DashboardRequestsAccepted(days: int, currentStock: int)
    requires SliderMinDays <= days <= SliderMaxDays && MinStock <= currentStock
    ensures AcceptedQuery(days, currentStock)
  {
  }

  /**
   * The id is pasted into the query string unescaped, so it reaches the
   * endpoint unchanged only when it holds none of the characters a query
   * string gives a meaning to.
   */
  predicate QuerySafe(id: string) {
    forall i :: 0 <= i < |id| ==> id[i] !in {'&', '#', '+', '%'}
  }

  /**
   * End to end: choosing the label of a metadata row asks the endpoint for
   * that row's product id, and a chart is drawn exactly when that product
   * has at least the two rows of history fitting needs.
   */
  lemma ChosenProductIsForecast(stores: Stores, p: ProductPair, days: int, currentStock: int,
                                today: int, engine: Engine)
    requires '(' !in p.productId && ')' !in p.productId && QuerySafe(p.productId)
    requires SliderMinDays <= days <= SliderMaxDays && MinStock <= currentStock
    requires CoversHorizon(engine)
    ensures
      var id := ExtractProductId(Label(p));
      && id == p.productId
      && AcceptedQuery(days, currentStock)
      && (GetForecast(Reply(ForecastProphet(stores, id, days, currentStock, today, engine))).Some?
          <==> LoadProductData(stores, p.productId).Some? && |LoadProductData(stores, p.productId).value| >= MinFitRows)
  {
    ExtractLabelRoundTrip(p);
    DashboardRequestsAccepted(days, currentStock);
    GatePassesOnlyForecasts(ForecastProphet(stores, p.productId, days, currentStock, today, engine));
  }
}
