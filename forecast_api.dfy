/**
 * The forecast endpoint: choosing the store a product's history comes
 * from, and turning the forecasting engine's predictions into the
 * response record (the horizon's points, the three derived figures, the
 * date window and the urgency status).
 */
module ForecastApi {
  import opened Wrappers
  import opened Schema

  /**
   * The two history stores: one table per product, keyed by product id
   * (present when that product's file exists), and the optional combined
   * table of every product.
   */
  datatype Stores = Stores(perProduct: map<string, seq<SalesRow>>, combined: Option<seq<SalesRow>>)

  /** The rows of `rows` whose product id is `productId`, in their original order. */
  function RowsFor(rows: seq<SalesRow>, productId: string): (r: seq<SalesRow>)
    ensures |r| <= |rows|
    ensures forall row :: row in r <==> row in rows && row.productId == productId
  {
    if rows == [] then []
    else if rows[0].productId == productId then [rows[0]] + RowsFor(rows[1..], productId)
    else RowsFor(rows[1..], productId)
  }

  /** Filtering distributes over concatenation, so the original order of the rows is kept. */
  lemma {:induction false} RowsForAppend(a: seq<SalesRow>, b: seq<SalesRow>, productId: string)
    ensures RowsFor(a + b, productId) == RowsFor(a, productId) + RowsFor(b, productId)
  {
    if a != [] {
      assert (a + b)[1..] == a[1..] + b;
      RowsForAppend(a[1..], b, productId);
    } else {
      assert a + b == b;
    }
  }

  /**
   * The history of a product: its own table if that exists, otherwise the
   * combined table filtered by id, otherwise nothing; an empty selection
   * is not found either.
   */
  function LoadProductData(stores: Stores, productId: string): (r: Option<seq<SalesRow>>)
    ensures r.Some? ==> r.value != []
    ensures productId in stores.perProduct ==>
      r == if stores.perProduct[productId] == [] then None else Some(stores.perProduct[productId])
    ensures productId !in stores.perProduct && stores.combined.Some? ==>
      r == if RowsFor(stores.combined.value, productId) == [] then None
           else Some(RowsFor(stores.combined.value, productId))
    ensures productId !in stores.perProduct && stores.combined.None? ==> r == None
  {
    var df :=
      if productId in stores.perProduct then Some(stores.perProduct[productId])
      else if stores.combined.Some? then Some(RowsFor(stores.combined.value, productId))
      else None;
    if df.None? || df.value == [] then None else df
  }

  /** The combined table is never consulted when the product has its own table. */
  lemma PerProductShadowsCombined(perProduct: map<string, seq<SalesRow>>, c1: Option<seq<SalesRow>>,
                                  c2: Option<seq<SalesRow>>, productId: string)
    requires productId in perProduct
    ensures LoadProductData(Stores(perProduct, c1), productId) == LoadProductData(Stores(perProduct, c2), productId)
    ensures perProduct[productId] == [] ==> LoadProductData(Stores(perProduct, c1), productId) == None
  {
  }

  /**
   * A product found only in the combined table loads exactly as if it had
   * its own table holding its rows of the combined table.
   */
  lemma FallbackEquivalence(stores: Stores, productId: string)
    requires productId !in stores.perProduct && stores.combined.Some?
    ensures LoadProductData(stores, productId)
         == LoadProductData(Stores(stores.perProduct[productId := RowsFor(stores.combined.value, productId)],
                                   stores.combined), productId)
  {
  }

  /** The seasonalities the engine is configured with. */
  datatype Seasonality = Seasonality(daily: bool, yearly: bool)

  /** The endpoint fits with both daily and yearly seasonality. */
  const ProphetSeasonality := Seasonality(daily := true, yearly := true)

  /** One observation handed to the engine: the renamed (ds, y) columns. */
  datatype Observation = Observation(ds: int, y: int)

  /** One predicted row: its date, point estimate and uncertainty bounds. */
  datatype Prediction = Prediction(ds: int, yhat: real, yhatLower: real, yhatUpper: real)

  /**
   * The forecasting engine, left uninterpreted: given the seasonality,
   * the history and a number of future periods, the predicted rows for the
   * history's dates followed by the future ones.
   */
  type Engine = (Seasonality, seq<Observation>, nat) -> seq<Prediction>

  /** The engine's contract: asked for `d` future periods it predicts at least `d` rows. */
  ghost predicate CoversHorizon(engine: Engine) {
    forall s, h, d: nat :: d <= |engine(s, h, d)|
  }

  /** The history projected onto the (ds, y) form the engine fits, order kept. */
  function History(rows: seq<SalesRow>): (h: seq<Observation>)
    ensures |h| == |rows|
    ensures forall i :: 0 <= i < |h| ==> h[i].ds == rows[i].date && h[i].y == rows[i].unitsSold
  {
    seq(|rows|, i requires 0 <= i < |rows| => Observation(rows[i].date, rows[i].unitsSold))
  }

  /** `tail(k)`: the last `k` rows, or all of them when there are fewer. */
  function Tail<T>(s: seq<T>, k: nat): (r: seq<T>)
    ensures |r| == if |s| < k then |s| else k
    ensures r == s[|s| - |r|..]
  {
    if |s| <= k then s else s[|s| - k..]
  }

  /** The point estimates of a run of predictions. */
  function Yhats(points: seq<Prediction>): (ys: seq<real>)
    ensures |ys| == |points|
    ensures forall i :: 0 <= i < |ys| ==> ys[i] == points[i].yhat
  {
    seq(|points|, i requires 0 <= i < |points| => points[i].yhat)
  }

  function Sum(xs: seq<real>): real {
    if xs == [] then 0.0 else xs[0] + Sum(xs[1..])
  }

  lemma {:induction false} SumNonNegative(xs: seq<real>)
    requires forall i :: 0 <= i < |xs| ==> 0.0 <= xs[i]
    ensures 0.0 <= Sum(xs)
  {
    if xs != [] {
      SumNonNegative(xs[1..]);
    }
  }

  function Mean(xs: seq<real>): real
    requires xs != []
  {
    Sum(xs) / |xs| as real
  }

  /** Python's `int(x)` on a number: truncation toward zero. */
  function Trunc(x: real): (n: int)
    ensures 0.0 <= x ==> 0 <= n && n as real <= x < n as real + 1.0
    ensures x < 0.0 ==> n <= 0 && n as real - 1.0 < x <= n as real
  {
    if 0.0 <= x then x.Floor else -((-x).Floor)
  }

  /** The reorder point: a 20% buffer over the mean daily demand, truncated. */
  function ReorderPointFor(averageSales: real): (n: int)
    ensures 0.0 <= averageSales ==> 0 <= n && n as real <= averageSales * 1.2 < n as real + 1.0
    ensures averageSales < 0.0 ==> n <= 0 && n as real - 1.0 < averageSales * 1.2 <= n as real
  {
    Trunc(averageSales * 1.2)
  }

  datatype Status = Critical | Safe

  /** The status as the response spells it. */
  function StatusName(s: Status): string {
    match s
    case Critical => "critical"
    case Safe => "safe"
  }

  function UrgencyFor(currentStock: int, reorderPoint: int): (s: Status)
    ensures s == Critical <==> currentStock < reorderPoint
  {
    if currentStock < reorderPoint then Critical else Safe
  }

  /** Stock exactly at the reorder point is safe, and the status is named by one of two words. */
  lemma UrgencyAtThreshold(currentStock: int, reorderPoint: int)
    ensures currentStock == reorderPoint ==> UrgencyFor(currentStock, reorderPoint) == Safe
    ensures StatusName(UrgencyFor(currentStock, reorderPoint)) in {"critical", "safe"}
  {
  }

  const NotFoundMessage := "404: Product data not found"

  /**
   * What the endpoint returns: the not-found payload, the server error the
   * web framework sends when fitting raises, or a forecast record.
   */
  datatype Response =
    | NotFound(error: string)
    | ServerError
    | Forecast(productId: string, productName: string, forecast: seq<Prediction>,
               averageSales: real, totalSales: int, reorderPoint: int,
               startDate: int, endDate: int, status: Status)

  /** The bounds the endpoint declares for its query parameters, and their defaults. */
  const MinDays := 1
  const MaxDays := 180
  const MinCurrentStock := 0
  const DefaultDays := 30
  const DefaultCurrentStock := 0

  /**
   * The query validation that runs before anything else: a horizon of 1 to
   * 180 days and a non-negative stock; anything else is rejected, not
   * clamped.
   */
  predicate AcceptedQuery(days: int, currentStock: int): (ok: bool)
    ensures ok <==> 1 <= days <= 180 && 0 <= currentStock
  {
    MinDays <= days <= MaxDays && MinCurrentStock <= currentStock
  }

  /** A request that leaves out `days` and `current_stock` gets a 30-day horizon and zero stock, which are accepted. */
  lemma DefaultQueryAccepted()
    ensures AcceptedQuery(DefaultDays, DefaultCurrentStock)
    ensures DefaultDays == 30 && DefaultCurrentStock == 0
  {
  }

  /** Fitting refuses a history with fewer non-missing rows than this. */
  const MinFitRows := 2

  /** The three figures derived from the kept points. */
  datatype Figures = Figures(averageSales: real, totalSales: int, reorderPoint: int)

  /**
   * The mean of the point estimates, their sum truncated, and the
   * reorder point derived from the mean.
   */
  function FiguresOf(future: seq<Prediction>): (f: Figures)
    requires future != []
    ensures f.averageSales == Mean(Yhats(future)) && f.averageSales * |future| as real == Sum(Yhats(future))
    ensures f.totalSales == Trunc(Sum(Yhats(future)))
    ensures f.reorderPoint == Trunc(f.averageSales * 1.2)
  {
    var averageSales := Mean(Yhats(future));
    var reorderPoint := ReorderPointFor(averageSales);
    assert reorderPoint == Trunc(averageSales * 1.2);
    Figures(averageSales, Trunc(Sum(Yhats(future))), reorderPoint)
  }

  /**
   * `r` is the forecast for `rows` over `days` days from `today`: the last
   * `days` predictions of the engine, their mean, their sum truncated, the
   * reorder point and the stock status.
   */
  ghost predicate IsForecastOf(r: Response, productId: string, rows: seq<SalesRow>, days: nat,
                               currentStock: int, today: int, engine: Engine)
  {
    var prediction := engine(ProphetSeasonality, History(rows), days);
    && rows != [] && 0 < days <= |prediction|
    && r.Forecast?
    && r.productId == productId
    && r.productName == rows[0].product
    && |r.forecast| == days
    && r.forecast == prediction[|prediction| - days..]
    && r.averageSales == Mean(Yhats(r.forecast))
    && r.totalSales == Trunc(Sum(Yhats(r.forecast)))
    && r.reorderPoint == Trunc(r.averageSales * 1.2)
    && r.startDate == today
    && r.endDate - r.startDate == days - 1
    && (r.status == Critical <==> currentStock < r.reorderPoint)
  }

  /**
   * The forecast endpoint. `today` is the wall-clock date as a day number;
   * `engine` stands for fitting and predicting with the forecasting library,
   * which raises on a history of fewer than two rows.
   */
  function ForecastProphet(stores: Stores, productId: string, days: int, currentStock: int,
                           today: int, engine: Engine): (r: Response)
    requires AcceptedQuery(days, currentStock)
    requires CoversHorizon(engine)
    ensures r.NotFound? <==> LoadProductData(stores, productId).None?
    ensures r.NotFound? ==> r == NotFound(NotFoundMessage)
    ensures r.ServerError? <==>
      LoadProductData(stores, productId).Some? && |LoadProductData(stores, productId).value| < MinFitRows
    ensures r.Forecast? ==>
      IsForecastOf(r, productId, LoadProductData(stores, productId).value, days, currentStock, today, engine)
  {
    match LoadProductData(stores, productId)
    case None => NotFound(NotFoundMessage)
    case Some(rows) =>
      if |rows| < MinFitRows then ServerError
      else ForecastFrom(productId, rows, days, currentStock, today, engine)
  }

  /** The forecast response for a product whose sales rows were found. */
  function ForecastFrom(productId: string, rows: seq<SalesRow>, days: int, currentStock: int,
                        today: int, engine: Engine): (r: Response)
    requires rows != []
    requires AcceptedQuery(days, currentStock)
    requires CoversHorizon(engine)
    ensures IsForecastOf(r, productId, rows, days, currentStock, today, engine)
  {
    var prediction := engine(ProphetSeasonality, History(rows), days);
    assert days <= |prediction|;
    var future := Tail(prediction, days);
    var figures := FiguresOf(future);
    Forecast(productId, rows[0].product, future, figures.averageSales, figures.totalSales,
             figures.reorderPoint, today, today + days - 1, UrgencyFor(currentStock, figures.reorderPoint))
  }

  /**
   * Point `i` of the forecast is the prediction for day `i` of the horizon:
   * the history's fitted values are dropped.
   */
  lemma ForecastIsFuturePart(stores: Stores, productId: string, days: int, currentStock: int,
                             today: int, engine: Engine, i: int)
    requires AcceptedQuery(days, currentStock) && CoversHorizon(engine)
    requires ForecastProphet(stores, productId, days, currentStock, today, engine).Forecast?
    requires 0 <= i < days
    ensures
      var rows := LoadProductData(stores, productId).value;
      var prediction := engine(ProphetSeasonality, History(rows), days);
      ForecastProphet(stores, productId, days, currentStock, today, engine).forecast[i]
        == prediction[|prediction| - days + i]
  {
  }

  /**
   * With non-negative point estimates, the three figures are
   * non-negative, the total is the sum truncated down, and the reorder
   * point is 1.2 times the average truncated down.
   */
  lemma NonNegativeFigures(future: seq<Prediction>)
    requires future != []
    requires forall i :: 0 <= i < |future| ==> 0.0 <= future[i].yhat
    ensures var f := FiguresOf(future);
      && 0.0 <= f.averageSales && 0 <= f.totalSales && 0 <= f.reorderPoint
      && f.totalSales as real <= f.averageSales * |future| as real < f.totalSales as real + 1.0
      && f.reorderPoint as real <= f.averageSales * 1.2 < f.reorderPoint as real + 1.0
  {
    var f := FiguresOf(future);
    SumNonNegative(Yhats(future));
    FigureBounds(f.averageSales, |future| as real, Sum(Yhats(future)), f.totalSales, f.reorderPoint);
  }

  /** The bounds on the three figures, stated over plain numbers. */
  lemma FigureBounds(average: real, days: real, sum: real, total: int, reorderPoint: int)
    requires 0.0 < days && average * days == sum && 0.0 <= sum
    requires total == Trunc(sum) && reorderPoint == Trunc(average * 1.2)
    ensures 0.0 <= average && 0 <= total && 0 <= reorderPoint
    ensures total as real <= average * days < total as real + 1.0
    ensures reorderPoint as real <= average * 1.2 < reorderPoint as real + 1.0
  {
    if average < 0.0 {
      NegativeTimesPositive(average, days);
    }
  }

  lemma NegativeTimesPositive(a: real, n: real)
    requires a < 0.0 < n
    ensures a * n < 0.0
  {
  }

  /** A product found only in the combined table is forecast as if it had its own table. */
  lemma ForecastFallbackEquivalence(stores: Stores, productId: string, days: int, currentStock: int,
                                    today: int, engine: Engine)
    requires AcceptedQuery(days, currentStock) && CoversHorizon(engine)
    requires productId !in stores.perProduct && stores.combined.Some?
    ensures
      var own := Stores(stores.perProduct[productId := RowsFor(stores.combined.value, productId)], stores.combined);
      ForecastProphet(stores, productId, days, currentStock, today, engine)
        == ForecastProphet(own, productId, days, currentStock, today, engine)
  {
    FallbackEquivalence(stores, productId);
  }

  /** The keys of a forecast payload. */
  const ForecastKeys: set<string> := {"product_id", "product_name", "forecast", "average_sales",
                                      "total_sales", "reorder_point", "start_date", "end_date", "status"}

  /** One forecast point as a JSON record. */
  function PointPayload(p: Prediction): Json {
    JObject(map["ds" := JDay(p.ds), "yhat" := JNumber(p.yhat),
                "yhat_lower" := JNumber(p.yhatLower), "yhat_upper" := JNumber(p.yhatUpper)])
  }

  /** The forecast points as a JSON array's items, one record per point, in order. */
  function PointsPayload(ps: seq<Prediction>): (items: seq<Json>)
    ensures |items| == |ps|
    ensures forall i :: 0 <= i < |ps| ==> items[i] == PointPayload(ps[i])
  {
    seq(|ps|, i requires 0 <= i < |ps| => PointPayload(ps[i]))
  }

  /**
   * The response as the JSON object the endpoint sends: the error payload
   * carries the one key "error" and nothing else; a forecast carries its
   * nine fields and no "error".
   */
  function ToPayload(r: Response): (p: Payload)
    requires !r.ServerError?
    ensures "error" in p <==> r.NotFound?
    ensures r.NotFound? ==> p.Keys == {"error"} && p["error"] == JString(r.error)
    ensures r.Forecast? ==> p.Keys == ForecastKeys
    ensures r.Forecast? ==>
      && p["reorder_point"] == JInt(r.reorderPoint)
      && p["status"] == JString(StatusName(r.status))
      && p["forecast"].JArray? && |p["forecast"].items| == |r.forecast|
  {
    match r
    case NotFound(error) => map["error" := JString(error)]
    case Forecast(productId, productName, forecast, averageSales, totalSales, reorderPoint,
                  startDate, endDate, status) =>
      map["product_id" := JString(productId),
          "product_name" := JString(productName),
          "forecast" := JArray(PointsPayload(forecast)),
          "average_sales" := JNumber(averageSales),
          "total_sales" := JInt(totalSales),
          "reorder_point" := JInt(reorderPoint),
          "start_date" := JDay(startDate),
          "end_date" := JDay(endDate),
          "status" := JString(StatusName(status))]
  }

  /** The status a name spells, if it is one of the two the endpoint sends. */
  function StatusFromName(name: string): (s: Option<Status>)
    ensures s.Some? ==> StatusName(s.value) == name
  {
    if name == "critical" then Some(Critical)
    else if name == "safe" then Some(Safe)
    else None
  }

  /** A forecast point read back from its JSON record, if the record has that shape. */
  function PointFromJson(j: Json): (p: Option<Prediction>)
    ensures p.Some? ==> PointPayload(p.value) == j
  {
    if && j.JObject? && j.fields.Keys == {"ds", "yhat", "yhat_lower", "yhat_upper"}
       && j.fields["ds"].JDay? && j.fields["yhat"].JNumber?
       && j.fields["yhat_lower"].JNumber? && j.fields["yhat_upper"].JNumber?
    then
      var p := Prediction(j.fields["ds"].day, j.fields["yhat"].number,
                          j.fields["yhat_lower"].number, j.fields["yhat_upper"].number);
      assert PointPayload(p).fields == j.fields;
      Some(p)
    else None
  }

  /** The forecast points read back from a JSON array's items; None if any record is malformed. */
  function PointsFromJson(items: seq<Json>): (ps: Option<seq<Prediction>>)
    ensures ps.Some? ==> PointsPayload(ps.value) == items
  {
    if items == [] then Some([])
    else
      var head := PointFromJson(items[0]);
      var tail := PointsFromJson(items[1..]);
      if head.None? || tail.None? then None
      else
        PointsPayloadCons(head.value, tail.value);
        assert [items[0]] + items[1..] == items;
        Some([head.value] + tail.value)
  }

  lemma PointsPayloadCons(p: Prediction, rest: seq<Prediction>)
    ensures PointsPayload([p] + rest) == [PointPayload(p)] + PointsPayload(rest)
  {
    var left, right := PointsPayload([p] + rest), [PointPayload(p)] + PointsPayload(rest);
    assert |left| == |right|;
    forall i | 0 <= i < |left|
      ensures left[i] == right[i]
    {
      if i > 0 {
        assert ([p] + rest)[i] == rest[i - 1];
      }
    }
  }

  /**
   * A payload read back as a response, if it has the shape of one the
   * endpoint sends: the single key "error" holding text, or the nine
   * forecast keys holding values of their types.
   */
  function FromPayload(p: Payload): (r: Option<Response>)
    ensures r.Some? ==> !r.value.ServerError? && ToPayload(r.value) == p
  {
    if "error" in p then
      if p.Keys == {"error"} && p["error"].JString? then
        var r := NotFound(p["error"].text);
        assert ToPayload(r).Keys == p.Keys;
        Some(r)
      else None
    else if && p.Keys == ForecastKeys
            && p["product_id"].JString? && p["product_name"].JString?
            && p["forecast"].JArray? && PointsFromJson(p["forecast"].items).Some?
            && p["average_sales"].JNumber? && p["total_sales"].JInt? && p["reorder_point"].JInt?
            && p["start_date"].JDay? && p["end_date"].JDay?
            && p["status"].JString? && StatusFromName(p["status"].text).Some?
    then
      var r := Forecast(p["product_id"].text, p["product_name"].text, PointsFromJson(p["forecast"].items).value,
                        p["average_sales"].number, p["total_sales"].integer, p["reorder_point"].integer,
                        p["start_date"].day, p["end_date"].day, StatusFromName(p["status"].text).value);
      assert ToPayload(r).Keys == p.Keys;
      Some(r)
    else None
  }

  /** Every point record reads back as the point it was made from. */
  lemma {:induction false} PointsRoundTrip(ps: seq<Prediction>)
    ensures PointsFromJson(PointsPayload(ps)) == Some(ps)
  {
    if ps != [] {
      var items := PointsPayload(ps);
      assert items[1..] == PointsPayload(ps[1..]);
      PointsRoundTrip(ps[1..]);
      assert PointFromJson(items[0]) == Some(ps[0]);
      assert [ps[0]] + ps[1..] == ps;
    }
  }

  /**
   * Every value the response carries reaches the client: reading a
   * not-found or forecast payload back gives the response it was made from.
   */
  lemma PayloadRoundTrip(r: Response)
    requires !r.ServerError?
    ensures FromPayload(ToPayload(r)) == Some(r)
  {
    if r.Forecast? {
      PointsRoundTrip(r.forecast);
    }
  }

  /**
   * What a client reads back as JSON: the payload, or nothing for a server
   * error, whose plain-text body is not JSON.
   */
  function Reply(r: Response): (reply: Option<Payload>)
    ensures reply.None? <==> r.ServerError?
    ensures reply.Some? ==> ("error" in reply.value <==> r.NotFound?)
  {
    if r.ServerError? then None else Some(ToPayload(r))
  }
}
