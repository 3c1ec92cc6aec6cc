# Demand forecasting: a verified model of the orchestration logic

This project models in Dafny the parts of the demand-forecasting system that hold original logic. The statistical libraries it drives are not modelled.

- **Forecast endpoint** (`api/app.py`), in `forecast_api.dfy`. Store selection picks the per-product table first. Otherwise it falls back to the combined table filtered by product id, or reports that no data was found. The forecast keeps the last `days` predicted rows. From them it derives the average, the truncated total and the reorder point `int(avg * 1.2)`. It also gives the date window `[today, today + days - 1]`, the `critical`/`safe` status and the JSON payload. A history too short to fit ends in a server error. The forecasting engine is a function parameter whose only promise is to return at least `days` rows. The wall clock is the parameter `today`.
- **Dashboard** (`dashboard/streamlit_app.py`), in `dashboard.dfy` and `pystr.dfy`. It covers the `"name (id)"` dropdown labels and how a label is parsed back into an id (`split("(")[-1].strip(")")` or `strip()`). It covers how the name is recovered with `replace`, the confidence polygon `ds ++ reverse(ds)` against `upper ++ reverse(lower)`, the reorder line, and the gate that drops any payload with an `"error"` key. `pystr.dfy` gives Python's `strip` and `split(sep)[-1]` their exact semantics, and `replace` its exact semantics for a non-empty pattern (Python's `replace("", x)`, which inserts `x` between characters, is not modelled; the dashboard's pattern is never empty).
- **LSTM training windows** (`src/lstm_model.py`), in `lstm_sequences.dfy`. This is the `prepare_sequences` loop, with the min-max scaler as an arbitrary length-preserving function.
- **Inventory formulas** (`src/inventory_optimization.py`), in `inventory.dfy`. They are exact arithmetic over `real`.
- **Metadata generation** (`src/generate_metadata.py`), in `metadata.dfy`. This is `drop_duplicates` over `(product_id, product)` pairs: first occurrences are kept in order, and the reported count is the number of distinct pairs. A missing source table fails with `FileNotFoundError`.
- **Calendar features** (`src/feature_engineering.py`), in `features.dfy`. A `Frame` class is changed in place by `AddTimeFeatures`, which adds `day_of_week` (Monday 0), `month` and `is_weekend`.

Shared records live in `schema.dfy` and the Option/Result types in `wrappers.dfy`.

Points worth knowing about the code's behaviour:

- The total is `int(sum)` and the reorder point is `int(avg * 1.2)`. Both truncate toward zero.
- Out-of-range `days` and `current_stock` are rejected by the query validation, not clamped.
- The metadata table is unique per `(product_id, product)` pair, not per `product_id`. One id listed under two names keeps two rows.
- The metadata table keeps the order of first appearance.
- Fitting needs at least two rows of history. A product with a single row ends in a server error, and the dashboard then shows no chart.

## Model

| member | source | states |
|---|---|---|
| ForecastApi.RowsFor | api/app.py:33-34 | the filtered rows are exactly the combined rows with the requested product id |
| ForecastApi.RowsForAppend | api/app.py:34 | filtering distributes over concatenation, so the rows keep their original order |
| ForecastApi.LoadProductData | api/app.py:26-41 | the per-product table is used whenever it exists. Otherwise the filtered combined table is used, otherwise nothing. An empty selection is None, and any result is non-empty |
| ForecastApi.PerProductShadowsCombined | api/app.py:30-31 | with a per-product table, the combined table does not affect the result, and an empty per-product table yields None |
| ForecastApi.FallbackEquivalence | api/app.py:30-39 | a product found only in the combined table loads as if it had its own table with those rows |
| ForecastApi.History | api/app.py:57-59 | the engine receives the (date, units_sold) series in the original order, one observation per row |
| ForecastApi.Tail | api/app.py:71 | `tail(k)` is the suffix of length min(k, n) |
| ForecastApi.Trunc | api/app.py:75-76 | `int(x)` truncates toward zero: for x ≥ 0, n ≤ x < n+1; for x < 0, n−1 < x ≤ n |
| ForecastApi.ReorderPointFor | api/app.py:75 | for a non-negative average, the reorder point is the largest integer ≤ 1.2 × average. For a negative one, it is the smallest integer ≥ 1.2 × average |
| ForecastApi.UrgencyFor | api/app.py:83 | the status is critical exactly when the stock is below the reorder point |
| ForecastApi.AcceptedQuery | api/app.py:47-48 | a query is accepted exactly when 1 ≤ days ≤ 180 and stock ≥ 0 |
| ForecastApi.DefaultQueryAccepted | api/app.py:47-48 | the defaults, 30 days and zero stock, are themselves accepted |
| ForecastApi.UrgencyAtThreshold | api/app.py:83 | stock equal to the reorder point gives safe, and the status name is "critical" or "safe" |
| ForecastApi.ForecastProphet | api/app.py:44-98 | not-found iff no data is loaded, and then the response is exactly the 404 message. Server error iff the loaded history has fewer than two rows, which fitting refuses. Otherwise the response is the forecast of the loaded rows (`IsForecastOf`): the last `days` predictions, exactly `days` entries, average = mean of the kept estimates, total = trunc(sum), reorder point = trunc(average × 1.2), start = today, end − start = days − 1, and critical iff stock < reorder point |
| ForecastApi.ForecastFrom | api/app.py:60-98 | for found rows, the response is a forecast of the last `days` predictions, named after the first row, with average = mean, total = trunc(sum), reorder point = trunc(average × 1.2), a `days`-long date window from today, and critical iff stock < reorder point |
| ForecastApi.FiguresOf | api/app.py:74-76 | the average is the mean, so average × n = sum; the total is trunc(sum) and the reorder point trunc(average × 1.2) |
| ForecastApi.ForecastIsFuturePart | api/app.py:67-71 | forecast point i is prediction n − days + i, so the fitted history is dropped |
| ForecastApi.NonNegativeFigures | api/app.py:74-76 | with non-negative predictions, all three figures are non-negative, total ≤ average × n < total + 1, and reorder point ≤ 1.2 × average < reorder point + 1 |
| ForecastApi.FigureBounds | api/app.py:74-76 | the truncation bounds of the total and the reorder point, in terms of the average and the horizon |
| ForecastApi.ForecastFallbackEquivalence | api/app.py:52-60 | a product present only in the combined table is forecast exactly as if it had its own table |
| ForecastApi.ToPayload | api/app.py:54-98 | the not-found payload has the single key "error", which holds the message. A forecast payload has exactly the nine response keys, none of them "error", and carries the reorder point, the status name and one record per forecast point |
| ForecastApi.PointsPayload | api/app.py:86 | one JSON record per forecast point, in order, each built from its own point |
| ForecastApi.StatusFromName | api/app.py:83 | a status read back from its name spells that name |
| ForecastApi.PointFromJson | api/app.py:86 | a record read back as a point is exactly that point's JSON record |
| ForecastApi.PointsFromJson | api/app.py:86 | records read back as points are exactly those points' JSON records, in order |
| ForecastApi.FromPayload | api/app.py:54-98 | a payload read back as a response is exactly that response's payload, and is never a server error |
| ForecastApi.PointsRoundTrip | api/app.py:86 | each point's record reads back as that point, by induction over the horizon |
| ForecastApi.PayloadRoundTrip | api/app.py:54-98 | reading back a not-found or forecast payload gives the response it was made from, so every key carries its own value: id, name, each point, average, total, reorder point, both dates and status |
| ForecastApi.Reply | api/app.py:54-98 | a client gets no JSON exactly for a server error. Otherwise it gets the payload, which holds "error" exactly for not-found |
| ForecastApi.SumNonNegative | api/app.py:76 | a sum of non-negative predictions is non-negative |
| Dashboard.Label | dashboard/streamlit_app.py:17 | the label is the name followed by " (id)", three characters longer than name and id together |
| Dashboard.LoadProductDetails | dashboard/streamlit_app.py:13-19 | one label per metadata row, in order, and none when the table is missing |
| Dashboard.ExtractProductId | dashboard/streamlit_app.py:22-25 | with both brackets present, the id is the text after the last "(" with the runs of ")" at both ends removed (`IsBracketedId`), and it holds no "(". Otherwise it is the whitespace-stripped input |
| Dashboard.BracketedId | dashboard/streamlit_app.py:24 | the id is a slice of the text after the last "(". Only ")" lies around it, it neither starts nor ends with ")", and it holds no "(" |
| Dashboard.BracketedIdUnique | dashboard/streamlit_app.py:24 | that description fixes the id: two texts that meet it are equal |
| Dashboard.ExtractWithoutBrackets | dashboard/streamlit_app.py:25 | without both brackets, only surrounding whitespace is removed, and an input without it is returned unchanged |
| Dashboard.ExtractLabelRoundTrip | dashboard/streamlit_app.py:17-24 | the label of a row whose id has no brackets parses back to that id |
| Dashboard.StripClosingBracket | dashboard/streamlit_app.py:24 | `(id + ")").strip(")")` is id when id holds no ")" |
| Dashboard.AfterLastAppended | dashboard/streamlit_app.py:24 | `split("(")[-1]` of a text ending in "(" followed by a bracket-free suffix is that suffix |
| Dashboard.ProductName | dashboard/streamlit_app.py:104 | the recovered name is never longer than the label, and a label without " (id)" is returned unchanged |
| Dashboard.ProductNameRoundTrip | dashboard/streamlit_app.py:104 | removing " (id)" from the label recovers the name, when the name does not contain " (id)" and the id holds no ")" |
| Dashboard.SelectionRoundTrip | dashboard/streamlit_app.py:100-104 | choosing a label recovers both the id and the name of its metadata row |
| Dashboard.ConfidenceBand | dashboard/streamlit_app.py:59-66 | the band has 2n vertices. Vertex i is (ds_i, upper_i), and vertex 2n−1−i is (ds_i, lower_i) |
| Dashboard.Backwards | dashboard/streamlit_app.py:60-61 | `[::-1]` puts element n−1−i at position i |
| Dashboard.ReorderLine | dashboard/streamlit_app.py:69-73 | the line has one point per forecast row, all equal to the reorder point |
| Dashboard.GetForecast | dashboard/streamlit_app.py:30-41 | None iff the call raised or the payload has an "error" key. Otherwise the payload is passed on unchanged |
| Dashboard.GatePassesOnlyForecasts | dashboard/streamlit_app.py:30-41 | the gate passes exactly the endpoint's forecast responses. Not-found payloads and server errors are dropped, and each payload it passes holds every key the dashboard then reads |
| Dashboard.DashboardRequestsAccepted | dashboard/streamlit_app.py:107-110 | the slider range [7, 90] and the stock minimum 0 lie inside the endpoint's accepted query range |
| Dashboard.ChosenProductIsForecast | dashboard/streamlit_app.py:103-115 | for an id free of brackets and of the query-string characters `& # + %`, choosing a row's label requests that row's id. A chart is shown iff that product has at least two rows of history |
| PyStr.LStrip | dashboard/streamlit_app.py:24 | `lstrip` removes the longest prefix made of the given characters |
| PyStr.RStrip | dashboard/streamlit_app.py:24 | `rstrip` removes the longest suffix made of the given characters |
| PyStr.Strip | dashboard/streamlit_app.py:24-25 | the result is a slice of the input with only stripped characters around it and none at its ends (`IsStrippedOf`). It is empty iff the input consists of stripped characters only, and an input with clean ends is unchanged |
| PyStr.StrippedMiddle | dashboard/streamlit_app.py:24-25 | what `lstrip` then `rstrip` leave meets that slice description |
| PyStr.StrippedUnique | dashboard/streamlit_app.py:24-25 | the slice description fixes the stripped text: at most one text meets it |
| PyStr.AfterLast | dashboard/streamlit_app.py:24 | `split(sep)[-1]` is the longest sep-free suffix |
| PyStr.Replace | dashboard/streamlit_app.py:104 | replacing with a text no longer than the pattern never lengthens the input, and every character of the result comes from the input or the replacement |
| PyStr.ReplaceAbsent | dashboard/streamlit_app.py:104 | `replace` of a pattern that does not occur leaves the text unchanged |
| PyStr.RemoveAppended | dashboard/streamlit_app.py:104 | removing a pattern from text + pattern gives back the text, when the text is free of the pattern and the pattern's last character is unique in it |
| PyStr.NoMatchAtFront | dashboard/streamlit_app.py:104 | under the same conditions, no occurrence starts before the appended pattern |
| LstmSequences.AsFloats | src/lstm_model.py:22 | the sales become floats element by element |
| LstmSequences.PrepareSequences | src/lstm_model.py:20-31 | for a non-empty series, which the scaler requires, there are max(0, n − look_back) windows and as many targets. Window i is scaled[i..i+look_back] with length look_back, and target i is scaled[i+look_back] |
| LstmSequences.WindowSlides | src/lstm_model.py:28-30 | window i+1 is window i without its first value, followed by target i |
| InventoryOptimization.ReorderPoint | src/inventory_optimization.py:1-2 | with non-negative usage and lead time, the reorder point is at least the safety stock |
| InventoryOptimization.SafetyStock | src/inventory_optimization.py:4-5 | the safety stock is ≥ 0 whenever the maxima bound non-negative averages |
| InventoryOptimization.ReorderPointBySafetyStock | src/inventory_optimization.py:1-2 | with zero safety stock, the reorder point is the lead-time demand, and it rises one-for-one with safety stock |
| InventoryOptimization.SafetyStockNonNegative | src/inventory_optimization.py:4-5 | the safety stock is ≥ 0 when the maxima bound non-negative averages, and 0 when they are equal |
| InventoryOptimization.DemandOrdered | src/inventory_optimization.py:4-5 | when the maxima bound non-negative averages, worst-case lead-time demand is at least average lead-time demand |
| InventoryOptimization.ReorderPointCoversWorstCase | src/inventory_optimization.py:1-5 | the average lead-time demand plus that safety stock equals the worst-case lead-time demand |
| GenerateMetadata.Pairs | src/generate_metadata.py:13 | the (product_id, product) columns, row by row |
| GenerateMetadata.FirstIndex | src/generate_metadata.py:13 | the first position of a value: it is there, and nowhere before |
| GenerateMetadata.DropDuplicates | src/generate_metadata.py:13 | there are no duplicates, and the values are exactly the input's values |
| GenerateMetadata.FirstIndexInPrefix | src/generate_metadata.py:13 | a first occurrence inside a prefix is the first occurrence in the whole |
| GenerateMetadata.DropDuplicatesKeepsFirstOrder | src/generate_metadata.py:13 | the kept values are in the order of their first occurrence in the input |
| GenerateMetadata.DistinctCount | src/generate_metadata.py:17 | a duplicate-free table has as many rows as distinct values |
| GenerateMetadata.Generate | src/generate_metadata.py:5-17 | a missing source table yields FileNotFoundError with its message and no table. Otherwise the metadata file is written with the de-duplicated pairs in first-occurrence order (`DropDuplicates`, whose order `DropDuplicatesKeepsFirstOrder` proves). That table is duplicate-free with exactly the input's pairs, and the reported count is the number of distinct pairs |
| GenerateMetadata.SameIdTwoNamesKeepsBoth | src/generate_metadata.py:13 | de-duplication works on pairs, so one id under two names keeps two rows |
| FeatureEngineering.DayOfWeek | src/feature_engineering.py:2 | the day of the week lies in 0..6 |
| FeatureEngineering.EpochIsThursday | src/feature_engineering.py:2 | 1970-01-01 is day 0 of the count and a Thursday (3) |
| FeatureEngineering.WeekendAnchors | src/feature_engineering.py:2-4 | 2024-01-06 and 2024-01-07 are a Saturday (5) and a Sunday (6), the two days the weekend flag marks |
| FeatureEngineering.NextDate | src/feature_engineering.py:2 | the day after a valid date is a valid date |
| FeatureEngineering.NextDayNextWeekday | src/feature_engineering.py:2 | for every valid date, including the last day of a month, of February and of a year, the next date is one day later in the count and falls on the next weekday mod 7. With `EpochIsThursday` this fixes the weekday of every date |
| FeatureEngineering.MarchYearLength | src/feature_engineering.py:2 | a March-based year has 365 days, plus one when the February that ends it is a leap February |
| FeatureEngineering.EraEnd | src/feature_engineering.py:2 | the last year of a 400-year era has 366 days |
| FeatureEngineering.WithinEra | src/feature_engineering.py:2 | inside an era, a year has 366 days exactly when the Gregorian leap rule says so |
| FeatureEngineering.MonthStep | src/feature_engineering.py:2 | the first of each month other than March follows the last day of the month before |
| FeatureEngineering.WeekendFlag | src/feature_engineering.py:4 | the flag is 0 or 1, and it is 1 iff the day of the week is 5 or 6 |
| FeatureEngineering.DayOfWeekColumn | src/feature_engineering.py:2 | one day-of-week value in 0..6 per date |
| FeatureEngineering.MonthColumn | src/feature_engineering.py:3 | one month per date, the date's own month |
| FeatureEngineering.IsWeekendColumn | src/feature_engineering.py:4 | one 0/1 value per row, and it is 1 exactly for 5 and 6 |
| FeatureEngineering.FeatureRanges | src/feature_engineering.py:2-4 | for valid dates, months lie in 1..12 and the weekend flag marks exactly Saturdays and Sundays |
| FeatureEngineering.Frame.constructor | src/feature_engineering.py:1 | a new frame holds the given columns and height and is rectangular |
| FeatureEngineering.AddTimeFeatures | src/feature_engineering.py:1-5 | the caller's frame itself is returned. Exactly the three feature columns are added or overwritten, other columns and the height are unchanged, and the frame stays rectangular |

## Left out

- Fitting and predicting with the forecasting library (`api/app.py:62-68`) are left out. It is third-party statistics over floating point. The engine is an uninterpreted function parameter whose only assumed property is that it returns at least `days` rows, as `make_future_dataframe(periods=days)` guarantees.
- ForecastApi.ForecastProphet: numbers are exact reals and `1.2` is exactly 6/5, so IEEE rounding of the average and of `avg * 1.2` is not modelled. Dates are day numbers, and their `%Y-%m-%d` formatting is not modelled.
- ForecastApi.ForecastProphet: the source reads the clock twice, once for `start_date` and once for `end_date` (api/app.py:79-80). The model reads it once, through the single parameter `today`. So a request that crosses midnight between the two reads, where `end_date - start_date` is `days`, is not modelled, and `endDate - startDate == days - 1` always holds in the model.
- ForecastApi.ForecastProphet: the query validation is a precondition (`AcceptedQuery`). The 422 response is the web framework's and is not modelled.
- The in-place `rename(..., inplace=True)` and `df["ds"] = ...` (`api/app.py:58-59`) act on a private copy. They are modelled as the projection `History`, because no caller can observe them.
- File reads, writes and `os.path.exists` are abstracted. A store is an optional table, and the per-product files are a map keyed by product id. Path construction from the product id is not modelled.
- The HTTP request, JSON decoding and the web framework's app and CORS setup are left out. Any exception during the call is the `None` reply.
- Dashboard.ChosenProductIsForecast: `get_forecast` (`dashboard/streamlit_app.py:31`) pastes the product id into the URL unescaped. An id holding `&`, `#`, `+` or `%` reaches the endpoint altered (for example "A&B" arrives as "A"). URL encoding is not modelled, so the lemma requires an id without those characters (`QuerySafe`).
- ForecastApi.ForecastProphet: the only way fitting fails in this model is a history of fewer than two rows. Other ways the forecasting library can raise, such as missing values or a constant series, are not modelled. Beyond that, the engine is a total function.
- The defaults `days=30` and `current_stock=0` (`api/app.py:47-48`) are constants checked by `DefaultQueryAccepted`. The dashboard always sends both parameters.
- Dashboard.GetForecast: the `st.error` messages it shows are not modelled, only the None/payload result.
- The Streamlit layout, caching, spinner and text, and the Plotly styling and trace objects, are left out. The band and reorder line are modelled as the series handed to the plot.
- The `LSTMModel` network and its `hidden_cell` state are torch machinery and are left out. The `MinMaxScaler` is an arbitrary length-preserving function.
- LstmSequences.PrepareSequences: the min-max scaler raises on an empty series, and the method requires a non-empty one instead of modelling the exception. `look_back` is a natural number, so Python's behaviour for a negative `look_back` is not covered. The results are sequences rather than float tensors, and the fitted scaler is not returned.
- FeatureEngineering.AddTimeFeatures: it requires a datetime `date` column. The source raises on a missing or non-datetime column, and that error path is not modelled.
- FeatureEngineering.AddTimeFeatures: `Frame.columns` is a map, so the order of the columns is not modelled. pandas appends `day_of_week`, `month` and `is_weekend` after the existing columns.
- The `print` of the metadata generator is modelled only through the count it reports.
- `src/prophet_model.py`, `src/data_preprocessing.py` and `src/utils.py` duplicate the endpoint's loading and fitting on top of the same libraries, so they are not part of this model.
