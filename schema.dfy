/**
 * The records that flow between the components: rows of the historical
 * sales table, rows of the product metadata table, and the JSON values the
 * forecast endpoint sends to the dashboard.
 */
module Schema {
  /** One row of the historical sales table. Dates are day numbers. */
  datatype SalesRow = SalesRow(date: int, productId: string, product: string, unitsSold: int)

  /** One row of the product metadata table: a (product_id, product) pair. */
  datatype ProductPair = ProductPair(productId: string, product: string)

  /**
   * A decoded JSON value. Dates travel as `JDay` day numbers; their
   * "%Y-%m-%d" text form is not modelled.
   */
  datatype Json =
    | JString(text: string)
    | JInt(integer: int)
    | JNumber(number: real)
    | JDay(day: int)
    | JArray(items: seq<Json>)
    | JObject(fields: map<string, Json>)

  /** A JSON object, as the endpoint returns it and the dashboard decodes it. */
  type Payload = map<string, Json>
}
