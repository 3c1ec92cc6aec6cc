/**
 * The textbook inventory formulas: reorder point and safety stock, as
 * exact arithmetic over the reals.
 */
module InventoryOptimization {

  /** Demand over the lead time plus the safety stock. */
  function ReorderPoint(avgDailyUsage: real, leadTimeDays: real, safetyStock: real): (r: real)
    ensures 0.0 <= avgDailyUsage && 0.0 <= leadTimeDays ==> safetyStock <= r
  {
    avgDailyUsage * leadTimeDays + safetyStock
  }

  /** Worst-case demand over the worst-case lead time minus average demand over the average lead time. */
  function SafetyStock(maxDailyUsage: real, maxLeadTime: real, avgDailyUsage: real, avgLeadTime: real): (r: real)
    ensures 0.0 <= avgDailyUsage <= maxDailyUsage && 0.0 <= avgLeadTime <= maxLeadTime ==> 0.0 <= r
  {
    DemandOrdered(maxDailyUsage, maxLeadTime, avgDailyUsage, avgLeadTime);
    maxDailyUsage * maxLeadTime - avgDailyUsage * avgLeadTime
  }

  /**
   * Without safety stock the reorder point is the lead-time demand, and
   * each extra unit of safety stock raises it by one unit.
   */
  lemma ReorderPointBySafetyStock(avgDailyUsage: real, leadTimeDays: real, safetyStock: real, extra: real)
    ensures ReorderPoint(avgDailyUsage, leadTimeDays, 0.0) == avgDailyUsage * leadTimeDays
    ensures ReorderPoint(avgDailyUsage, leadTimeDays, safetyStock + extra)
         == ReorderPoint(avgDailyUsage, leadTimeDays, safetyStock) + extra
  {
  }

  /**
   * When the maxima bound the averages and everything is non-negative,
   * the safety stock is non-negative; with equal pairs it is zero.
   */
  lemma SafetyStockNonNegative(maxDailyUsage: real, maxLeadTime: real, avgDailyUsage: real, avgLeadTime: real)
    requires 0.0 <= avgDailyUsage <= maxDailyUsage
    requires 0.0 <= avgLeadTime <= maxLeadTime
    ensures 0.0 <= SafetyStock(maxDailyUsage, maxLeadTime, avgDailyUsage, avgLeadTime)
    ensures maxDailyUsage == avgDailyUsage && maxLeadTime == avgLeadTime ==>
      SafetyStock(maxDailyUsage, maxLeadTime, avgDailyUsage, avgLeadTime) == 0.0
  {
  }

  /** When the maxima bound non-negative averages, worst-case lead-time demand bounds average lead-time demand. */
  lemma DemandOrdered(maxDailyUsage: real, maxLeadTime: real, avgDailyUsage: real, avgLeadTime: real)
    ensures 0.0 <= avgDailyUsage <= maxDailyUsage && 0.0 <= avgLeadTime <= maxLeadTime ==>
      avgDailyUsage * avgLeadTime <= maxDailyUsage * maxLeadTime
  {
    if 0.0 <= avgDailyUsage <= maxDailyUsage && 0.0 <= avgLeadTime <= maxLeadTime {
      MultiplyMonotone(avgDailyUsage, maxDailyUsage, maxLeadTime);
      MultiplyMonotone(avgLeadTime, maxLeadTime, avgDailyUsage);
    }
  }

  /** Multiplying by a non-negative factor keeps the order. */
  lemma MultiplyMonotone(a: real, b: real, c: real)
    requires a <= b && 0.0 <= c
    ensures a * c <= b * c && c * a <= c * b
  {
  }

  /**
   * Stocking at the average lead-time demand plus the safety stock computed
   * for the same averages covers exactly the worst-case lead-time demand.
   */
  lemma ReorderPointCoversWorstCase(maxDailyUsage: real, maxLeadTime: real, avgDailyUsage: real, avgLeadTime: real)
    ensures ReorderPoint(avgDailyUsage, avgLeadTime, SafetyStock(maxDailyUsage, maxLeadTime, avgDailyUsage, avgLeadTime))
         == maxDailyUsage * maxLeadTime
  {
  }
}
