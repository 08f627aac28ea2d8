/**
 * `estimate_realistic_aqi`, the labelling formula nested in the training
 * routine: each of four pollutants scaled by its weight and kept within
 * [0, 300], and the largest of the four taken.
 */
module AqiTraining {

  /** `min(300, max(0, x))` */
  function Saturate(x: real): (r: real)
    ensures 0.0 <= r <= 300.0
    ensures 0.0 <= x <= 300.0 ==> r == x
    ensures x < 0.0 ==> r == 0.0
    ensures x > 300.0 ==> r == 300.0
  {
    var lower := if 0.0 < x then x else 0.0;
    if lower < 300.0 then lower else 300.0
  }

  function Max(a: real, b: real): real
  {
    if a < b then b else a
  }

  /** `estimate_realistic_aqi`: the largest of the four saturated pollutant terms. */
  function EstimateRealisticAqi(pm2_5: real, pm10: real, no2: real, o3: real): (aqi: real)
    ensures 0.0 <= aqi <= 300.0
    ensures aqi == 300.0 <==> pm2_5 >= 150.0 || pm10 >= 200.0 || no2 >= 150.0 || o3 >= 250.0
    ensures aqi == 0.0 <==> pm2_5 <= 0.0 && pm10 <= 0.0 && no2 <= 0.0 && o3 <= 0.0
    ensures aqi >= Saturate(pm2_5 * 2.0) && aqi >= Saturate(pm10 * 1.5)
    ensures aqi >= Saturate(no2 * 2.0) && aqi >= Saturate(o3 * 1.2)
    ensures aqi == Saturate(pm2_5 * 2.0) || aqi == Saturate(pm10 * 1.5)
         || aqi == Saturate(no2 * 2.0) || aqi == Saturate(o3 * 1.2)
  {
    Max(Max(Max(Saturate(pm2_5 * 2.0), Saturate(pm10 * 1.5)), Saturate(no2 * 2.0)), Saturate(o3 * 1.2))
  }

  /** Saturating a larger value never gives less. */
  lemma SaturateMonotone(x: real, y: real)
    requires x <= y
    ensures Saturate(x) <= Saturate(y)
  {
  }

  /** More of any pollutant never lowers the estimate. */
  lemma EstimateMonotone(pm2_5: real, pm10: real, no2: real, o3: real,
                         pm2_5': real, pm10': real, no2': real, o3': real)
    requires pm2_5 <= pm2_5' && pm10 <= pm10' && no2 <= no2' && o3 <= o3'
    ensures EstimateRealisticAqi(pm2_5, pm10, no2, o3) <= EstimateRealisticAqi(pm2_5', pm10', no2', o3')
  {
    SaturateMonotone(pm2_5 * 2.0, pm2_5' * 2.0);
    SaturateMonotone(pm10 * 1.5, pm10' * 1.5);
    SaturateMonotone(no2 * 2.0, no2' * 2.0);
    SaturateMonotone(o3 * 1.2, o3' * 1.2);
  }
}
