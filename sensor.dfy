/** The sensor predicates of the hardware binding layer. Each one reads the
    hardware once; the model takes that reading as its input. */
module Sensor {
  import opened Wrappers
  import Text

  /** `FourInfrared.readData()`: [left 1, left 2, right 2, right 1], true
      where the sensor sees the black line. */
  type LineStates = s: seq<bool> | |s| == 4 witness [false, false, false, false]

  /** `all(states)` and `any(states)`. */
  predicate All(states: seq<bool>) { forall i :: 0 <= i < |states| ==> states[i] }
  predicate Any(states: seq<bool>) { exists i :: 0 <= i < |states| && states[i] }

  /** `xunxian_zhong`: both middle sensors on the line; the car is then
      never reported off the line. */
  function XunxianZhong(states: LineStates): (r: bool)
    ensures r <==> Xunxian(states, 1) == Ok(true) && Xunxian(states, 2) == Ok(true)
    ensures r ==> !XunxianDuqu(states)
  {
    states[1] && states[2]
  }

  /** `xunxian_zuo`: the outer left sensor, channel 0 of `xunxian`. */
  function XunxianZuo(states: LineStates): (r: bool)
    ensures Xunxian(states, 0) == Ok(r)
  {
    states[0]
  }

  /** `xunxian_you`: the outer right sensor, channel 3 of `xunxian`. */
  function XunxianYou(states: LineStates): (r: bool)
    ensures Xunxian(states, 3) == Ok(r)
  {
    states[3]
  }

  /** `xunxian_kuaixian`: every sensor on the line (a crossing). */
  function XunxianKuaixian(states: LineStates): (r: bool)
    ensures r <==> states[0] && states[1] && states[2] && states[3]
  {
    All(states)
  }

  /** `xunxian_duqu`: no sensor on the line (the car has lost it). */
  function XunxianDuqu(states: LineStates): (r: bool)
    ensures r <==> !states[0] && !states[1] && !states[2] && !states[3]
  {
    !Any(states)
  }

  /** A crossing and a lost line exclude each other; a crossing implies
      every partial predicate and a lost line refutes each of them. */
  lemma LinePredicatesAgree(states: LineStates)
    ensures !(XunxianKuaixian(states) && XunxianDuqu(states))
    ensures XunxianKuaixian(states) ==> XunxianZhong(states) && XunxianZuo(states) && XunxianYou(states)
    ensures XunxianDuqu(states) ==> !XunxianZhong(states) && !XunxianZuo(states) && !XunxianYou(states)
  {
  }

  /** The module-level `xunxian(channel)`: a channel outside 0..3 raises
      ValueError; otherwise the reading of that channel. */
  function Xunxian(states: LineStates, channel: int): (r: Result<bool, PyError>)
    ensures r.Err? <==> channel < 0 || channel > 3
    ensures r.Err? ==> r.error == ValueError("巡线传感器通道号无效: " + Text.IntToDecimal(channel) + "，范围应为0-3")
    ensures r.Ok? ==> r.value == states[channel]
  {
    if channel < 0 || channel > 3 then
      Err(ValueError("巡线传感器通道号无效: " + Text.IntToDecimal(channel) + "，范围应为0-3"))
    else
      Ok(states[channel])
  }

  /** The outer channels agree with the side predicates. */
  lemma ChannelsMatchSides(states: LineStates)
    ensures Xunxian(states, 0) == Ok(XunxianZuo(states))
    ensures Xunxian(states, 3) == Ok(XunxianYou(states))
    ensures Xunxian(states, 1).Ok? && Xunxian(states, 2).Ok?
    ensures XunxianZhong(states) <==> Xunxian(states, 1) == Ok(true) && Xunxian(states, 2) == Ok(true)
  {
  }

  /** `heshengbo_fuzhi(distance)`: the current sonar reading (mm) is strictly
      below the threshold. */
  function HeshengboFuzhi(currentMm: int, thresholdMm: int): (r: bool)
    ensures r <==> currentMm < thresholdMm
    ensures r <==> currentMm as real / 10.0 < thresholdMm as real / 10.0
  {
    currentMm < thresholdMm
  }

  /** The answer is true exactly below the threshold: raising the threshold
      never turns a true answer false, and a reading equal to the threshold
      is not below it. */
  lemma HeshengboFuzhiMonotone(currentMm: int, low: int, high: int)
    requires low <= high
    ensures HeshengboFuzhi(currentMm, low) ==> HeshengboFuzhi(currentMm, high)
    ensures !HeshengboFuzhi(high, high) && HeshengboFuzhi(high - 1, high)
  {
  }

  /** `dianchi`: `Board.getBattery()` in millivolts, as volts; the reading
      in millivolts is recovered exactly. */
  function Dianchi(adcMv: int): (volts: real)
    ensures volts * 1000.0 == adcMv as real
  {
    adcMv as real / 1000.0
  }

  /** `dianchi_dian`: the voltage is below 3.5 V, that is, the reading is
      below 3500 mV. */
  function DianchiDian(adcMv: int): (r: bool)
    ensures r <==> adcMv < 3500
  {
    Dianchi(adcMv) < 3.5
  }
}
