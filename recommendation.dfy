/** The recommendation heuristic run when the dashboard mounts: pick the gas
    point with the lowest price by a left fold, report its time as the optimal
    transaction time, and turn its price into one of three advisory messages. */
module Recommendation {
  import opened MockData

  // The longer messages are written as two concatenated literals, and Advice
  // begins by naming a character or length of each, so that the verifier can
  // tell the three messages apart; the texts are those the dashboard shows.
  const ExcellentAdvice: string := "Excellent time to execute transactions! " + "Gas prices are low."
  const GoodAdvice: string := "Good time to execute non-urgent transactions."
  const DelayAdvice: string := "Consider delaying non-critical " + "smart contract interactions."

  /** Failure of the heuristic: `reduce` without an initial value throws on an
      empty array. */
  datatype Error = EmptyGasData

  datatype Result<T> = Ok(value: T) | Err(error: Error)

  /** What the mount effect stores: the optimal transaction time and the
      cost-saving recommendation. */
  datatype Advisory = Advisory(optimalTime: int, costSavingRecommendation: string)

  /** The reducer: keeps the accumulated point only when it is strictly
      cheaper, so on equal prices the current (later) point replaces it. */
  function Cheaper(prev: GasPoint, current: GasPoint): GasPoint {
    if prev.gasPrice < current.gasPrice then prev else current
  }

  /** `gasData.reduce(Cheaper)`: a left fold seeded with the first point. */
  function LowestGasEntry(gasData: seq<GasPoint>): (r: GasPoint)
    requires |gasData| > 0
    ensures r in gasData
    ensures forall p :: p in gasData ==> r.gasPrice <= p.gasPrice
  {
    if |gasData| == 1 then gasData[0]
    else
      var init := gasData[..|gasData| - 1];
      assert gasData == init + [gasData[|gasData| - 1]];
      Cheaper(LowestGasEntry(init), gasData[|gasData| - 1])
  }

  /** Index k holds the minimum price and every later point is strictly
      dearer: k is the last index at which the minimum occurs. */
  predicate IsLastMinimum(gasData: seq<GasPoint>, k: int) {
    && 0 <= k < |gasData|
    && (forall j :: 0 <= j < |gasData| ==> gasData[k].gasPrice <= gasData[j].gasPrice)
    && (forall j :: k < j < |gasData| ==> gasData[k].gasPrice < gasData[j].gasPrice)
  }

  /** The fold selects the last occurrence of the minimum price. */
  lemma {:induction false} LowestIsLastMinimum(gasData: seq<GasPoint>)
    requires |gasData| > 0
    ensures exists k :: IsLastMinimum(gasData, k) && LowestGasEntry(gasData) == gasData[k]
  {
    var n := |gasData|;
    if n == 1 {
      assert IsLastMinimum(gasData, 0);
    } else {
      var init := gasData[..n - 1];
      var last := gasData[n - 1];
      assert LowestGasEntry(gasData) == Cheaper(LowestGasEntry(init), last);
      LowestIsLastMinimum(init);
      var k :| IsLastMinimum(init, k) && LowestGasEntry(init) == init[k];
      assert forall j :: 0 <= j < n - 1 ==> init[j] == gasData[j];
      if init[k].gasPrice < last.gasPrice {
        assert IsLastMinimum(gasData, k);
      } else {
        forall j | 0 <= j < n
          ensures last.gasPrice <= gasData[j].gasPrice
        {
          if j < n - 1 {
            assert init[k].gasPrice <= init[j].gasPrice;
          }
        }
        assert IsLastMinimum(gasData, n - 1);
      }
    }
  }

  /** At most one index is the last minimum, so the selected point is
      determined by its position. */
  lemma LastMinimumUnique(gasData: seq<GasPoint>, k1: int, k2: int)
    requires IsLastMinimum(gasData, k1) && IsLastMinimum(gasData, k2)
    ensures k1 == k2
  {
    assert gasData[k1].gasPrice <= gasData[k2].gasPrice && gasData[k2].gasPrice <= gasData[k1].gasPrice;
  }

  /** The three-way threshold classification of the lowest price. */
  function Advice(lowestGasPrice: int): (m: string)
    ensures m == ExcellentAdvice <==> lowestGasPrice < 20
    ensures m == GoodAdvice <==> 20 <= lowestGasPrice < 35
    ensures m == DelayAdvice <==> 35 <= lowestGasPrice
  {
    assert ExcellentAdvice[0] == 'E' && DelayAdvice[0] == 'C' && |GoodAdvice| < |DelayAdvice| == |ExcellentAdvice|;
    if lowestGasPrice < 20 then ExcellentAdvice
    else if lowestGasPrice < 35 then GoodAdvice
    else DelayAdvice
  }

  /** The heuristic over one gas series: the time and advice of the last
      cheapest point, or the failure `reduce` raises on an empty series. */
  function Recommend(gasData: seq<GasPoint>): (r: Result<Advisory>)
    ensures r.Err? <==> |gasData| == 0
    ensures r.Ok? ==> exists k :: (IsLastMinimum(gasData, k)
      && r.value.optimalTime == gasData[k].time
      && r.value.costSavingRecommendation == Advice(gasData[k].gasPrice))
  {
    if |gasData| == 0 then Err(EmptyGasData)
    else
      LowestIsLastMinimum(gasData);
      var lowest := LowestGasEntry(gasData);
      Ok(Advisory(lowest.time, Advice(lowest.gasPrice)))
  }

  /** Read over the whole series: the advice is "excellent" exactly when some
      point is below 20, and "delay" exactly when every point is 35 or more. */
  lemma {:induction false} RecommendAdviceOverSeries(gasData: seq<GasPoint>)
    requires |gasData| > 0
    ensures Recommend(gasData).Ok?
    ensures Recommend(gasData).value.costSavingRecommendation == ExcellentAdvice
      <==> exists j :: 0 <= j < |gasData| && gasData[j].gasPrice < 20
    ensures Recommend(gasData).value.costSavingRecommendation == DelayAdvice
      <==> forall j :: 0 <= j < |gasData| ==> 35 <= gasData[j].gasPrice
  {
    var advice := Recommend(gasData).value.costSavingRecommendation;
    var k :| (IsLastMinimum(gasData, k)
      && Recommend(gasData).value.optimalTime == gasData[k].time
      && advice == Advice(gasData[k].gasPrice));
    var lowest := gasData[k].gasPrice;
    if advice == ExcellentAdvice {
      assert lowest < 20;
    }
    if exists j :: 0 <= j < |gasData| && gasData[j].gasPrice < 20 {
      var j :| 0 <= j < |gasData| && gasData[j].gasPrice < 20;
      assert lowest <= gasData[j].gasPrice;
    }
    if advice == DelayAdvice {
      assert 35 <= lowest;
    }
    if forall j :: 0 <= j < |gasData| ==> 35 <= gasData[j].gasPrice {
      assert 35 <= lowest;
    }
  }

  /** The mount effect: generate the bundle, then run the heuristic on its gas
      series. On generated data the heuristic never fails, the optimal time is
      one of the 25 hourly stamps, and the advice matches the minimum price. */
  method MountEffect(now: int, draws: seq<real>) returns (data: Bundle, advisory: Advisory)
    requires ValidDraws(draws)
    ensures data == MockBundle(now, draws)
    ensures exists k :: (IsLastMinimum(data.gasData, k)
      && advisory.optimalTime == StampAt(now, k)
      && advisory.costSavingRecommendation == Advice(data.gasData[k].gasPrice))
    ensures now - WindowHours * HourMillis <= advisory.optimalTime <= now
  {
    data := Generate(now, draws);
    var r := Recommend(data.gasData);
    advisory := r.value;
    var k :| (IsLastMinimum(data.gasData, k)
      && advisory.optimalTime == data.gasData[k].time
      && advisory.costSavingRecommendation == Advice(data.gasData[k].gasPrice));
    assert advisory.optimalTime == StampAt(now, k);
    StampInWindow(now, k);
  }

  /** Ties go to the later point, as the reducer is written: with prices
      25, 15, 15 the third point's time is reported, not the second's, and
      15 is below the first threshold. */
  lemma TieGoesToLaterPoint(t1: int, t2: int, t3: int)
    ensures Recommend([GasPoint(t1, 25, 0.0), GasPoint(t2, 15, 0.0), GasPoint(t3, 15, 0.0)])
      == Ok(Advisory(t3, ExcellentAdvice))
  {
    var s := [GasPoint(t1, 25, 0.0), GasPoint(t2, 15, 0.0), GasPoint(t3, 15, 0.0)];
    assert s[..2][..1] == [s[0]];
    assert s[..2] == [s[0], s[1]];
  }
}
