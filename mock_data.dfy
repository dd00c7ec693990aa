/** The mock metrics generator of the gas fee dashboard.
    The random source is injected as a stream of draws in [0, 1), consumed in
    the order the generator asks for them, and "now" is an integer number of
    milliseconds, so that generation is deterministic. */
module MockData {

  /** One hour in milliseconds: the spacing of the series. */
  const HourMillis: int := 3_600_000
  /** The loop counter starts here: the oldest point is this many hours ago. */
  const WindowHours: int := 24
  /** Points in each series: hours WindowHours .. 0 ago inclusive. */
  const PointCount: int := WindowHours + 1
  /** Random draws taken per hour step: two per series. */
  const DrawsPerStep: int := 6
  /** Transaction categories of the pie chart, in display order. */
  const CategoryNames: seq<string> := ["DeFi", "NFT", "Smart Contracts", "Token Transfer"]
  /** Draws consumed by one generation. */
  const DrawCount: int := PointCount * DrawsPerStep + |CategoryNames|

  datatype GasPoint = GasPoint(time: int, gasPrice: int, networkCongestion: real)
  datatype TransactionPoint = TransactionPoint(time: int, transactions: int, successRate: real)
  datatype NetworkPoint = NetworkPoint(time: int, blockTime: real, networkLoad: real)
  datatype CategoryShare = CategoryShare(name: string, value: int)

  /** Everything the generator returns, field names as in the source. */
  datatype Bundle = Bundle(
    gasData: seq<GasPoint>,
    transactionData: seq<TransactionPoint>,
    networkData: seq<NetworkPoint>,
    transactionTypeData: seq<CategoryShare>)

  /** A value the random source can produce. */
  predicate IsDraw(x: real) {
    0.0 <= x < 1.0
  }

  /** A random stream long enough for one generation. */
  predicate ValidDraws(draws: seq<real>) {
    |draws| >= DrawCount && forall j :: 0 <= j < |draws| ==> IsDraw(draws[j])
  }

  /** `Math.floor(draw * scale + offset)`: a uniform integer in [offset, offset + scale). */
  function RandomInt(draw: real, scale: nat, offset: int): (r: int)
    requires IsDraw(draw) && scale > 0
    ensures offset <= r < offset + scale
  {
    ScaledDraw(draw, scale as real);
    (draw * scale as real + offset as real).Floor
  }

  lemma ScaledDraw(draw: real, scale: real)
    requires IsDraw(draw) && scale > 0.0
    ensures 0.0 <= draw * scale < scale
  {
    assert scale - draw * scale == (1.0 - draw) * scale;
  }

  /** The timestamp of the k-th point of every series (k = 0 is the oldest):
      `now - i * 60 * 60 * 1000` with i = WindowHours - k. */
  function StampAt(now: int, k: int): int {
    now - (WindowHours - k) * 3_600_000
  }

  /** First draw used by the k-th hour step. */
  function StepBase(k: int): int {
    DrawsPerStep * k
  }

  function GasPointAt(now: int, draws: seq<real>, k: int): GasPoint
    requires ValidDraws(draws) && 0 <= k < PointCount
  {
    GasPoint(StampAt(now, k), RandomInt(draws[StepBase(k)], 50, 10), draws[StepBase(k) + 1] * 100.0)
  }

  function TransactionPointAt(now: int, draws: seq<real>, k: int): TransactionPoint
    requires ValidDraws(draws) && 0 <= k < PointCount
  {
    TransactionPoint(StampAt(now, k), RandomInt(draws[StepBase(k) + 2], 1000, 500), draws[StepBase(k) + 3] * 100.0)
  }

  function NetworkPointAt(now: int, draws: seq<real>, k: int): NetworkPoint
    requires ValidDraws(draws) && 0 <= k < PointCount
  {
    NetworkPoint(StampAt(now, k), draws[StepBase(k) + 4] * 20.0, draws[StepBase(k) + 5] * 100.0)
  }

  function CategoryAt(draws: seq<real>, j: int): CategoryShare
    requires ValidDraws(draws) && 0 <= j < |CategoryNames|
  {
    CategoryShare(CategoryNames[j], RandomInt(draws[StepBase(PointCount) + j], 100, 0))
  }

  /** The bundle one generation produces, stated point by point: the
      reference the generating loop is proved against. */
  function MockBundle(now: int, draws: seq<real>): Bundle
    requires ValidDraws(draws)
  {
    Bundle(
      seq(PointCount, k requires 0 <= k < PointCount => GasPointAt(now, draws, k)),
      seq(PointCount, k requires 0 <= k < PointCount => TransactionPointAt(now, draws, k)),
      seq(PointCount, k requires 0 <= k < PointCount => NetworkPointAt(now, draws, k)),
      seq(|CategoryNames|, j requires 0 <= j < |CategoryNames| => CategoryAt(draws, j)))
  }

  /** Shape, timestamps and ranges every generated bundle has. */
  predicate WellFormed(b: Bundle, now: int) {
    && |b.gasData| == PointCount
    && |b.transactionData| == PointCount
    && |b.networkData| == PointCount
    && (forall k :: 0 <= k < PointCount ==> b.gasData[k].time == StampAt(now, k))
    && (forall k :: 0 <= k < PointCount ==> b.transactionData[k].time == StampAt(now, k))
    && (forall k :: 0 <= k < PointCount ==> b.networkData[k].time == StampAt(now, k))
    && (forall k :: 0 <= k < PointCount ==>
          10 <= b.gasData[k].gasPrice < 60 && 0.0 <= b.gasData[k].networkCongestion < 100.0)
    && (forall k :: 0 <= k < PointCount ==>
          500 <= b.transactionData[k].transactions < 1500 && 0.0 <= b.transactionData[k].successRate < 100.0)
    && (forall k :: 0 <= k < PointCount ==>
          0.0 <= b.networkData[k].blockTime < 20.0 && 0.0 <= b.networkData[k].networkLoad < 100.0)
    && |b.transactionTypeData| == |CategoryNames|
    && (forall j :: 0 <= j < |CategoryNames| ==>
          b.transactionTypeData[j].name == CategoryNames[j] && 0 <= b.transactionTypeData[j].value < 100)
  }

  /** Every bundle the generator can produce is well formed. */
  lemma MockBundleWellFormed(now: int, draws: seq<real>)
    requires ValidDraws(draws)
    ensures WellFormed(MockBundle(now, draws), now)
  {
    var b := MockBundle(now, draws);
    forall k | 0 <= k < PointCount
      ensures 10 <= b.gasData[k].gasPrice < 60 && 0.0 <= b.gasData[k].networkCongestion < 100.0
      ensures 500 <= b.transactionData[k].transactions < 1500 && 0.0 <= b.transactionData[k].successRate < 100.0
      ensures 0.0 <= b.networkData[k].blockTime < 20.0 && 0.0 <= b.networkData[k].networkLoad < 100.0
    {
      var base := StepBase(k);
      assert IsDraw(draws[base + 1]) && IsDraw(draws[base + 3]);
      assert IsDraw(draws[base + 4]) && IsDraw(draws[base + 5]);
    }
  }

  /** The three series are chronological, exactly one hour apart, and end at
      generation time. */
  lemma WellFormedChronological(b: Bundle, now: int)
    requires WellFormed(b, now)
    ensures b.gasData[PointCount - 1].time == now
    ensures b.gasData[0].time == now - WindowHours * HourMillis
    ensures forall k :: 0 <= k < PointCount - 1 ==> b.gasData[k + 1].time == b.gasData[k].time + HourMillis
    ensures forall j, k :: 0 <= j < k < PointCount ==> b.gasData[j].time < b.gasData[k].time
    ensures forall k :: 0 <= k < PointCount ==>
      b.transactionData[k].time == b.gasData[k].time && b.networkData[k].time == b.gasData[k].time
  {
    forall k | 0 <= k < PointCount - 1
      ensures b.gasData[k + 1].time == b.gasData[k].time + HourMillis
    {
      StampAtNext(now, k);
    }
    forall j, k | 0 <= j < k < PointCount
      ensures b.gasData[j].time < b.gasData[k].time
    {
      StampAtAfter(now, j, k);
    }
  }

  lemma StampAtNext(now: int, k: int)
    ensures StampAt(now, k + 1) == StampAt(now, k) + HourMillis
  {
  }

  /** Every stamp of the series lies in the window that ends at generation time. */
  lemma StampInWindow(now: int, k: int)
    requires 0 <= k < PointCount
    ensures now - WindowHours * HourMillis <= StampAt(now, k) <= now
  {
  }

  lemma StampAtAfter(now: int, j: int, k: int)
    requires j < k
    ensures StampAt(now, j) + HourMillis <= StampAt(now, k)
  {
  }

  /** The generator: counts the hour offset down from WindowHours to 0 and
      appends one point to each series per step, then builds the category list. */
  method Generate(now: int, draws: seq<real>) returns (data: Bundle)
    requires ValidDraws(draws)
    ensures data == MockBundle(now, draws)
    ensures WellFormed(data, now)
  {
    var gasData: seq<GasPoint> := [];
    var transactionData: seq<TransactionPoint> := [];
    var networkData: seq<NetworkPoint> := [];
    var next := 0;  // index of the next unused draw

    var i := WindowHours;
    while i >= 0
      invariant -1 <= i <= WindowHours
      invariant |gasData| == |transactionData| == |networkData| == WindowHours - i
      invariant next == StepBase(WindowHours - i)
      invariant forall k :: 0 <= k < |gasData| ==> gasData[k] == GasPointAt(now, draws, k)
      invariant forall k :: 0 <= k < |transactionData| ==> transactionData[k] == TransactionPointAt(now, draws, k)
      invariant forall k :: 0 <= k < |networkData| ==> networkData[k] == NetworkPointAt(now, draws, k)
      decreases i + 1
    {
      var date := now - i * 60 * 60 * 1000;
      ghost var k := WindowHours - i;
      assert date == StampAt(now, k);
      var gas := GasPoint(date, RandomInt(draws[next], 50, 10), draws[next + 1] * 100.0);
      var transaction := TransactionPoint(date, RandomInt(draws[next + 2], 1000, 500), draws[next + 3] * 100.0);
      var network := NetworkPoint(date, draws[next + 4] * 20.0, draws[next + 5] * 100.0);
      assert gas == GasPointAt(now, draws, k);
      assert transaction == TransactionPointAt(now, draws, k);
      assert network == NetworkPointAt(now, draws, k);
      gasData := gasData + [gas];
      transactionData := transactionData + [transaction];
      networkData := networkData + [network];
      next := next + DrawsPerStep;
      i := i - 1;
    }

    var transactionTypeData := [
      CategoryShare("DeFi", RandomInt(draws[next], 100, 0)),
      CategoryShare("NFT", RandomInt(draws[next + 1], 100, 0)),
      CategoryShare("Smart Contracts", RandomInt(draws[next + 2], 100, 0)),
      CategoryShare("Token Transfer", RandomInt(draws[next + 3], 100, 0))
    ];

    data := Bundle(gasData, transactionData, networkData, transactionTypeData);
    ghost var spec := MockBundle(now, draws);
    assert data.gasData == spec.gasData;
    assert data.transactionData == spec.transactionData;
    assert data.networkData == spec.networkData;
    assert data.transactionTypeData == spec.transactionTypeData;
    MockBundleWellFormed(now, draws);
  }
}
