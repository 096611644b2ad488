/**
 * The synthetic sensor stream of `ingest/simulacao_sensores.py`: a registry
 * of three sensors, one running trend per sensor, and one time point that
 * walks each trend, adds the fault offsets inside their step windows and
 * emits one record per sensor.
 *
 * The random draws of a time point are inputs (`Draw`); the trend globals
 * are the fields of a `Simulator` object.
 */
module Simulation {
  import opened RandomWalk
  import opened Rounding

  /** One registry entry: (name, range minimum, range maximum, alert level, critical level). */
  datatype SensorDef = SensorDef(nome: string, minVal: real, maxVal: real, alerta: real, critico: real)

  const Temperatura: SensorDef := SensorDef("Temperatura (°C)", 20.0, 100.0, 60.0, 80.0)
  const Vibracao: SensorDef := SensorDef("Vibração (g)", 0.1, 3.0, 1.0, 2.0)
  const Distancia: SensorDef := SensorDef("Distância/Nível (cm)", 5.0, 250.0, 10.0, 5.0)

  /** SENSORES, in the order its items are visited: ids 1, 2, 3. */
  const Sensores: seq<(int, SensorDef)> := [(1, Temperatura), (2, Vibracao), (3, Distancia)]

  /** Largest step of each walk. */
  const MaxDeltaTemp: real := 0.8
  const MaxDeltaVib: real := 0.1
  const MaxDeltaDist: real := 5.0

  /** Offsets added inside the fault windows. */
  const PicoTemp: real := 3.0
  const PicoVib: real := 0.5

  /** Initial values of the trend globals. */
  const InitialTrends: Trends := Trends(30.0, 0.5, 150.0)

  /** The open step windows in which the temperature offset is added. */
  predicate JanelaTemp(leituraId: int) {
    50 < leituraId < 70 || 150 < leituraId < 170
  }

  /** The open step window in which the vibration offset is added. */
  predicate JanelaVib(leituraId: int) {
    90 < leituraId < 110
  }

  /** The three uniform draws of one time point, in the order they are made. */
  datatype Draw = Draw(temp: real, vib: real, dist: real)

  predicate ValidDraw(d: Draw) {
    && -MaxDeltaTemp <= d.temp <= MaxDeltaTemp
    && -MaxDeltaVib <= d.vib <= MaxDeltaVib
    && -MaxDeltaDist <= d.dist <= MaxDeltaDist
  }

  predicate ValidDraws(draws: seq<Draw>) {
    forall k :: 0 <= k < |draws| ==> ValidDraw(draws[k])
  }

  /** The values of the three trend globals (unrounded). */
  datatype Trends = Trends(temp: real, vib: real, dist: real)

  /** One emitted long-format record. */
  datatype Record = Record(idLocal: int, dataHoraMs: int, idSensor: int, valor: real)

  /** New temperature trend at time point `leituraId`. */
  function NextTemp(t: real, leituraId: int, delta: real): (r: real)
    requires -MaxDeltaTemp <= delta <= MaxDeltaTemp
    // outside the windows the walk keeps the trend in the sensor's range
    ensures !JanelaTemp(leituraId) ==> Temperatura.minVal <= r <= Temperatura.maxVal
    // inside them the offset is not clamped again, so the trend may pass the maximum
    ensures JanelaTemp(leituraId) ==> Temperatura.minVal + PicoTemp <= r <= Temperatura.maxVal + PicoTemp
    // from an in-range trend the move is the offset plus at most one walk step
    ensures Temperatura.minVal <= t <= Temperatura.maxVal ==>
      -MaxDeltaTemp <= r - t - (if JanelaTemp(leituraId) then PicoTemp else 0.0) <= MaxDeltaTemp
    // inside a window the trend rises by at least offset minus step, up to the ceiling plus offset
    ensures JanelaTemp(leituraId) ==> r >= Min(t + PicoTemp - MaxDeltaTemp, Temperatura.maxVal + PicoTemp)
  {
    var walked := GerarLeituraVariavel(t, Temperatura.minVal, Temperatura.maxVal, MaxDeltaTemp, delta);
    if JanelaTemp(leituraId) then walked + PicoTemp else walked
  }

  /** New vibration trend at time point `leituraId`. */
  function NextVib(v: real, leituraId: int, delta: real): (r: real)
    requires -MaxDeltaVib <= delta <= MaxDeltaVib
    ensures !JanelaVib(leituraId) ==> Vibracao.minVal <= r <= Vibracao.maxVal
    ensures JanelaVib(leituraId) ==> Vibracao.minVal + PicoVib <= r <= Vibracao.maxVal + PicoVib
    ensures Vibracao.minVal <= v <= Vibracao.maxVal ==>
      -MaxDeltaVib <= r - v - (if JanelaVib(leituraId) then PicoVib else 0.0) <= MaxDeltaVib
    ensures JanelaVib(leituraId) ==> r >= Min(v + PicoVib - MaxDeltaVib, Vibracao.maxVal + PicoVib)
  {
    var walked := GerarLeituraVariavel(v, Vibracao.minVal, Vibracao.maxVal, MaxDeltaVib, delta);
    if JanelaVib(leituraId) then walked + PicoVib else walked
  }

  /** New distance trend: a plain walk, never offset. */
  function NextDist(d: real, delta: real): (r: real)
    requires -MaxDeltaDist <= delta <= MaxDeltaDist
    ensures Distancia.minVal <= r <= Distancia.maxVal
    ensures Distancia.minVal <= d <= Distancia.maxVal ==> -MaxDeltaDist <= r - d <= MaxDeltaDist
  {
    GerarLeituraVariavel(d, Distancia.minVal, Distancia.maxVal, MaxDeltaDist, delta)
  }

  /** All three trends after time point `leituraId`. */
  function Advance(s: Trends, leituraId: int, draw: Draw): Trends
    requires ValidDraw(draw)
  {
    Trends(NextTemp(s.temp, leituraId, draw.temp), NextVib(s.vib, leituraId, draw.vib), NextDist(s.dist, draw.dist))
  }

  /** The trend a sensor id stands for. */
  function TrendOf(s: Trends, idSensor: int): real {
    if idSensor == 1 then s.temp else if idSensor == 2 then s.vib else s.dist
  }

  /** The records of one time point, given the trends it ended with. */
  function PointRecords(leituraId: int, tempoMs: int, s: Trends): (rs: seq<Record>)
    ensures |rs| == |Sensores|
    ensures forall k :: 0 <= k < |rs| ==>
      && rs[k].idLocal == leituraId
      && rs[k].dataHoraMs == tempoMs
      && rs[k].idSensor == Sensores[k].0 == k + 1
      && rs[k].valor == Round2(TrendOf(s, rs[k].idSensor))
  {
    [ Record(leituraId, tempoMs, 1, Round2(s.temp)),
      Record(leituraId, tempoMs, 2, Round2(s.vib)),
      Record(leituraId, tempoMs, 3, Round2(s.dist)) ]
  }

  /** The trend globals of the module, as one object. */
  class Simulator {
    var tendenciaTemp: real
    var tendenciaVib: real
    var tendenciaDist: real

    function Current(): Trends
      reads this
    {
      Trends(tendenciaTemp, tendenciaVib, tendenciaDist)
    }

    constructor ()
      ensures Current() == InitialTrends
    {
      tendenciaTemp, tendenciaVib, tendenciaDist := 30.0, 0.5, 150.0;
    }

    /**
     * simular_ponto_no_tempo: visit the registry in order, walk the sensor's
     * trend, add its fault offset inside its window, and emit the rounded
     * trend. The trend keeps the unrounded value.
     */
    method SimularPontoNoTempo(leituraId: int, tempoMs: int, draw: Draw) returns (registros: seq<Record>)
      requires ValidDraw(draw)
      modifies this
      ensures Current() == Advance(old(Current()), leituraId, draw)
      ensures registros == PointRecords(leituraId, tempoMs, Current())
    {
      ghost var next := Advance(Current(), leituraId, draw);
      registros := [];
      var k := 0;
      while k < |Sensores|
        invariant 0 <= k <= |Sensores|
        invariant tendenciaTemp == if k >= 1 then next.temp else old(tendenciaTemp)
        invariant tendenciaVib == if k >= 2 then next.vib else old(tendenciaVib)
        invariant tendenciaDist == if k >= 3 then next.dist else old(tendenciaDist)
        invariant registros == PointRecords(leituraId, tempoMs, next)[..k]
      {
        var (idSensor, sensor) := Sensores[k];
        var valorLeitura: real;
        if idSensor == 1 {
          tendenciaTemp := GerarLeituraVariavel(tendenciaTemp, sensor.minVal, sensor.maxVal, MaxDeltaTemp, draw.temp);
          valorLeitura := Round2(tendenciaTemp);
          if 50 < leituraId < 70 || 150 < leituraId < 170 {
            tendenciaTemp := tendenciaTemp + PicoTemp;
            valorLeitura := Round2(tendenciaTemp);
          }
        } else if idSensor == 2 {
          tendenciaVib := GerarLeituraVariavel(tendenciaVib, sensor.minVal, sensor.maxVal, MaxDeltaVib, draw.vib);
          valorLeitura := Round2(tendenciaVib);
          if 90 < leituraId < 110 {
            tendenciaVib := tendenciaVib + PicoVib;
            valorLeitura := Round2(tendenciaVib);
          }
        } else {
          assert idSensor == 3;
          tendenciaDist := GerarLeituraVariavel(tendenciaDist, sensor.minVal, sensor.maxVal, MaxDeltaDist, draw.dist);
          valorLeitura := Round2(tendenciaDist);
        }
        registros := registros + [Record(leituraId, tempoMs, idSensor, valorLeitura)];
        k := k + 1;
      }
    }
  }

  /** The trends after time points 1..|draws|, starting from `start`. */
  function TrendsAfter(start: Trends, draws: seq<Draw>): Trends
    requires ValidDraws(draws)
    decreases |draws|
  {
    if |draws| == 0 then start
    else Advance(TrendsAfter(start, draws[..|draws| - 1]), |draws|, draws[|draws| - 1])
  }

  /** Timestamp of time point i. */
  function TimestampOf(tempoBase: int, i: int): int {
    tempoBase + i * IntervaloMs
  }

  const IntervaloMs: int := 1000

  /**
   * The records of time points 1..|draws|, in the order they are written:
   * NUM_LEITURAS time points of len(SENSORES) records each.
   */
  function RunRecords(start: Trends, tempoBase: int, draws: seq<Draw>): (rs: seq<Record>)
    requires ValidDraws(draws)
    ensures |rs| == 3 * |draws|
    decreases |draws|
  {
    if |draws| == 0 then []
    else
      RunRecords(start, tempoBase, draws[..|draws| - 1])
      + PointRecords(|draws|, TimestampOf(tempoBase, |draws|), TrendsAfter(start, draws))
  }

  /** Time point i advances the trends that time points 1..i-1 left. */
  lemma TrendsStep(start: Trends, draws: seq<Draw>, i: nat)
    requires ValidDraws(draws)
    requires 1 <= i <= |draws|
    ensures TrendsAfter(start, draws[..i]) == Advance(TrendsAfter(start, draws[..i - 1]), i, draws[i - 1])
  {
    assert draws[..i][..i - 1] == draws[..i - 1];
  }

  /** Running one more time point appends its records and advances the trends once. */
  lemma RunRecordsExtend(start: Trends, tempoBase: int, draws: seq<Draw>, i: nat)
    requires ValidDraws(draws)
    requires 1 <= i <= |draws|
    ensures TrendsAfter(start, draws[..i]) == Advance(TrendsAfter(start, draws[..i - 1]), i, draws[i - 1])
    ensures RunRecords(start, tempoBase, draws[..i])
         == RunRecords(start, tempoBase, draws[..i - 1])
            + PointRecords(i, TimestampOf(tempoBase, i), TrendsAfter(start, draws[..i]))
  {
    assert draws[..i][..i - 1] == draws[..i - 1];
  }

  /** Records 3g..3g+2 of a run are the records of time point g+1. */
  lemma {:induction false} RunPoint(start: Trends, tempoBase: int, draws: seq<Draw>, g: nat)
    requires ValidDraws(draws)
    requires g < |draws|
    ensures |RunRecords(start, tempoBase, draws)| == 3 * |draws|
    ensures RunRecords(start, tempoBase, draws)[3 * g..3 * g + 3]
         == PointRecords(g + 1, TimestampOf(tempoBase, g + 1), TrendsAfter(start, draws[..g + 1]))
    decreases |draws|
  {
    var n := |draws|;
    var init := draws[..n - 1];
    var before := RunRecords(start, tempoBase, init);
    var point := PointRecords(n, TimestampOf(tempoBase, n), TrendsAfter(start, draws));
    if g == n - 1 {
      assert draws[..g + 1] == draws;
      SliceOfBack(before, point);
    } else {
      RunPoint(start, tempoBase, init, g);
      assert init[..g + 1] == draws[..g + 1];
      SliceOfFront(before, point, 3 * g, 3 * g + 3);
    }
  }

  /** A slice that ends within the front of a concatenation is a slice of the front. */
  lemma SliceOfFront<T>(front: seq<T>, back: seq<T>, lo: nat, hi: nat)
    requires lo <= hi <= |front|
    ensures (front + back)[lo..hi] == front[lo..hi]
  {
  }

  /** The slice past the front of a concatenation is its back. */
  lemma SliceOfBack<T>(front: seq<T>, back: seq<T>)
    ensures (front + back)[|front|..|front| + |back|] == back
  {
  }

  /** Record 3g+k of a run is sensor k+1's record of time point g+1. */
  lemma RunRecordsAt(start: Trends, tempoBase: int, draws: seq<Draw>, g: nat, k: nat)
    requires ValidDraws(draws)
    requires g < |draws| && k < 3
    ensures |RunRecords(start, tempoBase, draws)| == 3 * |draws|
    ensures RunRecords(start, tempoBase, draws)[3 * g + k]
         == Record(g + 1, TimestampOf(tempoBase, g + 1), k + 1, Round2(TrendOf(TrendsAfter(start, draws[..g + 1]), k + 1)))
  {
    RunPoint(start, tempoBase, draws, g);
    assert RunRecords(start, tempoBase, draws)[3 * g + k] == RunRecords(start, tempoBase, draws)[3 * g..3 * g + 3][k];
  }

  /**
   * A run of n time points writes 3n records, time point-major and
   * sensor-minor: record j belongs to time point j/3 + 1, is stamped
   * tempoBase + (j/3 + 1) * IntervaloMs, and comes from sensor j%3 + 1.
   */
  lemma RunRecordFields(start: Trends, tempoBase: int, draws: seq<Draw>, j: nat)
    requires ValidDraws(draws)
    requires j < 3 * |draws|
    ensures |RunRecords(start, tempoBase, draws)| == 3 * |draws|
    ensures var r := RunRecords(start, tempoBase, draws)[j];
      && r.idLocal == j / 3 + 1
      && r.dataHoraMs == tempoBase + (j / 3 + 1) * IntervaloMs
      && r.idSensor == j % 3 + 1
  {
    RunRecordsAt(start, tempoBase, draws, j / 3, j % 3);
  }

  /**
   * Timestamps never go back, are shared within a time point, and grow by
   * exactly IntervaloMs from one time point to the next.
   */
  lemma RunTimestamps(start: Trends, tempoBase: int, draws: seq<Draw>, j: nat, j': nat)
    requires ValidDraws(draws)
    requires j <= j' < 3 * |draws|
    ensures |RunRecords(start, tempoBase, draws)| == 3 * |draws|
    ensures var rs := RunRecords(start, tempoBase, draws);
      && rs[j].dataHoraMs <= rs[j'].dataHoraMs
      && (j / 3 == j' / 3 ==> rs[j].dataHoraMs == rs[j'].dataHoraMs && rs[j].idLocal == rs[j'].idLocal)
      && (j' == j + 3 ==> rs[j'].dataHoraMs == rs[j].dataHoraMs + IntervaloMs && rs[j'].idLocal == rs[j].idLocal + 1)
  {
    RunRecordFields(start, tempoBase, draws, j);
    RunRecordFields(start, tempoBase, draws, j');
    assert j / 3 <= j' / 3;
  }

  /**
   * After time point i each trend lies in its sensor's range outside its
   * fault window, and in that range lifted by the offset inside it.
   */
  lemma TrendsInWindowRanges(start: Trends, draws: seq<Draw>, i: nat)
    requires ValidDraws(draws)
    requires 1 <= i <= |draws|
    ensures var s := TrendsAfter(start, draws[..i]);
      && (!JanelaTemp(i) ==> Temperatura.minVal <= s.temp <= Temperatura.maxVal)
      && (JanelaTemp(i) ==> Temperatura.minVal + PicoTemp <= s.temp <= Temperatura.maxVal + PicoTemp)
      && (!JanelaVib(i) ==> Vibracao.minVal <= s.vib <= Vibracao.maxVal)
      && (JanelaVib(i) ==> Vibracao.minVal + PicoVib <= s.vib <= Vibracao.maxVal + PicoVib)
      && Distancia.minVal <= s.dist <= Distancia.maxVal
  {
    TrendsStep(start, draws, i);
  }

  /** Rounding to hundredths keeps a value within bounds that are whole hundredths. */
  lemma RoundedInWindowRanges(s: Trends, i: int)
    requires !JanelaTemp(i) ==> 20.0 <= s.temp <= 100.0
    requires JanelaTemp(i) ==> 23.0 <= s.temp <= 103.0
    requires !JanelaVib(i) ==> 0.1 <= s.vib <= 3.0
    requires JanelaVib(i) ==> 0.6 <= s.vib <= 3.5
    requires 5.0 <= s.dist <= 250.0
    ensures !JanelaTemp(i) ==> 20.0 <= Round2(s.temp) <= 100.0
    ensures JanelaTemp(i) ==> 23.0 <= Round2(s.temp) <= 103.0
    ensures !JanelaVib(i) ==> 0.1 <= Round2(s.vib) <= 3.0
    ensures JanelaVib(i) ==> 0.6 <= Round2(s.vib) <= 3.5
    ensures 5.0 <= Round2(s.dist) <= 250.0
  {
    if JanelaTemp(i) {
      Round2Between(2300, 10300, s.temp);
    } else {
      Round2Between(2000, 10000, s.temp);
    }
    if JanelaVib(i) {
      Round2Between(60, 350, s.vib);
    } else {
      Round2Between(10, 300, s.vib);
    }
    Round2Between(500, 25000, s.dist);
  }

  /**
   * Each emitted value lies in its sensor's range outside its fault window,
   * and in that range lifted by the offset inside it: the offset is added
   * after the clamp and never clamped again. This holds whatever the trends
   * were before the run.
   */
  lemma RunRecordsInBounds(start: Trends, tempoBase: int, draws: seq<Draw>, j: nat)
    requires ValidDraws(draws)
    requires j < 3 * |draws|
    ensures |RunRecords(start, tempoBase, draws)| == 3 * |draws|
    ensures var r := RunRecords(start, tempoBase, draws)[j];
      && (r.idSensor == 1 && !JanelaTemp(r.idLocal) ==> Temperatura.minVal <= r.valor <= Temperatura.maxVal)
      && (r.idSensor == 1 && JanelaTemp(r.idLocal) ==> Temperatura.minVal + PicoTemp <= r.valor <= Temperatura.maxVal + PicoTemp)
      && (r.idSensor == 2 && !JanelaVib(r.idLocal) ==> Vibracao.minVal <= r.valor <= Vibracao.maxVal)
      && (r.idSensor == 2 && JanelaVib(r.idLocal) ==> Vibracao.minVal + PicoVib <= r.valor <= Vibracao.maxVal + PicoVib)
      && (r.idSensor == 3 ==> Distancia.minVal <= r.valor <= Distancia.maxVal)
  {
    var g := j / 3;
    RunRecordsAt(start, tempoBase, draws, g, j % 3);
    TrendsInWindowRanges(start, draws, g + 1);
    RoundedInWindowRanges(TrendsAfter(start, draws[..g + 1]), g + 1);
  }

  /**
   * One time point of a run: each trend is walked from where the previous
   * time point left it, the fault offset is added to the stored trend inside
   * its window (so it persists into the next time point), and the record
   * carries the rounded trend while the trend itself stays unrounded.
   */
  lemma RunStep(start: Trends, tempoBase: int, draws: seq<Draw>, g: nat)
    requires ValidDraws(draws)
    requires g < |draws|
    ensures |RunRecords(start, tempoBase, draws)| == 3 * |draws|
    ensures var before := TrendsAfter(start, draws[..g]);
      var after := TrendsAfter(start, draws[..g + 1]);
      var rs := RunRecords(start, tempoBase, draws);
      && after.temp == GerarLeituraVariavel(before.temp, 20.0, 100.0, 0.8, draws[g].temp)
                       + (if 50 < g + 1 < 70 || 150 < g + 1 < 170 then 3.0 else 0.0)
      && after.vib == GerarLeituraVariavel(before.vib, 0.1, 3.0, 0.1, draws[g].vib)
                      + (if 90 < g + 1 < 110 then 0.5 else 0.0)
      && after.dist == GerarLeituraVariavel(before.dist, 5.0, 250.0, 5.0, draws[g].dist)
      && rs[3 * g].valor == Round2(after.temp)
      && rs[3 * g + 1].valor == Round2(after.vib)
      && rs[3 * g + 2].valor == Round2(after.dist)
  {
    TrendsStep(start, draws, g + 1);
    RunPoint(start, tempoBase, draws, g);
    var rs := RunRecords(start, tempoBase, draws);
    assert rs[3 * g] == rs[3 * g..3 * g + 3][0];
    assert rs[3 * g + 1] == rs[3 * g..3 * g + 3][1];
    assert rs[3 * g + 2] == rs[3 * g..3 * g + 3][2];
  }

  /** The distance trend is never offset, so it never leaves [5.0, 250.0] once in it. */
  lemma DistanceTrendInRange(start: Trends, draws: seq<Draw>)
    requires ValidDraws(draws)
    requires Distancia.minVal <= start.dist <= Distancia.maxVal
    ensures Distancia.minVal <= TrendsAfter(start, draws).dist <= Distancia.maxVal
  {
    if |draws| > 0 {
      assert TrendsAfter(start, draws).dist == NextDist(TrendsAfter(start, draws[..|draws| - 1]).dist, draws[|draws| - 1].dist);
    }
  }

  /**
   * Over consecutive time points a+1..b that all lie in a temperature window,
   * the temperature trend climbs at least 2.2 per time point, up to 103.0.
   */
  lemma {:induction false} TemperatureWindowClimb(start: Trends, draws: seq<Draw>, a: nat, b: nat)
    requires ValidDraws(draws)
    requires a <= b <= |draws|
    requires forall i :: a < i <= b ==> JanelaTemp(i)
    ensures TrendsAfter(start, draws[..b]).temp
         >= Min(TrendsAfter(start, draws[..a]).temp + 2.2 * (b - a) as real, 103.0)
    decreases b - a
  {
    if a < b {
      TemperatureWindowClimb(start, draws, a, b - 1);
      assert draws[..b][..b - 1] == draws[..b - 1];
      assert TrendsAfter(start, draws[..b]).temp
          == NextTemp(TrendsAfter(start, draws[..b - 1]).temp, b, draws[b - 1].temp);
    }
  }

  /**
   * By the last time point of the first temperature window (69) the
   * temperature trend is at least 62.6 whatever the draws and the starting
   * trends: the first window step lifts it to at least 23.0, and each of
   * the next 18 adds at least 2.2.
   */
  lemma FirstWindowTrendFloor(start: Trends, draws: seq<Draw>)
    requires ValidDraws(draws)
    requires 69 <= |draws|
    ensures TrendsAfter(start, draws[..69]).temp >= 62.6
  {
    TrendsStep(start, draws, 51);
    TemperatureWindowClimb(start, draws, 51, 69);
  }

  /**
   * The temperature value emitted at time point 69 is at least 62.6, above
   * the alert level of 60.0, whatever the draws and the starting trends.
   * FirstWindowCanStayBelowCritical shows that 62.6 is reached and that the
   * window does not force the critical level.
   */
  lemma FirstWindowReachesAlert(start: Trends, tempoBase: int, draws: seq<Draw>)
    requires ValidDraws(draws)
    requires 69 <= |draws|
    ensures |RunRecords(start, tempoBase, draws)| == 3 * |draws|
    ensures RunRecords(start, tempoBase, draws)[3 * 68].idSensor == 1
    ensures RunRecords(start, tempoBase, draws)[3 * 68].valor >= 62.6 > Temperatura.alerta
  {
    FirstWindowTrendFloor(start, draws);
    RunRecordsAt(start, tempoBase, draws, 68, 0);
    Round2Between(6260, 10300, TrendsAfter(start, draws[..69]).temp);
  }

  /** Draws that always take the largest downward temperature step. */
  predicate TempDrawsDown(draws: seq<Draw>, b: nat)
    requires b <= |draws|
  {
    forall k :: 0 <= k < b ==> draws[k].temp == -MaxDeltaTemp
  }

  /** Before the first window, downward draws take the trend down 0.8 per time point, to the floor. */
  lemma {:induction false} DescentBeforeWindow(start: Trends, draws: seq<Draw>, b: nat)
    requires ValidDraws(draws)
    requires b <= 50 && b <= |draws| && TempDrawsDown(draws, b)
    requires Temperatura.minVal <= start.temp <= Temperatura.maxVal
    ensures TrendsAfter(start, draws[..b]).temp <= Max(start.temp - 0.8 * b as real, Temperatura.minVal)
    decreases b
  {
    if b > 0 {
      DescentBeforeWindow(start, draws, b - 1);
      assert draws[..b][..b - 1] == draws[..b - 1];
      assert TrendsAfter(start, draws[..b]).temp
          == NextTemp(TrendsAfter(start, draws[..b - 1]).temp, b, draws[b - 1].temp);
    }
  }

  /**
   * Inside the first window, downward draws let the trend climb only 2.2 per
   * time point, after a first step that may lift it from the floor to 23.0.
   */
  lemma {:induction false} SlowClimbInWindow(start: Trends, draws: seq<Draw>, b: nat)
    requires ValidDraws(draws)
    requires 50 <= b <= 69 && b <= |draws| && TempDrawsDown(draws, b)
    requires Temperatura.minVal <= start.temp <= 60.0
    ensures TrendsAfter(start, draws[..b]).temp <= 20.8 + 2.2 * (b - 50) as real
    decreases b
  {
    if b == 50 {
      DescentBeforeWindow(start, draws, 50);
    } else {
      SlowClimbInWindow(start, draws, b - 1);
      assert draws[..b][..b - 1] == draws[..b - 1];
      assert TrendsAfter(start, draws[..b]).temp
          == NextTemp(TrendsAfter(start, draws[..b - 1]).temp, b, draws[b - 1].temp);
    }
  }

  /**
   * The first window does not force the critical level: from the initial
   * trends, draws that always step the temperature down keep every value it
   * emits in the window at or below 62.6, under the critical 80.0.
   */
  lemma FirstWindowCanStayBelowCritical(draws: seq<Draw>, b: nat)
    requires ValidDraws(draws)
    requires 50 < b <= 69 && b <= |draws| && TempDrawsDown(draws, b)
    ensures TrendsAfter(InitialTrends, draws[..b]).temp <= 62.6
    ensures Round2(TrendsAfter(InitialTrends, draws[..b]).temp) <= 62.6 < Temperatura.critico
  {
    SlowClimbInWindow(InitialTrends, draws, b);
    assert draws[..b][..b - 1] == draws[..b - 1];
    var t := TrendsAfter(InitialTrends, draws[..b]).temp;
    assert t == NextTemp(TrendsAfter(InitialTrends, draws[..b - 1]).temp, b, draws[b - 1].temp);
    Round2Between(2000, 6260, t);
  }

  /**
   * Inside a window the emitted temperature can exceed the sensor's maximum:
   * no clamp follows the offset. After the first window the walk clamps the
   * trend back into [20, 100] and upward draws can hold it at 100, so
   * time point 151, the first of the second window, can start from 100.
   */
  lemma TemperatureCanPassMaximum()
    ensures var s := Advance(Trends(100.0, 0.5, 150.0), 151, Draw(0.0, 0.0, 0.0));
      s.temp == 103.0 && PointRecords(151, 0, s)[0].valor == 103.0 > Temperatura.maxVal
  {
    HundredthsExact(10300);
  }

  /** Inside its window the emitted vibration can exceed the sensor's maximum too. */
  lemma VibrationCanPassMaximum()
    ensures var s := Advance(Trends(30.0, 3.0, 150.0), 91, Draw(0.0, 0.0, 0.0));
      s.vib == 3.5 && PointRecords(91, 0, s)[1].valor == 3.5 > Vibracao.maxVal
  {
    HundredthsExact(350);
  }

  /** The stored trend keeps digits that the emitted record rounds away. */
  lemma TrendKeepsUnroundedValue()
    ensures var s := Advance(InitialTrends, 1, Draw(0.004, 0.0, 0.0));
      s.temp == 30.004 && PointRecords(1, 0, s)[0].valor == 30.0
  {
    assert (30.004 * 100.0).Floor == 3000;
  }
}
