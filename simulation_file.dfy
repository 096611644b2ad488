/**
 * The driver of `ingest/simulacao_sensores.py` (`main`): a header line, then
 * time points 1..NUM_LEITURAS, each stamped tempo_base + i * INTERVALO_MS,
 * each writing its three records as ';'-separated lines.
 *
 * The file is the sequence of its lines; the clock reading tempo_base and
 * the draws of every time point are inputs.
 */
module SimulationFile {
  import opened Text
  import opened Rounding
  import opened LongFormat
  import opened Simulation

  /**
   * The text csv writes for the float round(x, 2) returned: its shortest
   * decimal form, with one fraction digit when the second one is zero.
   */
  function ValorText(valor: real): string {
    var k := Hundredths(valor);
    var a := if k < 0 then -k else k;
    var frac := a % 100;
    var fraction := if frac % 10 == 0 then [DigitChar(frac / 10)] else [DigitChar(frac / 10), DigitChar(frac % 10)];
    DecimalText(k < 0, a / 100, fraction)
  }

  /** Reading the written value back gives the hundredths round(x, 2) chose. */
  lemma ParseValorText(valor: real)
    ensures ParseDecimal(ValorText(valor)) == Some(Hundredths(valor))
    ensures Delimiter !in ValorText(valor)
  {
    var k := Hundredths(valor);
    var a := if k < 0 then -k else k;
    var frac := a % 100;
    assert Signed(k < 0, a) == k;
    if frac % 10 == 0 {
      TenthsText(k < 0, a);
      DecimalTextExcludes(k < 0, a / 100, [DigitChar(frac / 10)], Delimiter);
    } else {
      HundredthsText(k < 0, a);
      DecimalTextExcludes(k < 0, a / 100, [DigitChar(frac / 10), DigitChar(frac % 10)], Delimiter);
    }
  }

  /** The line DictWriter writes for one record, in the column order of the header. */
  function RecordText(r: Record): string {
    RecordLine(r.idLocal, r.dataHoraMs, r.idSensor, ValorText(r.valor))
  }

  /** A written record line reads back as the record's fields and rounded value. */
  lemma RecordTextReadsBack(r: Record)
    ensures ParseRecordLine(RecordText(r)) == Some(Row(r.idLocal, r.dataHoraMs, r.idSensor, Hundredths(r.valor)))
  {
    ParseValorText(r.valor);
    ParseRecordLineOf(r.idLocal, r.dataHoraMs, r.idSensor, ValorText(r.valor), Hundredths(r.valor));
  }

  /** escritor.writerows: one line per record, in order. */
  function WriteRows(records: seq<Record>): (lines: seq<string>)
    ensures |lines| == |records|
    decreases |records|
  {
    if |records| == 0 then [] else WriteRows(records[..|records| - 1]) + [RecordText(records[|records| - 1])]
  }

  lemma {:induction false} WriteRowsAppend(a: seq<Record>, b: seq<Record>)
    ensures WriteRows(a + b) == WriteRows(a) + WriteRows(b)
    decreases |b|
  {
    if |b| == 0 {
      assert a + b == a;
    } else {
      var init := b[..|b| - 1];
      assert (a + b)[..|a + b| - 1] == a + init;
      assert (a + b)[|a + b| - 1] == b[|b| - 1];
      WriteRowsAppend(a, init);
    }
  }

  lemma {:induction false} WriteRowsAt(records: seq<Record>, j: nat)
    requires j < |records|
    ensures WriteRows(records)[j] == RecordText(records[j])
    decreases |records|
  {
    if j < |records| - 1 {
      WriteRowsAt(records[..|records| - 1], j);
    }
  }

  /** The lines of a batch of records follow those of the records before it. */
  lemma WriteRowsAfterHeader(header: string, done: seq<Record>, registros: seq<Record>)
    ensures [header] + WriteRows(done) + WriteRows(registros) == [header] + WriteRows(done + registros)
  {
    WriteRowsAppend(done, registros);
    assert [header] + WriteRows(done) + WriteRows(registros) == [header] + (WriteRows(done) + WriteRows(registros));
  }

  /** The lines of time point i follow those of time points 1..i-1. */
  lemma LinesExtend(header: string, start: Trends, tempoBase: int, draws: seq<Draw>, i: nat, registros: seq<Record>)
    requires ValidDraws(draws)
    requires 1 <= i <= |draws|
    requires registros == PointRecords(i, TimestampOf(tempoBase, i), Advance(TrendsAfter(start, draws[..i - 1]), i, draws[i - 1]))
    ensures TrendsAfter(start, draws[..i]) == Advance(TrendsAfter(start, draws[..i - 1]), i, draws[i - 1])
    ensures [header] + WriteRows(RunRecords(start, tempoBase, draws[..i - 1])) + WriteRows(registros)
         == [header] + WriteRows(RunRecords(start, tempoBase, draws[..i]))
  {
    RunRecordsExtend(start, tempoBase, draws, i);
    WriteRowsAfterHeader(header, RunRecords(start, tempoBase, draws[..i - 1]), registros);
  }

  /**
   * main: writes the header, then for i = 1..numLeituras the records of
   * time point i stamped tempoBase + i * IntervaloMs. In the program
   * numLeituras is NUM_LEITURAS (200).
   */
  method GenerateFile(sim: Simulator, numLeituras: nat, tempoBase: int, draws: seq<Draw>) returns (lines: seq<string>)
    requires |draws| == numLeituras && ValidDraws(draws)
    modifies sim
    ensures sim.Current() == TrendsAfter(old(sim.Current()), draws)
    ensures lines == [HeaderLine()] + WriteRows(RunRecords(old(sim.Current()), tempoBase, draws))
  {
    ghost var start := sim.Current();
    var header := HeaderLine();
    lines := [header];
    var i := 1;
    while i <= numLeituras
      invariant 1 <= i <= numLeituras + 1
      invariant sim.Current() == TrendsAfter(start, draws[..i - 1])
      invariant lines == [header] + WriteRows(RunRecords(start, tempoBase, draws[..i - 1]))
    {
      var tempoAtualMs := TimestampOf(tempoBase, i);
      var registros := sim.SimularPontoNoTempo(i, tempoAtualMs, draws[i - 1]);
      LinesExtend(header, start, tempoBase, draws, i, registros);
      lines := lines + WriteRows(registros);
      i := i + 1;
    }
    assert draws[..numLeituras] == draws;
  }

  /** Line j + 1 of a file of records reads back as record j. */
  lemma FileLineReadsBack(header: string, rs: seq<Record>, j: nat)
    requires j < |rs|
    ensures |[header] + WriteRows(rs)| == 1 + |rs|
    ensures ParseRecordLine(([header] + WriteRows(rs))[j + 1])
         == Some(Row(rs[j].idLocal, rs[j].dataHoraMs, rs[j].idSensor, Hundredths(rs[j].valor)))
  {
    WriteRowsAt(rs, j);
    RecordTextReadsBack(rs[j]);
  }

  /**
   * What main's file holds: the header, then 3 * n record lines; line j + 1
   * reads back as time point j/3 + 1, stamped tempoBase + (j/3 + 1) *
   * IntervaloMs, sensor j%3 + 1, and the value's hundredths. With n = 0 the
   * file is the header alone.
   */
  lemma GeneratedFileContents(start: Trends, tempoBase: int, draws: seq<Draw>, j: nat)
    requires ValidDraws(draws)
    requires j < 3 * |draws|
    ensures |RunRecords(start, tempoBase, draws)| == 3 * |draws|
    ensures var rs := RunRecords(start, tempoBase, draws);
      var lines := [HeaderLine()] + WriteRows(rs);
      && |lines| == 1 + 3 * |draws|
      && ParseRecordLine(lines[j + 1]) == Some(Row(rs[j].idLocal, rs[j].dataHoraMs, rs[j].idSensor, Hundredths(rs[j].valor)))
      && rs[j].idLocal == j / 3 + 1
      && rs[j].dataHoraMs == tempoBase + (j / 3 + 1) * IntervaloMs
      && rs[j].idSensor == j % 3 + 1
  {
    RunRecordFields(start, tempoBase, draws, j);
    FileLineReadsBack(HeaderLine(), RunRecords(start, tempoBase, draws), j);
  }

  /** With no time points the file is the header line alone. */
  lemma EmptyRunIsHeaderOnly(start: Trends, tempoBase: int)
    ensures [HeaderLine()] + WriteRows(RunRecords(start, tempoBase, [])) == [HeaderLine()]
  {
    assert WriteRows(RunRecords(start, tempoBase, [])) == [];
  }
}
