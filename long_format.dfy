/**
 * The long-format record stream both programs write: a header naming the
 * four columns, then one line per (time point, sensor) with the fields
 * id_local, data_hora_ms, id_sensor and valor, separated by ';'.
 */
module LongFormat {
  import opened Text

  const Delimiter: char := ';'

  /** Column names, in column order. */
  const Columns: seq<string> := ["id_local", "data_hora_ms", "id_sensor", "valor"]

  /** A line read back from the stream; valor as a count of hundredths. */
  datatype Row = Row(idLocal: int, dataHoraMs: int, idSensor: int, hundredths: int)

  /** The header line: the column names joined by the delimiter. */
  function HeaderLine(): string {
    Join(Columns, Delimiter)
  }

  lemma ColumnsHaveNoDelimiter()
    ensures forall k :: 0 <= k < |Columns| ==> Delimiter !in Columns[k]
  {
  }

  /** The header reads id_local;data_hora_ms;id_sensor;valor. */
  lemma HeaderLineText()
    ensures HeaderLine() == "id_local" + [Delimiter] + ("data_hora_ms" + [Delimiter] + ("id_sensor" + [Delimiter] + "valor"))
  {
    assert Columns[3..] == ["valor"];
    assert Columns[2..] == ["id_sensor", "valor"];
    assert Columns[1..] == ["data_hora_ms", "id_sensor", "valor"];
  }

  /** One record line: the three integer fields in decimal, then the value's text. */
  function RecordLine(idLocal: int, dataHoraMs: int, idSensor: int, valor: string): string
  {
    Join([IntToString(idLocal), IntToString(dataHoraMs), IntToString(idSensor), valor], Delimiter)
  }

  /** The header splits back into the column names. */
  lemma HeaderLineColumns()
    ensures Split(HeaderLine(), Delimiter) == Columns
  {
    ColumnsHaveNoDelimiter();
    SplitJoin(Columns, Delimiter);
  }

  /** Reads a record line back; None unless it has four well-formed fields. */
  function ParseRecordLine(line: string): (r: Option<Row>)
  {
    var fields := Split(line, Delimiter);
    if |fields| != 4 then None
    else
      match (ParseInt(fields[0]), ParseInt(fields[1]), ParseInt(fields[2]), ParseDecimal(fields[3]))
      case (Some(i), Some(t), Some(s), Some(v)) => Some(Row(i, t, s, v))
      case _ => None
  }

  /** The header line does not read as a record: its first field is not a number. */
  lemma HeaderIsNoRecord()
    ensures ParseRecordLine(HeaderLine()) == None
  {
    HeaderLineColumns();
    assert Split(HeaderLine(), Delimiter)[0] == "id_local";
    assert !IsDigit('i');
  }

  lemma IntTextHasNoDelimiter(i: int)
    ensures Delimiter !in IntToString(i)
  {
  }

  /** A record line has exactly the four fields it was made from, in order. */
  lemma RecordLineFields(idLocal: int, dataHoraMs: int, idSensor: int, valor: string)
    requires Delimiter !in valor
    ensures Split(RecordLine(idLocal, dataHoraMs, idSensor, valor), Delimiter)
         == [IntToString(idLocal), IntToString(dataHoraMs), IntToString(idSensor), valor]
  {
    var fields := [IntToString(idLocal), IntToString(dataHoraMs), IntToString(idSensor), valor];
    IntTextHasNoDelimiter(idLocal);
    IntTextHasNoDelimiter(dataHoraMs);
    IntTextHasNoDelimiter(idSensor);
    SplitJoin(fields, Delimiter);
  }

  /** Reading a record line back yields the numbers it was written from. */
  lemma ParseRecordLineOf(idLocal: int, dataHoraMs: int, idSensor: int, valor: string, hundredths: int)
    requires Delimiter !in valor
    requires ParseDecimal(valor) == Some(hundredths)
    ensures ParseRecordLine(RecordLine(idLocal, dataHoraMs, idSensor, valor))
         == Some(Row(idLocal, dataHoraMs, idSensor, hundredths))
  {
    RecordLineFields(idLocal, dataHoraMs, idSensor, valor);
    ParseIntToString(idLocal);
    ParseIntToString(dataHoraMs);
    ParseIntToString(idSensor);
  }
}
