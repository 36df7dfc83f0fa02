/** The records of the health data set and the two families of axis choices. */
module Health {

  /** One row of the data file, after its six numeric columns were converted to numbers. */
  datatype Record = Record(
    state: string,
    abbr: string,
    poverty: real,
    age: real,
    income: real,
    healthcare: real,
    smokes: real,
    obesity: real)

  /** The three horizontal-axis choices, one per x label. */
  datatype XAxis = Poverty | Age | Income
  {
    /** The label's `value` attribute, which is also the name of the record column it selects. */
    function Value(): string
    {
      match this
      case Poverty => "poverty"
      case Age => "age"
      case Income => "income"
    }

    /** The column this choice selects, `d[chosenXAxis]`. */
    function Of(r: Record): real
    {
      match this
      case Poverty => r.poverty
      case Age => r.age
      case Income => r.income
    }
  }

  /** The three vertical-axis choices, one per y label. */
  datatype YAxis = Healthcare | Smokes | Obesity
  {
    function Value(): string
    {
      match this
      case Healthcare => "healthcare"
      case Smokes => "smokes"
      case Obesity => "obesity"
    }

    function Of(r: Record): real
    {
      match this
      case Healthcare => r.healthcare
      case Smokes => r.smokes
      case Obesity => r.obesity
    }
  }

  /** The `value` attribute identifies the label: comparing attribute strings, as the click
      handlers do, is the same as comparing choices. */
  lemma ValueIdentifiesAxis(a: XAxis, b: XAxis, c: YAxis, d: YAxis)
    ensures a.Value() == b.Value() <==> a == b
    ensures c.Value() == d.Value() <==> c == d
  {
  }

  /** The x column of every record, in data set order. */
  function XColumn(data: seq<Record>, k: XAxis): (col: seq<real>)
    ensures |col| == |data|
  {
    seq(|data|, i requires 0 <= i < |data| => k.Of(data[i]))
  }

  /** The y column of every record, in data set order. */
  function YColumn(data: seq<Record>, k: YAxis): (col: seq<real>)
    ensures |col| == |data|
  {
    seq(|data|, i requires 0 <= i < |data| => k.Of(data[i]))
  }
}
