/**
 * The `Line` model class: constructor defaults and the eight fields of its
 * `toJSON`. A line's running balance is `currentBF`; its opening balance is
 * `amount`.
 */
module LineModel {
  import opened Common
  import Text

  /** A line as stored in `lines.json` or sent in a request body. */
  datatype LineData = LineData(
    id: Option<string>,
    name: Option<string>,
    lineType: Option<string>,
    days: Option<seq<string>>,
    amount: Option<int>,
    currentBF: Option<int>,
    createdAt: Option<Time>,
    updatedAt: Option<Time>)

  /** An instance of the model class after its constructor ran. */
  datatype Line = Line(
    id: string,
    name: Option<string>,
    lineType: Option<string>,
    days: seq<string>,
    amount: int,
    currentBF: int,
    createdAt: Time,
    updatedAt: Time)

  /**
   * `new Line(data)` at time `now`: a missing id becomes the decimal clock
   * reading, and a missing or zero `currentBF` falls back to `amount`.
   */
  function New(data: LineData, now: Time): (l: Line)
    ensures l.id != ""
    ensures Truthy(data.id) ==> l.id == data.id.value
    ensures !Truthy(data.id) ==> l.id == Text.IntToString(now)
    ensures l.name == data.name && l.lineType == data.lineType
    ensures l.days == data.days.GetOr([])
    ensures l.amount == Num(data.amount)
    ensures NonZero(data.currentBF) ==> l.currentBF == data.currentBF.value
    ensures !NonZero(data.currentBF) ==> l.currentBF == l.amount
    ensures l.createdAt == data.createdAt.GetOr(now) && l.updatedAt == now
  {
    Line(
      if Truthy(data.id) then data.id.value else Text.IntToString(now),
      data.name,
      data.lineType,
      data.days.GetOr([]),
      Num(data.amount),
      if NonZero(data.currentBF) then data.currentBF.value else Num(data.amount),
      data.createdAt.GetOr(now),
      now)
  }

  /** `line.toJSON()`: exactly the eight fields, all present. */
  function ToJson(l: Line): (d: LineData)
    ensures d.id == Some(l.id) && d.name == l.name && d.lineType == l.lineType
    ensures d.days == Some(l.days)
    ensures d.amount == Some(l.amount) && d.currentBF == Some(l.currentBF)
    ensures d.createdAt == Some(l.createdAt) && d.updatedAt == Some(l.updatedAt)
  {
    LineData(Some(l.id), l.name, l.lineType, Some(l.days), Some(l.amount),
      Some(l.currentBF), Some(l.createdAt), Some(l.updatedAt))
  }

  /**
   * Rebuilding a line from its JSON keeps every field but `updatedAt`
   * exactly when its balance is not a zero that the constructor would
   * replace by a non-zero opening amount.
   */
  lemma RoundTrip(l: Line, now: Time)
    requires l.id != ""
    ensures New(ToJson(l), now) == l.(updatedAt := now) <==> (l.currentBF != 0 || l.amount == 0)
  {
    if l.currentBF == 0 && l.amount != 0 {
      assert New(ToJson(l), now).currentBF != l.currentBF;
    }
  }
}
