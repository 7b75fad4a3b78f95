/**
 * The days of a line: an ordered list of day names kept in
 * `days/<line>.json`, to which a day is only ever appended, and only once.
 */
module DayController {
  import opened Common
  import opened FileStore

  /** `getDaysByLine`: the stored list, or the empty list when the line has no days file. */
  method GetDaysByLine(st: Store, lineId: string) returns (days: seq<string>)
    ensures lineId !in st.days ==> days == []
    ensures lineId in st.days ==> days == st.days[lineId]
  {
    days := Read(st.days, lineId);
  }

  /**
   * `createDay`: a day already in the list is refused with 400 and nothing
   * is written; otherwise it is appended at the end.
   */
  method CreateDay(st: Store, lineId: string, day: string) returns (status: Status, days: seq<string>)
    requires day != ""
    modifies st`days
    ensures status == BadRequest <==> day in old(Read(st.days, lineId))
    ensures status == BadRequest ==> st.days == old(st.days)
    ensures status != BadRequest ==> status == Created
    ensures status == Created ==> days == old(Read(st.days, lineId)) + [day] && st.days == old(st.days)[lineId := days]
  {
    days := Read(st.days, lineId);
    if day in days {
      return BadRequest, days;
    }
    days := days + [day];
    st.days := st.days[lineId := days];
    status := Created;
  }

  /** Appending a day that is not yet listed keeps the list free of duplicates and keeps every earlier day in place. */
  lemma {:induction false} AppendKeepsNoDup(days: seq<string>, day: string)
    requires NoDup(days) && day !in days
    ensures NoDup(days + [day])
    ensures (days + [day])[..|days|] == days
  {
    var s := days + [day];
    forall i, j | 0 <= i < j < |s| ensures s[i] != s[j] {
      if j == |days| {
        assert s[i] == days[i];
      } else {
        assert s[i] == days[i] && s[j] == days[j];
      }
    }
  }
}
