/** The older session variant: one Session type with the first-type portal
    logic built in, dispatching each operation on the school's portal type.
    The first-type scrapers (firstTypeLogin, getDayTimeTableFirst,
    getSchoolMarksFirst, getTotalMarkReportFirst) and incDate are not part of
    this model: each operation receives what they answer. */
module InlineSessions {
  import opened Wrappers
  import opened Portal

  /** One lesson of a day's timetable. */
  datatype Lesson = Lesson(begin: string, end: string, name: string, classRoom: string)

  /** The timetable of one day. */
  datatype DayTimeTable = DayTimeTable(date: string, lessons: seq<Lesson>)

  /** A timetable for N consecutive days. */
  datatype TimeTable = TimeTable(days: seq<DayTimeTable>)

  /** One mark and homework item of a lesson. */
  datatype SchoolMark = SchoolMark(
    aid: int, cid: int, tp: int, status: bool, inTime: bool,
    name: string, author: string, title: string, kind: string, mark: string, weight: string)

  /** Marks and homework of one day. */
  datatype DaySchoolMarks = DaySchoolMarks(date: string, lessons: seq<SchoolMark>)

  /** Marks and homework of a week. */
  datatype WeekSchoolMarks = WeekSchoolMarks(data: seq<DaySchoolMarks>)

  /** The "academic performance" report: marks per subject. */
  datatype TotalMarkReport = TotalMarkReport(data: map<string, seq<int>>)

  /** The number of days GetTimeTable accepts. */
  const MinDays := 1
  const MaxDays := 7

  /** The date reached from `date` by i successful calls of incDate, or the first
      error incDate gives on the way. */
  function DateAfter(incDate: string -> Result<string, Error>, date: string, i: nat): Result<string, Error>
    decreases i
  {
    if i == 0 then Success(date)
    else match DateAfter(incDate, date, i - 1)
      case Failure(e) => Failure(e)
      case Success(d) => incDate(d)
  }

  /** What k rounds of GetTimeTable's loop collect from `date` on, and the error
      that stopped them (None when all k rounds succeeded). Each round fetches one
      day, keeps it, then advances the date. */
  function Collect(t: ServerType, dayFirst: string -> Result<DayTimeTable, Error>,
                   incDate: string -> Result<string, Error>, date: string, k: nat)
    : (r: (seq<DayTimeTable>, Option<Error>))
    ensures |r.0| <= k
    ensures r.1.None? ==> |r.0| == k
    decreases k
  {
    if k == 0 then ([], None)
    else match Dispatch(t, dayFirst(date))
      case Failure(e) => ([], Some(e))
      case Success(day) =>
        match incDate(date)
        case Failure(e) => ([day], Some(e))
        case Success(next) =>
          var rest := Collect(t, dayFirst, incDate, next, k - 1);
          ([day] + rest.0, rest.1)
  }

  /** Day i of what the loop collected is the day fetched for the date incDate
      reaches after i steps. */
  lemma {:induction false} CollectedDay(t: ServerType, dayFirst: string -> Result<DayTimeTable, Error>,
                                        incDate: string -> Result<string, Error>, date: string, k: nat, i: nat)
    requires i < |Collect(t, dayFirst, incDate, date, k).0|
    ensures DateAfter(incDate, date, i).Success?
    ensures Dispatch(t, dayFirst(DateAfter(incDate, date, i).value))
            == Success(Collect(t, dayFirst, incDate, date, k).0[i])
    decreases k
  {
    if i > 0 {
      var next := incDate(date).value;
      CollectedDay(t, dayFirst, incDate, next, k - 1, i - 1);
      DateAfterShift(incDate, date, next, i - 1);
    }
  }

  /** Stepping once, then i times, is stepping i + 1 times. */
  lemma {:induction false} DateAfterShift(incDate: string -> Result<string, Error>, date: string, next: string, i: nat)
    requires incDate(date) == Success(next)
    ensures DateAfter(incDate, date, i + 1) == DateAfter(incDate, next, i)
    decreases i
  {
    if i > 0 {
      DateAfterShift(incDate, date, next, i - 1);
    }
  }

  /** When the loop stops on an error, either the day fetch failed in the round
      after the last kept day, or advancing past the last kept day failed; in the
      second case as many as k days may have been kept. */
  lemma {:induction false} CollectStopped(t: ServerType, dayFirst: string -> Result<DayTimeTable, Error>,
                                          incDate: string -> Result<string, Error>, date: string, k: nat, e: Error)
    requires Collect(t, dayFirst, incDate, date, k).1 == Some(e)
    ensures var n := |Collect(t, dayFirst, incDate, date, k).0|;
            (DateAfter(incDate, date, n).Success? && Dispatch(t, dayFirst(DateAfter(incDate, date, n).value)) == Failure(e))
            || (n > 0 && DateAfter(incDate, date, n - 1).Success?
                && incDate(DateAfter(incDate, date, n - 1).value) == Failure(e))
    decreases k
  {
    var r := Collect(t, dayFirst, incDate, date, k);
    if Dispatch(t, dayFirst(date)).Success? && incDate(date).Success? {
      var next := incDate(date).value;
      var rest := Collect(t, dayFirst, incDate, next, k - 1);
      CollectStopped(t, dayFirst, incDate, next, k - 1, e);
      var n := |rest.0|;
      DateAfterShift(incDate, date, next, n);
      if n > 0 {
        DateAfterShift(incDate, date, next, n - 1);
      }
    }
  }

  /** On a school of an unknown portal type the first round already fails, with
      the "Unknown SchoolServer Type" error and no day kept. */
  lemma UnknownTypeCollectsNothing(code: int, dayFirst: string -> Result<DayTimeTable, Error>,
                                   incDate: string -> Result<string, Error>, date: string, k: nat)
    requires k > 0
    ensures Collect(OtherType(code), dayFirst, incDate, date, k) == ([], Some(UnknownServerType(code)))
  {
  }

  /** A session to one school's portal. */
  class Session {
    var sess: HttpClient?
    const serv: School
    var at: string
    var ver: string

    /** NewSession: bound to the given school, with no HTTP session yet. */
    constructor (server: School)
      ensures serv == server && sess == null
      ensures at == "" && ver == ""
    {
      sess := null;
      serv := server;
      at := "";
      ver := "";
    }

    /** Login: the first-type login's answer, or an unknown-type error. */
    function Login(firstTypeLogin: Option<Error>): (err: Option<Error>)
      ensures serv.serverType.FirstType? ==> err == firstTypeLogin
      ensures serv.serverType.OtherType? ==> err == Some(UnknownServerType(serv.serverType.code))
    {
      DispatchError(serv.serverType, firstTypeLogin)
    }

    /** getDayTimeTable: the first-type fetch of the given date, or an
        unknown-type error and no day. */
    function GetDayTimeTable(date: string, dayFirst: string -> Result<DayTimeTable, Error>)
      : (r: Result<DayTimeTable, Error>)
      ensures serv.serverType.FirstType? ==> r == dayFirst(date)
      ensures serv.serverType.OtherType? ==> r == Failure(UnknownServerType(serv.serverType.code))
    {
      Dispatch(serv.serverType, dayFirst(date))
    }

    /** GetTimeTable: n outside 1..7 is refused with no timetable; otherwise the
        timetable holds what Collect gathers in n rounds, also when a round fails,
        and the error is the one that stopped the rounds. */
    method GetTimeTable(date: string, n: int, dayFirst: string -> Result<DayTimeTable, Error>,
                        incDate: string -> Result<string, Error>)
      returns (timeTable: Option<TimeTable>, err: Option<Error>)
      ensures (n < MinDays || n > MaxDays) ==> timeTable == None && err == Some(InvalidDaysNumber)
      ensures MinDays <= n <= MaxDays ==>
                timeTable == Some(TimeTable(Collect(serv.serverType, dayFirst, incDate, date, n).0))
                && err == Collect(serv.serverType, dayFirst, incDate, date, n).1
    {
      if n < MinDays || n > MaxDays {
        return None, Some(InvalidDaysNumber);
      }
      var days: seq<DayTimeTable> := [];
      var current := date;
      var i := 0;
      assert days + Collect(serv.serverType, dayFirst, incDate, current, n).0
             == Collect(serv.serverType, dayFirst, incDate, current, n).0;
      while i < n
        invariant 0 <= i <= n
        invariant Collect(serv.serverType, dayFirst, incDate, date, n).0
                  == days + Collect(serv.serverType, dayFirst, incDate, current, n - i).0
        invariant Collect(serv.serverType, dayFirst, incDate, date, n).1
                  == Collect(serv.serverType, dayFirst, incDate, current, n - i).1
      {
        var day := GetDayTimeTable(current, dayFirst);
        if day.Failure? {
          assert days + [] == days;
          return Some(TimeTable(days)), Some(day.error);
        }
        ghost var before := days;
        days := days + [day.value];
        var next := incDate(current);
        if next.Failure? {
          return Some(TimeTable(days)), Some(next.error);
        }
        assert before + ([day.value] + Collect(serv.serverType, dayFirst, incDate, next.value, n - i - 1).0)
               == days + Collect(serv.serverType, dayFirst, incDate, next.value, n - i - 1).0;
        current := next.value;
        i := i + 1;
      }
      assert days + [] == days;
      return Some(TimeTable(days)), None;
    }

    /** GetWeekSchoolMarks: the first-type marks of the week of `date`, or no
        marks and an unknown-type error. */
    function GetWeekSchoolMarks(date: string, marksFirst: string -> Result<WeekSchoolMarks, Error>)
      : (r: Result<WeekSchoolMarks, Error>)
      ensures serv.serverType.FirstType? ==> r == marksFirst(date)
      ensures serv.serverType.OtherType? ==> r == Failure(UnknownServerType(serv.serverType.code))
    {
      Dispatch(serv.serverType, marksFirst(date))
    }

    /** GetTotalMarkReport: the first-type report, or no report and an
        unknown-type error. */
    function GetTotalMarkReport(reportFirst: Result<TotalMarkReport, Error>): (r: Result<TotalMarkReport, Error>)
      ensures serv.serverType.FirstType? ==> r == reportFirst
      ensures serv.serverType.OtherType? ==> r == Failure(UnknownServerType(serv.serverType.code))
    {
      Dispatch(serv.serverType, reportFirst)
    }
  }

  /** On success GetTimeTable's timetable has exactly n days, day i being the one
      fetched for the i-th successor of the start date. */
  lemma TimeTableOnSuccess(t: ServerType, dayFirst: string -> Result<DayTimeTable, Error>,
                           incDate: string -> Result<string, Error>, date: string, n: nat, i: nat)
    requires MinDays <= n <= MaxDays && Collect(t, dayFirst, incDate, date, n).1.None?
    ensures |Collect(t, dayFirst, incDate, date, n).0| == n
    ensures i < n ==> DateAfter(incDate, date, i).Success?
                      && Dispatch(t, dayFirst(DateAfter(incDate, date, i).value))
                         == Success(Collect(t, dayFirst, incDate, date, n).0[i])
  {
    if i < n {
      CollectedDay(t, dayFirst, incDate, date, n, i);
    }
  }
}
