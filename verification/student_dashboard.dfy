/** The student dashboard: the three-way colour rule for attendance figures,
    applied to the mock student's overall and per-subject attendance, and the
    logout button. */
module StudentDashboard {

  /** The colour band `getColor` picks, from worst to best. */
  datatype Severity = Red | Yellow | Green

  /** The order of the bands: red below yellow below green. */
  function Rank(s: Severity): nat {
    match s
    case Red => 0
    case Yellow => 1
    case Green => 2
  }

  /** `getColor`: below 75 is red, from 75 up to (not including) 85 is yellow,
      85 and above is green. */
  function GetColor(value: real): (s: Severity)
    ensures s == Red <==> value < 75.0
    ensures s == Yellow <==> 75.0 <= value < 85.0
    ensures s == Green <==> 85.0 <= value
  {
    if value < 75.0 then Red
    else if value < 85.0 then Yellow
    else Green
  }

  /** A higher attendance figure never gets a worse colour. */
  lemma GetColorMonotone(v: real, w: real)
    requires v <= w
    ensures Rank(GetColor(v)) <= Rank(GetColor(w))
  {
  }

  /** The mock student's overall attendance. */
  const OverallAttendance: real := 78.0

  /** The mock per-subject attendance, in the order the subjects are listed. */
  const SubjectAttendance: seq<real> := [72.0, 81.0, 88.0]

  /** On the mock figures the overall metric is yellow and the three subjects
      are red, yellow and green. */
  lemma MockColors()
    ensures GetColor(OverallAttendance) == Yellow
    ensures seq(|SubjectAttendance|, i requires 0 <= i < |SubjectAttendance| => GetColor(SubjectAttendance[i]))
         == [Red, Yellow, Green]
  {
  }

  /** The browser state the logout button acts on. */
  class StudentPage {
    var storage: map<string, string>
    var location: string

    constructor (storage: map<string, string>, location: string)
      ensures this.storage == storage && this.location == location
    {
      this.storage, this.location := storage, location;
    }

    /** `handleLogout`: every stored key goes, not only the session's, and the
        browser goes to the landing page. */
    method HandleLogout()
      modifies this
      ensures storage == map[] && location == "/"
    {
      storage := map[];
      location := "/";
    }
  }
}
