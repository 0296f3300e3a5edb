/** The teacher dashboard: a per-class attendance table that is filled in from a
    fixed roster the first time a class is looked at, changed one student at a
    time by the Toggle button, and summarised as present, absent and percentage
    figures for the class on screen. */
module TeacherDashboard {
  import opened Browser
  import StudentDashboard

  /** One class the teacher takes. */
  datatype ClassInfo = ClassInfo(
    id: int,
    name: string,
    subject: string,
    section: string,
    totalStudents: nat,
    schedule: string,
    room: string,
    defaulters: nat,
    weeklyAvg: nat)

  /** One roster row: the student, whether the roster marks them present, and
      their attendance percentage so far. */
  datatype StudentRow = StudentRow(id: int, name: string, rollNo: string, present: bool, percentage: real)

  /** The summary shown above the table. */
  datatype Stats = Stats(present: nat, total: nat, percentage: real) {
    /** The figure on the Absent card. */
    function Absent(): int {
      total - present
    }
  }

  /** The attendance table: class id to (student id to present). */
  type Table = map<int, map<int, bool>>

  const MockClasses: seq<ClassInfo> := [
    ClassInfo(1, "Class 10-A", "Mathematics", "A", 40, "Mon, Wed, Fri • 9:00 AM", "Lab 5", 6, 82),
    ClassInfo(2, "Class 10-B", "Physics", "B", 38, "Tue, Thu • 11:00 AM", "Lab 3", 9, 76),
    ClassInfo(3, "Class 9-A", "English", "A", 35, "Mon, Wed, Fri • 2:00 PM", "Room 12", 4, 88)
  ]

  const MockRoster: map<int, seq<StudentRow>> := map[
    1 := [
      StudentRow(1, "Om Kane", "001", true, 89.0),
      StudentRow(2, "Priya Singh", "002", true, 92.0),
      StudentRow(3, "Raj Patel", "003", false, 68.0),
      StudentRow(4, "Isha Sharma", "004", true, 84.0),
      StudentRow(5, "Neha Gupta", "005", false, 71.0)
    ],
    2 := [
      StudentRow(1, "Akshay Reddy", "001", true, 78.0),
      StudentRow(2, "Diya Malhotra", "002", true, 81.0),
      StudentRow(3, "Sarthak Jain", "003", false, 66.0)
    ],
    3 := [
      StudentRow(1, "Kavya Sharma", "001", true, 93.0),
      StudentRow(2, "Aditya Rao", "002", false, 72.0),
      StudentRow(3, "Zara Khan", "003", true, 87.0)
    ]
  ]

  /** `attendanceData[classId] || []`: the class's roster, empty when it has
      none. */
  function RosterOf(data: map<int, seq<StudentRow>>, classId: int): seq<StudentRow> {
    if classId in data then data[classId] else []
  }

  /** The ids on a roster. */
  function Ids(rows: seq<StudentRow>): set<int> {
    set i | 0 <= i < |rows| :: rows[i].id
  }

  /** No two rows of the roster share an id. */
  predicate UniqueIds(rows: seq<StudentRow>) {
    forall i, j | 0 <= i < j < |rows| :: rows[i].id != rows[j].id
  }

  /** The marks a class starts with: each row, first to last, sets its id to its
      `present` flag, so a later row with the same id wins. */
  function InitialMarks(rows: seq<StudentRow>): map<int, bool>
    decreases |rows|
  {
    if rows == [] then map[]
    else
      var last := rows[|rows| - 1];
      InitialMarks(rows[..|rows| - 1])[last.id := last.present]
  }

  /** The ids of a roster are those of all rows but the last, plus the last's. */
  lemma IdsSnoc(rows: seq<StudentRow>)
    requires rows != []
    ensures Ids(rows) == Ids(rows[..|rows| - 1]) + {rows[|rows| - 1].id}
  {
    var init := rows[..|rows| - 1];
    forall k | k in Ids(rows) ensures k in Ids(init) + {rows[|rows| - 1].id} {
      var i :| 0 <= i < |rows| && rows[i].id == k;
      if i < |rows| - 1 {
        assert init[i].id == k;
      }
    }
    forall k | k in Ids(init) ensures k in Ids(rows) {
      var i :| 0 <= i < |init| && init[i].id == k;
      assert rows[i].id == k;
    }
  }

  /** Dropping the last row of a roster with unique ids leaves a roster with
      unique ids, none of which is the last row's. */
  lemma UniqueSnoc(rows: seq<StudentRow>)
    requires rows != [] && UniqueIds(rows)
    ensures UniqueIds(rows[..|rows| - 1])
    ensures forall i | 0 <= i < |rows| - 1 :: rows[i].id != rows[|rows| - 1].id
  {
    var init := rows[..|rows| - 1];
    forall i, j | 0 <= i < j < |init| ensures init[i].id != init[j].id {
      assert init[i] == rows[i] && init[j] == rows[j];
    }
  }

  /** The initial marks have exactly the roster's ids as keys. */
  lemma {:induction false} InitialMarksKeys(rows: seq<StudentRow>)
    ensures InitialMarks(rows).Keys == Ids(rows)
    decreases |rows|
  {
    if rows != [] {
      InitialMarksKeys(rows[..|rows| - 1]);
      IdsSnoc(rows);
    }
  }

  /** With unique ids, each student starts with the roster's own flag. */
  lemma {:induction false} InitialMarksValues(rows: seq<StudentRow>)
    requires UniqueIds(rows)
    ensures forall i | 0 <= i < |rows| ::
      rows[i].id in InitialMarks(rows) && InitialMarks(rows)[rows[i].id] == rows[i].present
    decreases |rows|
  {
    if rows != [] {
      var init := rows[..|rows| - 1];
      UniqueSnoc(rows);
      InitialMarksValues(init);
      forall i | 0 <= i < |rows|
        ensures rows[i].id in InitialMarks(rows) && InitialMarks(rows)[rows[i].id] == rows[i].present
      {
        if i < |rows| - 1 {
          assert rows[i] == init[i];
        }
      }
    }
  }

  /** The `forEach` loop of `initAttendance`: the roster's rows written one
      after the other into a fresh map. */
  method BuildInitial(rows: seq<StudentRow>) returns (initial: map<int, bool>)
    ensures initial == InitialMarks(rows)
  {
    initial := map[];
    var i := 0;
    while i < |rows|
      invariant 0 <= i <= |rows|
      invariant initial == InitialMarks(rows[..i])
    {
      assert rows[..i + 1][..i] == rows[..i];
      initial := initial[rows[i].id := rows[i].present];
      i := i + 1;
    }
    assert rows[..|rows|] == rows;
  }

  /** `initAttendance(classId)` as a table update: a class that already has
      marks keeps the table as it is; otherwise the class gets its initial
      marks (none when it has no roster) and every other class keeps its own. */
  function Init(table: Table, data: map<int, seq<StudentRow>>, classId: int): (r: Table)
    ensures r.Keys == table.Keys + {classId}
    ensures forall k | k in table :: r[k] == table[k]
    ensures classId !in table ==> r[classId] == InitialMarks(RosterOf(data, classId))
  {
    if classId in table then table else table[classId := InitialMarks(RosterOf(data, classId))]
  }

  /** `!marks?.[studentId]` in truthiness terms: a student without a mark
      counts as absent. */
  predicate IsOn(marks: map<int, bool>, studentId: int) {
    studentId in marks && marks[studentId]
  }

  /** The marks with one student flipped; a student without a mark becomes
      present. */
  function Flip(marks: map<int, bool>, studentId: int): (r: map<int, bool>)
    ensures r.Keys == marks.Keys + {studentId}
    ensures IsOn(r, studentId) == !IsOn(marks, studentId)
    ensures forall k | k in marks && k != studentId :: r[k] == marks[k]
  {
    marks[studentId := !IsOn(marks, studentId)]
  }

  /** `toggleAttendance(classId, studentId)` as a table update: the class is
      initialised first, then that one student's mark is flipped. */
  function Toggle(table: Table, data: map<int, seq<StudentRow>>, classId: int, studentId: int): Table {
    var t := Init(table, data, classId);
    t[classId := Flip(t[classId], studentId)]
  }

  /** After a toggle the class is initialised and the student's mark is the
      opposite of what it was once the class was initialised; every other
      student of the class and every other class keep their marks, and a
      student who had no mark becomes present. */
  lemma ToggleSpec(table: Table, data: map<int, seq<StudentRow>>, classId: int, studentId: int)
    ensures var r := Toggle(table, data, classId, studentId);
            var before := Init(table, data, classId)[classId];
            && r.Keys == table.Keys + {classId}
            && IsOn(r[classId], studentId) == !IsOn(before, studentId)
            && (studentId !in before ==> r[classId][studentId])
            && r[classId].Keys == before.Keys + {studentId}
            && (forall k | k in before && k != studentId :: r[classId][k] == before[k])
            && (forall c | c in table && c != classId :: r[c] == table[c])
  {
  }

  /** Toggling the same student twice gives back the table as it was once the
      class was initialised, provided the student had a mark then. For a class
      already initialised that is the table the teacher started from. */
  lemma ToggleTwice(table: Table, data: map<int, seq<StudentRow>>, classId: int, studentId: int)
    requires studentId in Init(table, data, classId)[classId]
    ensures Toggle(Toggle(table, data, classId, studentId), data, classId, studentId)
         == Init(table, data, classId)
    ensures classId in table ==> Toggle(Toggle(table, data, classId, studentId), data, classId, studentId) == table
  {
    var t := Init(table, data, classId);
    var once := Toggle(table, data, classId, studentId);
    assert Init(once, data, classId) == once;
    assert Flip(Flip(t[classId], studentId), studentId) == t[classId];
    assert once[classId := Flip(once[classId], studentId)] == t;
  }

  /** The marks of a class as the stats read them: `attendanceState[c]`, an
      empty map when the class has none. */
  function MarksOf(table: Table, classId: int): map<int, bool> {
    if classId in table then table[classId] else map[]
  }

  /** How many roster rows have a present mark (the `filter(...).length`). */
  function PresentCount(rows: seq<StudentRow>, marks: map<int, bool>): (n: nat)
    ensures n <= |rows|
    decreases |rows|
  {
    if rows == [] then 0
    else
      PresentCount(rows[..|rows| - 1], marks) + (if IsOn(marks, rows[|rows| - 1].id) then 1 else 0)
  }

  /** How many roster rows carry the id `studentId`. */
  function Occurrences(rows: seq<StudentRow>, studentId: int): nat
    decreases |rows|
  {
    if rows == [] then 0
    else Occurrences(rows[..|rows| - 1], studentId) + (if rows[|rows| - 1].id == studentId then 1 else 0)
  }

  /** How many roster rows the roster itself marks present. */
  function PresentFlags(rows: seq<StudentRow>): nat
    decreases |rows|
  {
    if rows == [] then 0
    else PresentFlags(rows[..|rows| - 1]) + (if rows[|rows| - 1].present then 1 else 0)
  }

  /** `stats`: present counts the roster rows marked present, total is the
      roster's length, and the percentage is present over total as a percent,
      or 0 for an empty roster. Present never exceeds total, so the Absent card
      is never negative, and the percentage lies between 0 and 100. */
  function ComputeStats(rows: seq<StudentRow>, marks: map<int, bool>): (s: Stats)
    ensures s.total == |rows| && s.present == PresentCount(rows, marks)
    ensures 0 <= s.Absent() <= s.total
    ensures s.total == 0 ==> s.percentage == 0.0
    ensures s.total > 0 ==> s.percentage * (s.total as real) == (s.present as real) * 100.0
    ensures 0.0 <= s.percentage <= 100.0
  {
    var present := PresentCount(rows, marks);
    Stats(present, |rows|, Percent(present, |rows|))
  }

  /** `total ? present / total * 100 : 0` before rounding: a part of a whole as
      a percent, between 0 and 100, and 0 for an empty whole. */
  function Percent(part: nat, whole: nat): (p: real)
    requires part <= whole
    ensures whole == 0 ==> p == 0.0
    ensures whole > 0 ==> p * (whole as real) == (part as real) * 100.0
    ensures 0.0 <= p <= 100.0
  {
    if whole == 0 then 0.0
    else
      var q := (part as real) / (whole as real);
      FractionAtMostOne(part as real, whole as real);
      assert q * (whole as real) == part as real;
      q * 100.0
  }

  /** A part of a positive whole is between none and all of it. */
  lemma FractionAtMostOne(part: real, whole: real)
    requires 0.0 <= part <= whole && 0.0 < whole
    ensures 0.0 <= part / whole <= 1.0
  {
    var q := part / whole;
    assert q * whole == part;
    assert (1.0 - q) * whole == whole - part;
  }

  /** Toggling one student moves the present count by the number of roster
      rows with that id: down when the student was marked present, up
      otherwise. */
  lemma {:induction false} FlipCount(rows: seq<StudentRow>, marks: map<int, bool>, studentId: int)
    ensures PresentCount(rows, Flip(marks, studentId))
         == if IsOn(marks, studentId) then PresentCount(rows, marks) - Occurrences(rows, studentId)
            else PresentCount(rows, marks) + Occurrences(rows, studentId)
    decreases |rows|
  {
    if rows != [] {
      FlipCount(rows[..|rows| - 1], marks, studentId);
    }
  }

  /** With unique ids a student appears at most once, so a toggle moves the
      present count by exactly one for a student on the roster and not at all
      for anyone else. */
  lemma {:induction false} UniqueOccurrences(rows: seq<StudentRow>, studentId: int)
    requires UniqueIds(rows)
    ensures Occurrences(rows, studentId) == if studentId in Ids(rows) then 1 else 0
    decreases |rows|
  {
    if rows != [] {
      var init := rows[..|rows| - 1];
      UniqueSnoc(rows);
      UniqueOccurrences(init, studentId);
      IdsSnoc(rows);
    }
  }

  /** On a roster with unique ids, toggling a student on it moves the Present
      card by exactly one (down if they were present, up if not) and the Absent
      card the other way; the total stays. */
  lemma ToggleStats(table: Table, data: map<int, seq<StudentRow>>, classId: int, studentId: int)
    requires UniqueIds(RosterOf(data, classId)) && studentId in Ids(RosterOf(data, classId))
    ensures var rows := RosterOf(data, classId);
            var before := ComputeStats(rows, MarksOf(Init(table, data, classId), classId));
            var after := ComputeStats(rows, MarksOf(Toggle(table, data, classId, studentId), classId));
            && after.total == before.total
            && after.present == (if IsOn(MarksOf(Init(table, data, classId), classId), studentId)
                                 then before.present - 1 else before.present + 1)
            && after.Absent() == (if IsOn(MarksOf(Init(table, data, classId), classId), studentId)
                                  then before.Absent() + 1 else before.Absent() - 1)
  {
    var rows := RosterOf(data, classId);
    var marks := Init(table, data, classId)[classId];
    FlipCount(rows, marks, studentId);
    UniqueOccurrences(rows, studentId);
  }

  /** Marks for ids not on the roster do not affect its present count. */
  lemma {:induction false} PresentCountIgnores(rows: seq<StudentRow>, marks: map<int, bool>, k: int, v: bool)
    requires k !in Ids(rows)
    ensures PresentCount(rows, marks[k := v]) == PresentCount(rows, marks)
    decreases |rows|
  {
    if rows != [] {
      var init := rows[..|rows| - 1];
      assert Ids(init) <= Ids(rows) by {
        forall j | j in Ids(init) ensures j in Ids(rows) {
          var i :| 0 <= i < |init| && init[i].id == j;
          assert rows[i].id == j;
        }
      }
      assert rows[|rows| - 1].id in Ids(rows);
      PresentCountIgnores(init, marks, k, v);
    }
  }

  /** A freshly initialised class with unique ids shows as many present students
      as the roster marks present. */
  lemma {:induction false} InitialCount(rows: seq<StudentRow>)
    requires UniqueIds(rows)
    ensures PresentCount(rows, InitialMarks(rows)) == PresentFlags(rows)
    decreases |rows|
  {
    if rows != [] {
      var init := rows[..|rows| - 1];
      var last := rows[|rows| - 1];
      UniqueSnoc(rows);
      InitialCount(init);
      PresentCountIgnores(init, InitialMarks(init), last.id, last.present);
    }
  }

  /** The first look at each mock class shows 3 of 5, 2 of 3 and 2 of 3
      students present. */
  lemma MockInitialStats()
    ensures ComputeStats(RosterOf(MockRoster, 1), InitialMarks(RosterOf(MockRoster, 1))) == Stats(3, 5, 60.0)
    ensures ComputeStats(RosterOf(MockRoster, 2), InitialMarks(RosterOf(MockRoster, 2))).present == 2
    ensures ComputeStats(RosterOf(MockRoster, 3), InitialMarks(RosterOf(MockRoster, 3))).present == 2
  {
    MockFlagsFirst();
    MockFlagsRest();
    InitialCount(MockRoster[1]);
    InitialCount(MockRoster[2]);
    InitialCount(MockRoster[3]);
  }

  lemma MockFlagsFirst()
    ensures UniqueIds(MockRoster[1]) && PresentFlags(MockRoster[1]) == 3
  {
    var r := MockRoster[1];
    assert r[..4][..3] == r[..3] && r[..3][..2] == r[..2] && r[..2][..1] == r[..1];
    assert PresentFlags(r[..1]) == 1;
    assert PresentFlags(r[..2]) == 2;
    assert PresentFlags(r[..3]) == 2;
    assert PresentFlags(r[..4]) == 3;
  }

  lemma MockFlagsRest()
    ensures UniqueIds(MockRoster[2]) && PresentFlags(MockRoster[2]) == 2
    ensures UniqueIds(MockRoster[3]) && PresentFlags(MockRoster[3]) == 2
  {
    var r2, r3 := MockRoster[2], MockRoster[3];
    assert r2[..2][..1] == r2[..1] && r3[..2][..1] == r3[..1];
    assert PresentFlags(r2[..1]) == 1 && PresentFlags(r2[..2]) == 2;
    assert PresentFlags(r3[..1]) == 1 && PresentFlags(r3[..2]) == 1;
  }

  /** Toggling student 3 of class 2 twice on a fresh dashboard leaves the class
      with the marks its roster gives it. */
  lemma MockToggleTwice()
    ensures Toggle(Toggle(map[], MockRoster, 2, 3), MockRoster, 2, 3) == Init(map[], MockRoster, 2)
  {
    var rows := MockRoster[2];
    InitialMarksKeys(rows);
    assert rows[2].id == 3;
    assert 3 in Init(map[], MockRoster, 2)[2];
    ToggleTwice(map[], MockRoster, 2, 3);
  }

  /** A row's percentage is shown in red exactly when it is below 75, and in
      green otherwise. */
  predicate RowIsRed(percentage: real) {
    percentage < 75.0
  }

  /** The table's red rows are the student dashboard's red band: both split at
      75, and neither counts 75 itself as red. */
  lemma RowColourAgrees(percentage: real)
    ensures RowIsRed(percentage) <==> StudentDashboard.GetColor(percentage) == StudentDashboard.Red
  {
  }

  /** `classes.find(c => c.id === id)`: the first class with that id, if any. */
  function Find(classes: seq<ClassInfo>, id: int): (r: Option<ClassInfo>)
    ensures r.Some? <==> exists i | 0 <= i < |classes| :: classes[i].id == id
    ensures r.Some? ==> r.value.id == id && r.value in classes
    ensures r.Some? ==> exists i | 0 <= i < |classes| ::
      classes[i] == r.value && forall j | 0 <= j < i :: classes[j].id != id
    decreases |classes|
  {
    if classes == [] then None
    else if classes[0].id == id then Some(classes[0])
    else
      var rest := Find(classes[1..], id);
      assert forall i | 1 <= i < |classes| :: classes[i] == classes[1..][i - 1];
      assert rest.Some? ==> exists i | 0 <= i < |classes| ::
        classes[i] == rest.value && forall j | 0 <= j < i :: classes[j].id != id by {
        if rest.Some? {
          var k :| 0 <= k < |classes[1..]| && classes[1..][k] == rest.value
                   && forall j | 0 <= j < k :: classes[1..][j].id != id;
          assert classes[k + 1] == rest.value;
          assert forall j | 0 <= j < k + 1 :: classes[j].id != id by {
            forall j | 0 <= j < k + 1 ensures classes[j].id != id {
              if j > 0 {
                assert classes[j] == classes[1..][j - 1];
              }
            }
          }
        }
      }
      rest
  }

  /** The dashboard's state: the fixed class list and rosters, the class on
      screen and the attendance table. */
  class Dashboard {
    const classes: seq<ClassInfo>
    const attendanceData: map<int, seq<StudentRow>>
    var selectedClass: int
    var attendanceState: Table

    /** The class on screen is always one of the listed classes. */
    predicate Valid()
      reads this`selectedClass
    {
      Find(classes, selectedClass).Some?
    }

    /** A fresh dashboard: the mock classes and rosters, class 1 on screen and
        an empty table. */
    constructor ()
      ensures Valid()
      ensures classes == MockClasses && attendanceData == MockRoster
      ensures selectedClass == 1 && attendanceState == map[]
    {
      classes := MockClasses;
      attendanceData := MockRoster;
      selectedClass := 1;
      attendanceState := map[];
      assert MockClasses[0].id == 1;
    }

    /** `initAttendance(classId)`. */
    method InitAttendance(classId: int)
      modifies this`attendanceState
      ensures attendanceState == Init(old(attendanceState), attendanceData, classId)
    {
      if classId !in attendanceState {
        var initial := BuildInitial(RosterOf(attendanceData, classId));
        attendanceState := attendanceState[classId := initial];
      }
    }

    /** `toggleAttendance(classId, studentId)`: initialise the class, then flip
        the student's mark. */
    method ToggleAttendance(classId: int, studentId: int)
      modifies this`attendanceState
      ensures attendanceState == Toggle(old(attendanceState), attendanceData, classId, studentId)
    {
      InitAttendance(classId);
      var marks := attendanceState[classId];
      attendanceState := attendanceState[classId := marks[studentId := !(studentId in marks && marks[studentId])]];
    }

    /** A class button's click handler: the class on screen becomes that
        class's id, which keeps it one of the listed classes. */
    method SelectClass(index: int)
      requires 0 <= index < |classes|
      modifies this`selectedClass
      ensures selectedClass == classes[index].id && Valid()
    {
      selectedClass := classes[index].id;
    }

    /** `selectedClassInfo`: the lookup always finds the class on screen. */
    function SelectedClassInfo(): (info: ClassInfo)
      reads this
      requires Valid()
      ensures info in classes && info.id == selectedClass
    {
      Find(classes, selectedClass).value
    }

    /** `stats`: the class on screen is initialised, then summarised from its
        roster and its marks. */
    method RefreshStats() returns (s: Stats)
      modifies this`attendanceState
      ensures attendanceState == Init(old(attendanceState), attendanceData, selectedClass)
      ensures s == ComputeStats(RosterOf(attendanceData, selectedClass), MarksOf(attendanceState, selectedClass))
    {
      InitAttendance(selectedClass);
      var rows := RosterOf(attendanceData, selectedClass);
      s := ComputeStats(rows, attendanceState[selectedClass]);
    }
  }
}
