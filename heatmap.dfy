/** The compact submission heatmap drawn in the activity panel of the card:
    twelve weeks of seven days, one coloured square per day. */
module Heatmap {
  import opened Optional

  /** The parsed submission calendar: a timestamp key (seconds) to the number
      of submissions recorded under it. */
  type Calendar = map<int, int>

  /** The two keys under which one day may appear in the calendar: the
      timestamp of the same moment that many days ago, and the timestamp of
      midnight of that day. */
  datatype DayKey = DayKey(second: int, midnight: int)

  /** The five fill colours of a square. */
  datatype Color = Empty | Low | Medium | High | Max

  const Weeks: nat := 12
  const DaysPerWeek: nat := 7
  const Cells: nat := Weeks * DaysPerWeek
  /** Distance between neighbouring squares, both across and down. */
  const Pitch: nat := 12

  /** A square of the heatmap: its top-left corner and its fill. */
  datatype Square = Square(x: int, y: int, fill: Color)

  function Hex(c: Color): string
  {
    match c
    case Empty => "#1a1a2e"
    case Low => "#0e4429"
    case Medium => "#006d32"
    case High => "#26a641"
    case Max => "#39d353"
  }

  /** Intensity rank of a colour, darkest first. */
  function Level(c: Color): (n: nat)
    ensures n < 5
  {
    match c
    case Empty => 0
    case Low => 1
    case Medium => 2
    case High => 3
    case Max => 4
  }

  /** The colour bucket of a day's submission count. */
  function Bucket(count: int): Color
  {
    if 0 < count <= 2 then Low
    else if 2 < count <= 5 then Medium
    else if 5 < count <= 10 then High
    else if 10 < count then Max
    else Empty
  }

  /** The upper bounds of the first four buckets. */
  const Thresholds: seq<int> := [0, 2, 5, 10]

  /** How many of `bounds` lie strictly below `count`. */
  function CountBelow(bounds: seq<int>, count: int): (n: nat)
    ensures n <= |bounds|
  {
    if bounds == [] then 0
    else (if bounds[0] < count then 1 else 0) + CountBelow(bounds[1..], count)
  }

  /** The bucket of a count is the number of thresholds it exceeds. */
  lemma BucketByThresholds(count: int)
    ensures Level(Bucket(count)) == CountBelow(Thresholds, count)
  {
    assert Thresholds[1..] == [2, 5, 10];
    assert [2, 5, 10][1..] == [5, 10];
    assert [5, 10][1..] == [10];
    assert [10][1..] == [];
    assert CountBelow([10], count) == if 10 < count then 1 else 0;
    assert CountBelow([5, 10], count) == (if 5 < count then 1 else 0) + CountBelow([10], count);
    assert CountBelow([2, 5, 10], count) == (if 2 < count then 1 else 0) + CountBelow([5, 10], count);
  }

  /** More submissions never give a darker square. */
  lemma BucketMonotone(a: int, b: int)
    requires a <= b
    ensures Level(Bucket(a)) <= Level(Bucket(b))
  {
  }

  /** `Hex` tells the buckets apart. */
  lemma HexInjective(c: Color, d: Color)
    requires Hex(c) == Hex(d)
    ensures c == d
  {
  }

  /** A day's count: the entry under its own timestamp, else the entry under
      its midnight, else 0; an entry of 0 counts as missing. */
  function CountOn(calendar: Calendar, key: DayKey): (n: int)
    ensures n != 0 ==>
      (key.second in calendar && n == calendar[key.second]) || (key.midnight in calendar && n == calendar[key.midnight])
    ensures key.second in calendar && calendar[key.second] != 0 ==> n == calendar[key.second]
    ensures key.second !in calendar && key.midnight !in calendar ==> n == 0
    ensures ((key.second !in calendar || calendar[key.second] == 0)
             && key.midnight in calendar && calendar[key.midnight] != 0)
            ==> n == calendar[key.midnight]
  {
    if key.second in calendar && calendar[key.second] != 0 then calendar[key.second]
    else if key.midnight in calendar && calendar[key.midnight] != 0 then calendar[key.midnight]
    else 0
  }

  /** Which column and which row the i-th emitted square occupies, and how
      many days before today it shows. */
  function Column(i: nat): nat { i / DaysPerWeek }
  function Row(i: nat): nat { i % DaysPerWeek }
  function DaysAgo(i: nat): int { Cells - 1 - i }

  /** The i-th square of the heatmap. Without a calendar every square is
      empty. */
  function SquareAt(calendar: Option<Calendar>, startX: int, startY: int,
                    keys: nat -> DayKey, i: nat): Square
    requires i < Cells
  {
    var fill := match calendar
      case None => Empty
      case Some(cal) => Bucket(CountOn(cal, keys(DaysAgo(i))));
    Square(startX + Pitch * Column(i), startY + Pitch * Row(i), fill)
  }

  lemma DivMod(w: nat, d: nat)
    requires d < DaysPerWeek
    ensures (w * DaysPerWeek + d) / DaysPerWeek == w
    ensures (w * DaysPerWeek + d) % DaysPerWeek == d
  {
  }

  /** Draws the heatmap: without a calendar, 84 empty squares column by
      column; with one, the weeks from the oldest (11 weeks back) to the
      current one, each day coloured by its count. `keys(k)` are the
      calendar keys of the day `k` days before now. */
  method GenerateHeatmap(calendar: Option<Calendar>, startX: int, startY: int,
                         keys: nat -> DayKey)
    returns (squares: seq<Square>)
    ensures |squares| == Cells
    ensures forall i :: 0 <= i < |squares| ==> squares[i] == SquareAt(calendar, startX, startY, keys, i)
  {
    squares := [];
    if calendar.None? {
      var week := 0;
      while week < Weeks
        invariant 0 <= week <= Weeks
        invariant |squares| == week * DaysPerWeek
        invariant forall i :: 0 <= i < |squares| ==> squares[i] == SquareAt(calendar, startX, startY, keys, i)
      {
        var day := 0;
        while day < DaysPerWeek
          invariant 0 <= day <= DaysPerWeek
          invariant |squares| == week * DaysPerWeek + day
          invariant forall i :: 0 <= i < |squares| ==> squares[i] == SquareAt(calendar, startX, startY, keys, i)
        {
          DivMod(week, day);
          squares := squares + [Square(startX + week * Pitch, startY + day * Pitch, Empty)];
          day := day + 1;
        }
        week := week + 1;
      }
    } else {
      var cal := calendar.value;
      var week: int := Weeks - 1;
      while week >= 0
        invariant -1 <= week < Weeks
        invariant |squares| == (Weeks - 1 - week) * DaysPerWeek
        invariant forall i :: 0 <= i < |squares| ==> squares[i] == SquareAt(calendar, startX, startY, keys, i)
      {
        var day := 0;
        while day < DaysPerWeek
          invariant 0 <= day <= DaysPerWeek
          invariant |squares| == (Weeks - 1 - week) * DaysPerWeek + day
          invariant forall i :: 0 <= i < |squares| ==> squares[i] == SquareAt(calendar, startX, startY, keys, i)
        {
          var count := CountOn(cal, keys(week * DaysPerWeek + (6 - day)));
          var fill := Bucket(count);
          var x := startX + (Weeks - 1 - week) * Pitch;
          var y := startY + day * Pitch;
          DivMod(Weeks - 1 - week, day);
          squares := squares + [Square(x, y, fill)];
          day := day + 1;
        }
        week := week - 1;
      }
    }
  }

  /** Every square sits on the 12-pixel grid, in one of 12 columns and one
      of 7 rows. */
  lemma SquareOnGrid(calendar: Option<Calendar>, startX: int, startY: int,
                     keys: nat -> DayKey, i: nat)
    requires i < Cells
    ensures var s := SquareAt(calendar, startX, startY, keys, i);
      exists col, row :: 0 <= col < Weeks && 0 <= row < DaysPerWeek
        && s.x == startX + Pitch * col && s.y == startY + Pitch * row
  {
    var s := SquareAt(calendar, startX, startY, keys, i);
    assert 0 <= Column(i) < Weeks && 0 <= Row(i) < DaysPerWeek;
    assert s.x == startX + Pitch * Column(i) && s.y == startY + Pitch * Row(i);
  }

  /** No two squares overlap: distinct squares have distinct positions. */
  lemma SquaresDistinct(calendar: Option<Calendar>, startX: int, startY: int,
                         keys: nat -> DayKey, i: nat, j: nat)
    requires i < Cells && j < Cells && i != j
    ensures SquareAt(calendar, startX, startY, keys, i).x != SquareAt(calendar, startX, startY, keys, j).x
         || SquareAt(calendar, startX, startY, keys, i).y != SquareAt(calendar, startX, startY, keys, j).y
  {
  }

  /** Columns run from oldest on the left to newest on the right, and
      within a column days run from oldest at the top: a square left of
      another, or above it in the same column, shows an earlier day. */
  lemma OldestFirst(i: nat, j: nat)
    requires i < Cells && j < Cells
    requires Column(i) < Column(j) || (Column(i) == Column(j) && Row(i) < Row(j))
    ensures DaysAgo(i) > DaysAgo(j)
    ensures 0 <= DaysAgo(j) && DaysAgo(i) < Cells
  {
  }

  /** The rightmost column ends with today and the leftmost starts 83 days
      back. */
  lemma Span()
    ensures DaysAgo(Cells - 1) == 0 && DaysAgo(0) == 83
    ensures Column(0) == 0 && Column(Cells - 1) == Weeks - 1
  {
  }

  /** Without a calendar the heatmap is all empty. */
  lemma NoCalendarAllEmpty(startX: int, startY: int, keys: nat -> DayKey, i: nat)
    requires i < Cells
    ensures SquareAt(None, startX, startY, keys, i).fill == Empty
  {
  }

  /** A day that is missing from the calendar is drawn empty. */
  lemma MissingDayEmpty(cal: Calendar, startX: int, startY: int, keys: nat -> DayKey, i: nat)
    requires i < Cells
    requires keys(DaysAgo(i)).second !in cal && keys(DaysAgo(i)).midnight !in cal
    ensures SquareAt(Some(cal), startX, startY, keys, i).fill == Empty
  {
  }
}
