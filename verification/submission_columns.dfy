/** The submission table: its column order and the plain text of the cells
    that render text. User, status, date and action cells render components
    or formatted dates and are not modelled. */
module SubmissionColumns {
  import opened Wrappers
  import opened NumberText

  datatype Column =
    | IdColumn | ProblemColumn | UserColumn | TimeColumn
    | MemoryColumn | StatusColumn | CreatedAtColumn | ActionColumn

  /** The accessor key, or for the action column its id. */
  function Key(c: Column): string {
    match c
    case IdColumn => "id"
    case ProblemColumn => "problem"
    case UserColumn => "user"
    case TimeColumn => "time"
    case MemoryColumn => "memory"
    case StatusColumn => "status"
    case CreatedAtColumn => "createdAt"
    case ActionColumn => "action"
  }

  /** The columns, left to right: every column exactly once, in a fixed
      order of keys from the id to the action menu. */
  function Columns(): (cs: seq<Column>)
    ensures |cs| == 8
    ensures forall i, j :: 0 <= i < j < |cs| ==> cs[i] != cs[j]
    ensures forall c: Column :: c in cs
    ensures cs[0] == IdColumn && cs[|cs| - 1] == ActionColumn
    ensures forall i :: 0 <= i < |cs| ==>
      Key(cs[i]) == ["id", "problem", "user", "time", "memory", "status", "createdAt", "action"][i]
  {
    var cs := [IdColumn, ProblemColumn, UserColumn, TimeColumn, MemoryColumn, StatusColumn, CreatedAtColumn, ActionColumn];
    EveryColumnListed(cs);
    cs
  }

  lemma EveryColumnListed(cs: seq<Column>)
    requires cs == [IdColumn, ProblemColumn, UserColumn, TimeColumn, MemoryColumn, StatusColumn, CreatedAtColumn, ActionColumn]
    ensures forall c: Column :: c in cs
  {
    forall c: Column
      ensures c in cs
    {
      match c
      case IdColumn => assert cs[0] == c;
      case ProblemColumn => assert cs[1] == c;
      case UserColumn => assert cs[2] == c;
      case TimeColumn => assert cs[3] == c;
      case MemoryColumn => assert cs[4] == c;
      case StatusColumn => assert cs[5] == c;
      case CreatedAtColumn => assert cs[6] == c;
      case ActionColumn => assert cs[7] == c;
    }
  }

  /** No two columns share a key, so the table can address each by its key. */
  lemma KeysDistinct(a: Column, b: Column)
    ensures Key(a) == Key(b) <==> a == b
  {}

  datatype ProblemRef = ProblemRef(id: int, title: string)

  /** The fields of a submission row that render as text. */
  datatype SubmissionRow = SubmissionRow(id: int, problem: ProblemRef, time: Option<int>, memory: Option<int>)

  /** The id cell: the submission id as it is. */
  function IdCell(id: int): (text: string)
    ensures ParseInt(text) == Some(id)
  {
    IntTextRoundTrip(id);
    IntText(id)
  }

  /** A nullable measurement: a dash for null, otherwise the number and its unit. */
  function MeasureCell(v: Option<int>, unit: string): (text: string)
    ensures text == "-" <==> v.None?
    ensures ParseMeasureCell(text, unit) == Some(v)
  {
    match v
    case None => "-"
    case Some(n) =>
      var text := IntText(n) + unit;
      assert text[..|text| - |unit|] == IntText(n) && text[|text| - |unit|..] == unit;
      IntTextRoundTrip(n);
      text
  }

  /** The running-time cell, in milliseconds. */
  function TimeCell(time: Option<int>): (text: string)
    ensures text == "-" <==> time.None?
    ensures ParseMeasureCell(text, "ms") == Some(time)
  {
    MeasureCell(time, "ms")
  }

  /** The memory cell, in kilobytes. */
  function MemoryCell(memory: Option<int>): (text: string)
    ensures text == "-" <==> memory.None?
    ensures ParseMeasureCell(text, "kB") == Some(memory)
  {
    MeasureCell(memory, "kB")
  }

  /** Reads a measurement cell back: a dash is null, otherwise a number followed by `unit`. */
  function ParseMeasureCell(text: string, unit: string): Option<Option<int>> {
    if text == "-" then Some(None)
    else if |text| >= |unit| && text[|text| - |unit|..] == unit then
      match ParseInt(text[..|text| - |unit|])
      case Some(n) => Some(Some(n))
      case None => None
    else None
  }

  /** The position of the first space in `s`, if any. */
  function FirstSpace(s: string): (k: Option<nat>)
    ensures k.None? <==> ' ' !in s
    ensures k.Some? ==> k.value < |s| && s[k.value] == ' ' && ' ' !in s[..k.value]
    decreases |s|
  {
    if |s| == 0 then None
    else if s[0] == ' ' then Some(0)
    else match FirstSpace(s[1..])
      case None => None
      case Some(j) =>
        assert s[..j + 1] == [s[0]] + s[1..][..j];
        Some(j + 1)
  }

  /** The problem cell: a hash sign, the problem id, a space and the title. */
  function ProblemLabel(p: ProblemRef): (text: string)
    ensures |text| >= 3 && text[0] == '#'
    ensures ParseProblemLabel(text) == Some(p)
  {
    var digits := IntText(p.id);
    var text := "#" + digits + " " + p.title;
    IntTextHasNoSpace(p.id);
    IntTextRoundTrip(p.id);
    var rest := text[1..];
    assert rest == digits + " " + p.title;
    assert rest[..|digits|] == digits;
    FirstSpaceAfter(digits, p.title);
    assert rest[..|digits|] == digits && rest[|digits| + 1..] == p.title;
    text
  }

  /** Reads a problem cell back; the id ends at the first space. */
  function ParseProblemLabel(text: string): Option<ProblemRef> {
    if |text| >= 1 && text[0] == '#' then
      var rest := text[1..];
      match FirstSpace(rest)
      case None => None
      case Some(k) =>
        match ParseInt(rest[..k])
        case Some(id) => Some(ProblemRef(id, rest[k + 1..]))
        case None => None
    else None
  }

  lemma FirstSpaceAfter(a: string, b: string)
    requires ' ' !in a
    ensures FirstSpace(a + " " + b) == Some(|a|)
  {
    var s := a + " " + b;
    assert s[|a|] == ' ';
  }

  /** The text of a row's cell, for the cells modelled as text. The
      createdAt cell also renders text, a formatted date, which is not modelled. */
  function CellText(row: SubmissionRow, c: Column): (text: Option<string>)
    ensures text.Some? <==> c in {IdColumn, ProblemColumn, TimeColumn, MemoryColumn}
    ensures c == IdColumn ==> text == Some(IdCell(row.id))
    ensures c == ProblemColumn ==> text == Some(ProblemLabel(row.problem))
    ensures c == TimeColumn ==> text == Some(TimeCell(row.time))
    ensures c == MemoryColumn ==> text == Some(MemoryCell(row.memory))
  {
    match c
    case IdColumn => Some(IdCell(row.id))
    case ProblemColumn => Some(ProblemLabel(row.problem))
    case TimeColumn => Some(TimeCell(row.time))
    case MemoryColumn => Some(MemoryCell(row.memory))
    case _ => None
  }

  /** The text cells lose nothing: two rows that read the same are the same row. */
  lemma TextCellsDetermineRow(r1: SubmissionRow, r2: SubmissionRow)
    requires forall c :: CellText(r1, c) == CellText(r2, c)
    ensures r1 == r2
  {
    assert CellText(r1, IdColumn) == CellText(r2, IdColumn);
    assert CellText(r1, ProblemColumn) == CellText(r2, ProblemColumn);
    assert CellText(r1, TimeColumn) == CellText(r2, TimeColumn);
    assert CellText(r1, MemoryColumn) == CellText(r2, MemoryColumn);
  }
}
