/**
 * The status table's "File Size" column: DataTables calls `render` with the
 * cell value and the kind of rendering it wants. For display and filtering
 * the size in bytes is shown in the largest binary unit it reaches; for every
 * other kind (sorting, type detection) the value is handed back untouched so
 * that sizes still sort as numbers.
 */
module FileSize {

  datatype Unit = Bytes | KiB | MiB | GiB

  const KiBytes: nat := 1024
  const MiBytes: nat := 1024 * 1024
  const GiBytes: nat := 1024 * 1024 * 1024

  /** The text appended after the number. */
  function Suffix(u: Unit): string {
    match u
    case Bytes => " b"
    case KiB => " KiB"
    case MiB => " MiB"
    case GiB => " GiB"
  }

  /** How many bytes one of the unit is. */
  function UnitBytes(u: Unit): nat {
    match u
    case Bytes => 1
    case KiB => KiBytes
    case MiB => MiBytes
    case GiB => GiBytes
  }

  /** The position of a unit in increasing order. */
  function Rank(u: Unit): nat {
    match u
    case Bytes => 0
    case KiB => 1
    case MiB => 2
    case GiB => 3
  }

  /** The if/else chain over the size: each unit covers [its size, the next unit's size). */
  function UnitOf(size: int): (u: Unit)
    ensures u == Bytes <==> size < KiBytes
    ensures u == KiB <==> KiBytes <= size < MiBytes
    ensures u == MiB <==> MiBytes <= size < GiBytes
    ensures u == GiB <==> GiBytes <= size
  {
    if size < KiBytes then Bytes
    else if size < MiBytes then KiB
    else if size < GiBytes then MiB
    else GiB
  }

  /** What `render` returns: the raw value, or a magnitude (before `toFixed(2)`) and a unit. */
  datatype Cell = Raw(value: int) | Shown(magnitude: real, unit: Unit)

  /** The column's `render(data, type)`. */
  function Render(size: int, kind: string): (c: Cell)
    ensures kind != "display" && kind != "filter" ==> c == Raw(size)
    ensures kind == "display" || kind == "filter" ==>
      c.Shown? && c.unit == UnitOf(size) && c.magnitude * (UnitBytes(c.unit) as real) == size as real
  {
    if kind != "display" && kind != "filter" then Raw(size)
    else
      var u := UnitOf(size);
      Shown(size as real / (UnitBytes(u) as real), u)
  }

  /**
   * A size at or above 1024 is shown as a number from 1 up to (but not
   * reaching) 1024 of its unit; only gibibytes are open-ended.
   */
  lemma ShownMagnitudeInRange(size: int, kind: string)
    requires kind == "display" || kind == "filter"
    requires size >= KiBytes
    ensures var c := Render(size, kind);
      1.0 <= c.magnitude && (c.unit != GiB ==> c.magnitude < 1024.0)
  {
    var c := Render(size, kind);
    var b := UnitBytes(c.unit) as real;
    assert c.magnitude * b == size as real;
    assert b <= size as real;
    if c.unit != GiB {
      assert size as real < 1024.0 * b;
    }
  }

  /** A larger size never gets a smaller unit. */
  lemma UnitMonotone(a: int, b: int)
    requires a <= b
    ensures Rank(UnitOf(a)) <= Rank(UnitOf(b))
  {
  }
}
