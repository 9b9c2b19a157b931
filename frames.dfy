/** The part of a pandas DataFrame the core touches: named columns of cells. */
module Frames {

  /** A cell as read from the file, a parsed timestamp, or the missing timestamp `NaT`. */
  datatype Cell = Raw(text: string) | Timestamp(nanos: int) | NaT

  datatype Column = Column(name: string, cells: seq<Cell>)

  datatype Table = Table(columns: seq<Column>)
}
