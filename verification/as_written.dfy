/**
 * `sc_util_apen_set_series_length` as the C code has it. The code
 * allocates a buffer of the new size and copies the old prefix into it, but
 * never stores that buffer in `test_value`, which keeps pointing at the old
 * allocation. This module tracks only the sizes involved, to show that
 * raising the capacity of a full buffer makes the next sample be written
 * past the end of the allocation. `ApEnObject.ApEn.SetSeriesLength` is the
 * corrected definition used by the rest of the model.
 */
module AsWritten {

  import opened History
  import opened Settings

  /** The number of slots of the allocation `test_value` points to,
      `series_length` and `series_max_length`. */
  datatype Footprint = Footprint(slots: int, length: int, capacity: int)

  /** The capacity setter as written: the new allocation is never kept. */
  function SetSeriesLengthAsWritten(f: Footprint, patternLength: int, c: int): Footprint
  {
    if CapacityAccepted(patternLength, f.capacity, c)
    then Footprint(f.slots, if f.length > c then c else f.length, c)
    else f
  }

  /** The index the next `int`/`float` sample is written to. */
  function AppendSlot(f: Footprint): int
  {
    if f.length < f.capacity then f.length else f.capacity - 1
  }

  /** For every full object whose allocation matches its capacity, an
      accepted larger capacity makes the next sample land at index `slots`,
      one past the end of the allocation, while the allocation keeps its
      size. */
  lemma GrowingCapacityOverrunsAllocation(f: Footprint, patternLength: int, c: int)
    requires f.slots == f.capacity == f.length
    requires c > f.capacity && c > 2 * patternLength + 1
    ensures SetSeriesLengthAsWritten(f, patternLength, c).slots == f.slots
    ensures AppendSlot(SetSeriesLengthAsWritten(f, patternLength, c)) == f.slots
  {
  }
}
