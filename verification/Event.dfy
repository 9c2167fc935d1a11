/** The event record, the value shapes a projection can produce, and trust (pkg/event). */
module Events {

  datatype Option<+T> = None | Some(value: T)

  type Key = string

  /** Nanoseconds on driftwatch's own monotonic clock. */
  type Time = int

  datatype Op = OpUnknown | OpSet | OpDelete | OpAdd | OpRemove | OpIncr
              | OpSnapshotBegin | OpSnapshotEnd | OpHeartbeat
  {
    predicate TouchesKey() {
      OpSet? || OpDelete? || OpAdd? || OpRemove? || OpIncr?
    }
  }

  /** `observedAt` is when driftwatch received it, by its own clock. */
  datatype Event = Event(
    publisher: string, epoch: nat, seqno: nat,
    op: Op, key: Key, member: string, value: string, delta: int, observedAt: Time)

  datatype Value = Absent | Scalar(text: string) | Members(members: set<string>) | Counter(total: int)
  {
    /** Redis deletes a set key with its last member, so an emptied set is an absent key. */
    predicate IsAbsent() {
      Absent? || (Members? && members == {})
    }

    predicate Equal(other: Value) {
      if IsAbsent() || other.IsAbsent() then
        IsAbsent() && other.IsAbsent()
      else
        this == other
    }
  }

  datatype Trust = Complete | Suspect | Adopted

  const MAX_UINT64: int := 0xFFFF_FFFF_FFFF_FFFF
  const MAX_INT64: int := 0x7FFF_FFFF_FFFF_FFFF
  const MIN_INT64: int := -0x8000_0000_0000_0000

  /** Two lists with no repeated element and the same elements differ only in order. */
  ghost predicate Distinct<T(!new)>(s: seq<T>) {
    forall i, j :: 0 <= i < j < |s| ==> s[i] != s[j]
  }

  /** Map iteration order is unspecified in the source: any member may come next. */
  method AnyOf(s: set<int>) returns (b: int)
    requires s != {}
    ensures b in s
  {
    assert (forall x :: x !in s) ==> s == {};
    b :| b in s;
  }
}
