/** Comparing one expectation with one observation (pkg/differ/differ.go). */
module Differ {
  import opened Events
  import opened OracleShard

  datatype Category = MissingInTarget | ExtraInTarget | ValueMismatch | MemberMismatch | TypeMismatch | CounterMismatch

  datatype Finding = Finding(
    key: Key, category: Category, trust: Trust, oracleValue: Value, targetValue: Value,
    oracleVersion: nat, lastEventAt: Time, confirmed: bool, firstSeenAt: Time)

  datatype Options = Options(ignoreExpired: bool, assumedTTL: int)

  /** What one read of the target store can come back with. */
  datatype Read = Got(value: Value) | WrongType | Failed

  /** A missing key is explained by expiry only under the Ignore policy, once it is old enough. */
  predicate SuppressedByExpiry(e: Record, opts: Options, now: Time) {
    opts.ignoreExpired && opts.assumedTTL > 0 && now - e.lastEventAt > opts.assumedTTL
  }

  function NewFinding(key: Key, category: Category, e: Record, tv: Value): Finding {
    Finding(key, category, e.flag, e.value, tv, e.version, e.lastEventAt, false, 0)
  }

  function Compare(key: Key, e: Record, tv: Value, opts: Options, now: Time): Option<Finding> {
    if e.value.IsAbsent() && tv.IsAbsent() then None
    else if e.value.IsAbsent() then
      if e.flag.Adopted? then None else Some(NewFinding(key, ExtraInTarget, e, tv))
    else if tv.IsAbsent() then
      if SuppressedByExpiry(e, opts, now) then None else Some(NewFinding(key, MissingInTarget, e, tv))
    else if e.value.Equal(tv) then None
    else if e.value.Scalar? != tv.Scalar? || e.value.Members? != tv.Members? || e.value.Counter? != tv.Counter? then
      Some(NewFinding(key, TypeMismatch, e, tv))
    else
      match e.value
      case Members(_) => Some(NewFinding(key, MemberMismatch, e, tv))
      case Counter(_) => Some(NewFinding(key, CounterMismatch, e, tv))
      case _ => Some(NewFinding(key, ValueMismatch, e, tv))
  }

  function CompareUnreadable(key: Key, e: Record): Option<Finding> {
    Some(NewFinding(key, TypeMismatch, e, Absent))
  }

  /** A read turned into a finding, or None if the key agrees. */
  function CompareRead(key: Key, e: Record, read: Read, opts: Options, now: Time): Option<Finding>
    requires !read.Failed?
  {
    if read.Got? then Compare(key, e, read.value, opts, now) else CompareUnreadable(key, e)
  }

  /** The two reasons not to report a disagreement that is there: what was adopted was never expected to
      be absent, and a key that is missing may have expired if the policy is to ignore that and it is old
      enough. */
  predicate Excused(e: Record, tv: Value, opts: Options, now: Time) {
    || (e.value.IsAbsent() && e.flag.Adopted?)
    || (!e.value.IsAbsent() && tv.IsAbsent() &&
        opts.ignoreExpired && 0 < opts.assumedTTL < now - e.lastEventAt)
  }

  predicate SameShape(a: Value, b: Value) {
    (a.Scalar? && b.Scalar?) || (a.Members? && b.Members?) || (a.Counter? && b.Counter?)
  }

  /** A finding is exactly an unequal, unexcused pair of values, described as it was compared. */
  lemma CompareMeaning(key: Key, e: Record, tv: Value, opts: Options, now: Time)
    ensures Compare(key, e, tv, opts, now).None? <==> e.value.Equal(tv) || Excused(e, tv, opts, now)
    ensures Compare(key, e, tv, opts, now).None? <==>
      || e.value.Equal(tv)
      || (e.value.IsAbsent() && e.flag == Adopted)
      || (!e.value.IsAbsent() && tv.IsAbsent() && opts.ignoreExpired && 0 < opts.assumedTTL < now - e.lastEventAt)
    ensures e.value in {Absent, Members({})} && tv in {Absent, Members({})} ==> Compare(key, e, tv, opts, now).None?
    ensures var f := Compare(key, e, tv, opts, now); f.Some? ==>
      && f.value.key == key && f.value.oracleVersion == e.version && f.value.trust == e.flag
      && f.value.oracleValue == e.value && f.value.targetValue == tv && !f.value.oracleValue.Equal(f.value.targetValue)
      && (f.value.category.MissingInTarget? <==> tv.IsAbsent())
      && (f.value.category.ExtraInTarget? <==> e.value.IsAbsent())
      && (f.value.category.TypeMismatch? <==> !e.value.IsAbsent() && !tv.IsAbsent() && !SameShape(e.value, tv))
      && (f.value.category.MemberMismatch? <==>
            !e.value.IsAbsent() && !tv.IsAbsent() && e.value.Members? && tv.Members?)
      && (f.value.category.CounterMismatch? <==> e.value.Counter? && tv.Counter?)
      && (f.value.category.ValueMismatch? <==> e.value.Scalar? && tv.Scalar?)
      && !f.value.confirmed && f.value.lastEventAt == e.lastEventAt
  {
  }
}
