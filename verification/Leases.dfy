/** The lock of the object store: a lease that lapses by itself when its ten minutes are over. */
module Leases {
  import opened Calendar
  import opened Wrappers

  type Pid = nat

  const LEASE := 600_000_000 // 600 * SECOND

  datatype Holder = Holder(p: Pid, end: Time)

  // The lease can be taken: nobody holds it, or it has lapsed.
  predicate Free(holder: Option<Holder>, clock: Time) {
    holder.Some? ==> holder.value.end < clock
  }

  // A process lets go only of a lease that is still its own.
  function LetGo(holder: Option<Holder>, p: Pid, end: Time): Option<Holder> {
    if holder == Some(Holder(p, end)) then None else holder
  }

  // A process that has not outstayed its lease holds it.
  predicate Holds(holder: Option<Holder>, clock: Time, p: Pid, end: Time) {
    clock <= end ==> holder == Some(Holder(p, end))
  }
}
