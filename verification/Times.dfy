/**
 A seconds and nanoseconds pair, and the nanoseconds it stands for.
 */
module Times {

  const NSEC_PER_SEC := 1_000_000_000

  datatype Timespec = Timespec(sec: nat, nsec: nat)

  function Nanos(t: Timespec): nat {
    t.sec * NSEC_PER_SEC + t.nsec
  }
}
