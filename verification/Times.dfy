/**
 A time in seconds and microseconds, as `struct timeval` holds it; the parts may
 be any integers.
 */
module Times {

  const MILLION := 1000000

  datatype Timeval = Timeval(sec: int, usec: int)

  function Micros(tv: Timeval): int {
    MILLION * tv.sec + tv.usec
  }

  predicate Normal(tv: Timeval) {
    tv.sec >= 0 && 0 <= tv.usec < MILLION
  }
}
