/**
 * Time. Every timestamp of the model lives on one UTC timeline and is a whole
 * number of some unit; the current time is passed in wherever the source reads
 * the system clock.
 *
 * `Stamp` keeps the one distinction between Python datetimes that changes
 * behaviour: a datetime with a UTC offset ("aware") and one without ("naive")
 * cannot be compared, and comparing them raises TypeError.
 */
module Clock {
  import opened Wrappers

  type Time = int

  datatype Stamp = Aware(at: Time) | Naive(at: Time)

  /** The TypeError raised by comparing a naive and an aware datetime. */
  datatype CompareError = NaiveAwareMismatch

  /** `a <= b` on Python datetimes. */
  function AtOrBefore(a: Stamp, b: Stamp): (r: Result<bool, CompareError>)
    ensures r.Err? <==> a.Aware? != b.Aware?
    ensures r.Ok? ==> (r.value <==> a.at <= b.at)
  {
    if a.Aware? != b.Aware? then Err(NaiveAwareMismatch) else Ok(a.at <= b.at)
  }
}
