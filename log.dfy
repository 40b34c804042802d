/**
 * The bounded debug logs kept by the CPUID and external-interrupt components:
 * `add_record` appends a record only while the log holds fewer than the cap.
 */
module Log {
  function AddRecord<T>(log: seq<T>, record: T, cap: nat): (r: seq<T>)
  {
    if |log| < cap then log + [record] else log
  }

  /** Appending never takes a log past its cap, and a record is dropped only when the log is full. */
  lemma AddRecordBounded<T>(log: seq<T>, record: T, cap: nat)
    requires |log| <= cap
    ensures |AddRecord(log, record, cap)| <= cap
    ensures AddRecord(log, record, cap) == log <==> |log| == cap
  {
  }

  /** Records `rs` one after the other. */
  function AddRecords<T>(log: seq<T>, rs: seq<T>, cap: nat): seq<T>
    decreases |rs|
  {
    if rs == [] then log else AddRecords(AddRecord(log, rs[0], cap), rs[1..], cap)
  }

  /**
   * Whatever is recorded, the log keeps the earliest records: it is the first
   * `cap` of everything offered, or all of it if fewer.
   */
  lemma {:induction false} AddRecordsKeepsEarliest<T>(log: seq<T>, rs: seq<T>, cap: nat)
    requires |log| <= cap
    ensures var all := log + rs;
      AddRecords(log, rs, cap) == if |all| <= cap then all else all[..cap]
    decreases |rs|
  {
    if rs != [] {
      var next := AddRecord(log, rs[0], cap);
      AddRecordsKeepsEarliest(next, rs[1..], cap);
      if |log| < cap {
        assert next + rs[1..] == log + rs;
      } else {
        assert (log + rs)[..cap] == log;
        var rest := log + rs[1..];
        assert rest[..cap] == log;
      }
    }
  }
}
