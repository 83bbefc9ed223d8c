/** Calendar days as the screens handle them: the `YYYY-MM-DD` part of an
    ISO-8601 timestamp, compared as strings. */
module Dates {
  import opened Text

  /** The calendar date part of an ISO timestamp: everything before the first `T`. */
  function DateOf(iso: string): string
  {
    Split(iso, 'T')[0]
  }

  /** A well-formed `YYYY-MM-DD` day. */
  predicate IsIsoDay(d: string)
  {
    |d| == 10 && d[4] == '-' && d[7] == '-' &&
    AllDigits(d[..4]) && AllDigits(d[5..7]) && AllDigits(d[8..])
  }

  /** A timestamp of the form `YYYY-MM-DDThh:mm:ss.sssZ` has its day as its date. */
  lemma DateOfIsoTimestamp(iso: string)
    requires |iso| > 10 && IsIsoDay(iso[..10]) && iso[10] == 'T'
    ensures DateOf(iso) == iso[..10]
  {
    var day := iso[..10];
    assert FreeOf(day, 'T') by {
      forall i | 0 <= i < 10 ensures day[i] != 'T' {
        if i < 4 { assert day[i] == day[..4][i]; }
        else if 4 < i < 7 { assert day[i] == day[5..7][i - 5]; }
        else if 7 < i { assert day[i] == day[8..][i - 8]; }
      }
    }
    assert iso == day + ['T'] + iso[11..];
    SplitAtSeparator(day, 'T', iso[11..]);
  }
}
