// Normalisation of backend timestamps before they are formatted in the
// user's time zone (frontend/src/utils/timezone.ts). Backend timestamps are
// UTC but are serialised without a zone designator; the frontend marks them
// as UTC by appending 'Z'. The formatting itself (date-fns-tz) is not modelled.
module Timezone {

  predicate EndsWithZ(s: string) {
    |s| > 0 && s[|s| - 1] == 'Z'
  }

  /** The string handed to `new Date(...)` for a backend timestamp `s`. */
  function UtcTimestamp(s: string): (r: string)
    ensures r == s || r == s + "Z"
    ensures EndsWithZ(s) ==> r == s
  {
    if !EndsWithZ(s) && '+' !in s && 'T' !in s then s
    else if !EndsWithZ(s) && '+' !in s && 'T' in s then s + "Z"
    else s
  }

  /** A timestamp that already carries 'Z' or a '+' offset is left alone. */
  lemma ZonedUnchanged(s: string)
    requires EndsWithZ(s) || '+' in s
    ensures UtcTimestamp(s) == s
  {
  }

  /** A date-only string (no 'T') is left alone. */
  lemma DateOnlyUnchanged(s: string)
    requires 'T' !in s
    ensures UtcTimestamp(s) == s
  {
  }

  /** A naive ISO timestamp is marked as UTC, and the result then ends in 'Z'. */
  lemma NaiveMarkedUtc(s: string)
    requires !EndsWithZ(s) && '+' !in s && 'T' in s
    ensures UtcTimestamp(s) == s + "Z"
    ensures EndsWithZ(UtcTimestamp(s))
  {
  }

  /** Exactly the naive ISO timestamps are changed. */
  lemma ChangedIff(s: string)
    ensures UtcTimestamp(s) != s <==> !EndsWithZ(s) && '+' !in s && 'T' in s
  {
  }

  /** Normalising twice is normalising once. */
  lemma {:induction false} UtcTimestampIdempotent(s: string)
    ensures UtcTimestamp(UtcTimestamp(s)) == UtcTimestamp(s)
  {
    var r := UtcTimestamp(s);
    if r != s {
      assert r == s + "Z";
      assert r[|r| - 1] == 'Z';
      ZonedUnchanged(r);
    }
  }

  /** Only '+' counts as zone information: a timestamp with a negative offset
    * such as "2024-01-15T10:30:00-05:00" also gets a 'Z' appended. */
  lemma NegativeOffsetAlsoMarked()
    ensures UtcTimestamp("2024-01-15T10:30:00-05:00") == "2024-01-15T10:30:00-05:00Z"
  {
    var s := "2024-01-15T10:30:00-05:00";
    assert s[10] == 'T';
  }
}
