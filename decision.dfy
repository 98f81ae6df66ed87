/** The notification decision (`send_text?`) and the counter reset that
    follows a notification (the last step of `send_text`), on the accounts'
    unread totals taken in list order. */
module Decision {
  import opened SenderTable

  /** Some sender counted this run is an important contact. */
  predicate ImportantSenderSeen(t: Table, contacts: seq<string>) {
    exists k :: k in t && k in contacts
  }

  /** The scan over the accounts: true at the first total strictly above `max`. */
  function AnyOverThreshold(totals: seq<nat>, max: int): (r: bool)
    ensures r <==> exists i :: 0 <= i < |totals| && totals[i] > max
  {
    if totals == [] then false
    else
      assert forall i :: 1 <= i < |totals| ==> totals[1..][i - 1] == totals[i];
      totals[0] > max || AnyOverThreshold(totals[1..], max)
  }

  /** `send_text?`: notify when an important contact wrote, or when an account
      has more new unread messages than the ceiling allows. */
  predicate Decide(t: Table, contacts: seq<string>, totals: seq<nat>, max: int) {
    ImportantSenderSeen(t, contacts) || AnyOverThreshold(totals, max)
  }

  /** An account exactly at the ceiling does not trigger a notification. */
  lemma AtCeilingIsQuiet(t: Table, contacts: seq<string>, totals: seq<nat>, max: int)
    requires !ImportantSenderSeen(t, contacts)
    requires forall i :: 0 <= i < |totals| ==> totals[i] <= max
    ensures !Decide(t, contacts, totals, max)
  {
  }

  /** The reset that follows a notification, on the totals: each total above
      the ceiling becomes 0, every other one stays. */
  function ResetTotals(totals: seq<nat>, max: int): (r: seq<nat>)
    ensures |r| == |totals|
    ensures forall i :: 0 <= i < |totals| ==> r[i] == (if totals[i] > max then 0 else totals[i])
  {
    if totals == [] then []
    else [if totals[0] > max then 0 else totals[0]] + ResetTotals(totals[1..], max)
  }

  /** After the reset no account is above a non-negative ceiling. */
  lemma ResetClearsThreshold(totals: seq<nat>, max: int)
    requires max >= 0
    ensures !AnyOverThreshold(ResetTotals(totals, max), max)
  {
  }

  /** Resetting twice is resetting once. */
  lemma ResetIdempotent(totals: seq<nat>, max: int)
    ensures ResetTotals(ResetTotals(totals, max), max) == ResetTotals(totals, max)
  {
  }

  /** A negative ceiling is the one case where the reset leaves an account above it. */
  lemma NegativeCeilingStaysOver(totals: seq<nat>, max: int)
    requires max < 0 && totals != []
    ensures AnyOverThreshold(ResetTotals(totals, max), max)
  {
    assert ResetTotals(totals, max)[0] >= 0;
  }
}
