/**
 * The two display expressions of the page (hosting/src/App.js): the shortened address
 * shown in the marker list and in the results, and the weekly commute in minutes.
 */
module Display {

  import opened Wrappers

  /** Longest address shown in full. */
  const MaxShownLength := 40
  /** Characters kept from a longer address before the ellipsis. */
  const KeptLength := 37
  const Ellipsis := "..."

  /** `address.length > 40 ? address.substring(0, 37) + "..." : address`
      (App.js:153-157, repeated at :177-181). */
  function ShownAddress(address: string): (shown: string)
    ensures |shown| <= MaxShownLength
    ensures shown == address <==> |address| <= MaxShownLength
    ensures |address| > MaxShownLength ==>
      |shown| == MaxShownLength && address[..KeptLength] <= shown && shown[KeptLength..] == Ellipsis
  {
    if |address| > MaxShownLength then address[..KeptLength] + Ellipsis else address
  }

  /** Shortening an address that is already shown changes nothing. */
  lemma ShownAddressIdempotent(address: string)
    ensures ShownAddress(ShownAddress(address)) == ShownAddress(address)
  {
  }

  /** Two addresses look the same exactly when: both are short and equal; or both are
      long and equal on their first 37 characters; or one is short and equal to the
      other's first 37 characters followed by "...". */
  lemma ShownAddressCollisions(a: string, b: string)
    ensures ShownAddress(a) == ShownAddress(b) <==>
      (|a| <= MaxShownLength && |b| <= MaxShownLength && a == b) ||
      (|a| > MaxShownLength && |b| > MaxShownLength && a[..KeptLength] == b[..KeptLength]) ||
      (|a| <= MaxShownLength && |b| > MaxShownLength && a == b[..KeptLength] + Ellipsis) ||
      (|a| > MaxShownLength && |b| <= MaxShownLength && b == a[..KeptLength] + Ellipsis)
  {
  }

  /** `Math.floor(commuteTime / 60)` (App.js:184). A total that was never written is
      `undefined`, and the expression then gives `NaN`, modelled as `None`. */
  function ShownMinutes(commuteTime: Option<int>): (minutes: Option<int>)
    ensures minutes.None? <==> commuteTime.None?
    ensures commuteTime.Some? ==>
      minutes.value * 60 <= commuteTime.value < (minutes.value + 1) * 60
  {
    match commuteTime
    case None => None
    case Some(seconds) => Some(seconds / 60)
  }
}
