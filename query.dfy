/**
 * The three query shapes the services use, over identifiers issued in
 * [lo, hi): `.first()`, `.order_by(created_at)` (oldest first),
 * `.order_by(created_at.desc())` (newest first), and `.offset().limit()`.
 */
module Query {
  import opened Models

  /** The lowest identifier in [lo, hi) satisfying `p`: what `.first()` yields. */
  function First(lo: nat, hi: nat, p: nat -> bool): (r: Option<nat>)
    ensures r.Some? ==> lo <= r.value < hi && p(r.value)
    ensures r.Some? ==> forall k :: lo <= k < r.value ==> !p(k)
    ensures r.None? <==> forall k :: lo <= k < hi ==> !p(k)
    decreases hi - lo
  {
    if lo >= hi then None
    else if p(lo) then Some(lo)
    else First(lo + 1, hi, p)
  }

  /** Every identifier in [lo, hi) satisfying `p`, oldest first. */
  function Ascending(lo: nat, hi: nat, p: nat -> bool): (r: seq<nat>)
    ensures forall i :: 0 <= i < |r| ==> lo <= r[i] < hi && p(r[i])
    ensures forall i, j :: 0 <= i < j < |r| ==> r[i] < r[j]
    ensures forall k :: lo <= k < hi && p(k) ==> k in r
    ensures lo <= hi ==> |r| <= hi - lo
    decreases hi - lo
  {
    if lo >= hi then []
    else (if p(lo) then [lo] else []) + Ascending(lo + 1, hi, p)
  }

  /** Every identifier in [lo, hi) satisfying `p`, newest first. */
  function Descending(lo: nat, hi: nat, p: nat -> bool): (r: seq<nat>)
    ensures forall i :: 0 <= i < |r| ==> lo <= r[i] < hi && p(r[i])
    ensures forall i, j :: 0 <= i < j < |r| ==> r[i] > r[j]
    ensures forall k :: lo <= k < hi && p(k) ==> k in r
    ensures lo <= hi ==> |r| <= hi - lo
    decreases hi - lo
  {
    if lo >= hi then []
    else (if p(hi - 1) then [hi - 1] else []) + Descending(lo, hi - 1, p)
  }

  /** `.offset(skip).limit(limit)`: the run of at most `limit` rows that starts at position `skip`. */
  function Window<T>(xs: seq<T>, skip: nat, limit: nat): (r: seq<T>)
    ensures |r| == if skip >= |xs| then 0 else if limit < |xs| - skip then limit else |xs| - skip
    ensures forall i :: 0 <= i < |r| ==> r[i] == xs[skip + i]
  {
    if skip >= |xs| then []
    else if limit < |xs| - skip then xs[skip..skip + limit]
    else xs[skip..]
  }
}
