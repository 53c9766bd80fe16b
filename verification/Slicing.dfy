/** Python's slices from the left. */
module Slicing {

  /** How many of `n` items `[:limit]` keeps; a negative limit counts from the end. */
  function SliceLength(n: nat, limit: int): (length: nat)
    ensures length <= n
    ensures 0 <= limit <= n ==> length == limit
    ensures limit > n ==> length == n
    ensures limit < 0 <= n + limit ==> length == n + limit
    ensures n + limit < 0 ==> length == 0
  {
    if limit >= 0 then (if limit < n then limit else n)
    else if n + limit > 0 then n + limit else 0
  }
}
