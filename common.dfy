/** Small helpers shared by the player, transcript and server-side modules. */
module Common {

  /** `None` stands for JavaScript's `undefined`/`null` and Python's `None`. */
  datatype Option<T> = None | Some(value: T)

  /** Index of the first element satisfying `p`, or `|s|` when there is none:
      the shape of every "scan in order, stop at the first hit" loop here. */
  function FirstIndex<T>(s: seq<T>, p: T -> bool): (k: nat)
    ensures k <= |s|
    ensures forall j :: 0 <= j < k ==> !p(s[j])
    ensures k < |s| ==> p(s[k])
  {
    if |s| == 0 then 0
    else if p(s[0]) then 0
    else 1 + FirstIndex(s[1..], p)
  }
}
