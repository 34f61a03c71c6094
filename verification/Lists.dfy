/** Lists of addresses and of counters, as several components use them. */
module Lists {

  /** No address is listed twice. */
  ghost predicate Distinct(addrs: seq<string>) {
    forall i, j :: 0 <= i < j < |addrs| ==> addrs[i] != addrs[j]
  }

  function Zeros(n: nat): (zs: seq<int>)
    ensures |zs| == n
  {
    seq(n, i => 0)
  }
}
