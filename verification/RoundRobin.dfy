/** The round-robin balancer: a 64-bit counter taken modulo the list length. */
module RoundRobin {

  /** Where the unsigned 64-bit counter wraps to zero. */
  const WRAP: nat := 0x1_0000_0000_0000_0000

  /** What Next answers when the counter stands at c. */
  function Chosen(backends: seq<string>, c: nat): string {
    if backends == [] then "" else backends[c % |backends|]
  }

  class RoundRobin {
    var backends: seq<string>
    var counter: nat

    ghost predicate Valid()
      reads this
    {
      counter < WRAP
    }

    constructor (backends: seq<string>)
      ensures Valid() && this.backends == backends && counter == 0
    {
      this.backends, counter := backends, 0;
    }

    /** An empty list leaves the counter alone. */
    method Next() returns (addr: string)
      requires Valid()
      modifies this`counter
      ensures Valid()
      ensures addr == Chosen(backends, old(counter))
      ensures backends != [] ==>
        && addr == backends[old(counter) % |backends|]
        && counter == (old(counter) + 1) % 0x1_0000_0000_0000_0000
      ensures backends == [] ==> addr == "" && counter == old(counter)
    {
      if |backends| == 0 {
        return "";
      }
      counter := (counter + 1) % WRAP;
      var n := if counter == 0 then WRAP - 1 else counter - 1;
      return backends[n % |backends|];
    }

    method SetBackends(backends: seq<string>)
      requires Valid()
      modifies this`backends
      ensures Valid() && this.backends == backends
    {
      this.backends := backends;
    }

    method Len() returns (n: nat)
      ensures n == |backends|
    {
      n := |backends|;
    }
  }
}
