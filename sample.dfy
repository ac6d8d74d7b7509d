// The counter store (stores/sample.ts).
module Sample {

  class SampleStore {
    var count: int

    constructor ()
      ensures count == 0
    {
      count := 0;
    }

    /** `increment`: adds exactly one. */
    method Increment()
      modifies this
      ensures count == old(count) + 1
    {
      count := count + 1;
    }

    /** `decrement`: subtracts exactly one. */
    method Decrement()
      modifies this
      ensures count == old(count) - 1
    {
      count := count - 1;
    }
  }

  /** An increment followed by a decrement restores the count. */
  method IncrementThenDecrement(s: SampleStore)
    modifies s
    ensures s.count == old(s.count)
  {
    s.Increment();
    s.Decrement();
  }
}
