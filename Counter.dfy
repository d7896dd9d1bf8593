/**
 * SafeCounter: a 32-bit counter updated with Interlocked operations. Each
 * operation is atomic in the original; here they run one at a time.
 */
module Counter {
  import Int32

  class SafeCounter {
    /** The Int32 field the Interlocked operations update. */
    var counter: int
    /** The unwrapped net sum of everything applied to the counter. */
    ghost var total: int

    ghost predicate Valid()
      reads this
    {
      counter == Int32.Wrap(total)
    }

    /** A new counter holds its start value, 0 by default. */
    constructor (start: int := 0)
      requires Int32.InRange(start)
      ensures Valid() && counter == start && total == start
    {
      counter := start;
      total := start;
    }

    /** Value: reads the counter without changing it. */
    function Value(): (v: int)
      reads this
      requires Valid()
      ensures Int32.InRange(v) && v == Int32.Wrap(total)
    {
      counter
    }

    /** Increment: one more, wrapping at Int32.MaxValue; returns the new value. */
    method Increment() returns (v: int)
      requires Valid()
      modifies this
      ensures Valid() && total == old(total) + 1
      ensures v == counter == Int32.Wrap(old(counter) + 1)
    {
      Int32.WrapAdd(total, 1);
      counter := Int32.Wrap(counter + 1);
      total := total + 1;
      v := counter;
    }

    /** Decrement: one less, wrapping at Int32.MinValue; returns the new value. */
    method Decrement() returns (v: int)
      requires Valid()
      modifies this
      ensures Valid() && total == old(total) - 1
      ensures v == counter == Int32.Wrap(old(counter) - 1)
    {
      Int32.WrapAdd(total, -1);
      counter := Int32.Wrap(counter - 1);
      total := total - 1;
      v := counter;
    }

    /** Reset: sets the counter, 0 by default; returns the value it replaced. */
    method Reset(newValue: int := 0) returns (previous: int)
      requires Valid() && Int32.InRange(newValue)
      modifies this
      ensures Valid() && counter == total == newValue
      ensures previous == old(counter)
    {
      previous := counter;
      counter := newValue;
      total := newValue;
    }

    /** Add: adds value, wrapping; returns the new value. */
    method Add(value: int) returns (v: int)
      requires Valid() && Int32.InRange(value)
      modifies this
      ensures Valid() && total == old(total) + value
      ensures v == counter == Int32.Wrap(old(counter) + value)
    {
      Int32.WrapAdd(total, value);
      counter := Int32.Wrap(counter + value);
      total := total + value;
      v := counter;
    }
  }

  /** An Increment followed by a Decrement leaves the counter as it was. */
  method IncrementThenDecrement(c: SafeCounter)
    requires c.Valid()
    modifies c
    ensures c.Valid() && c.counter == old(c.counter) && c.total == old(c.total)
  {
    var _ := c.Increment();
    var _ := c.Decrement();
    Int32.IncrementDecrementRestores(old(c.counter));
  }
}
