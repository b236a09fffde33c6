/** The two versions of `get_timeout`: the single-carry one of `array.c` and the general one of
    `turnin/array.c`. The reading of the clock is a parameter. */
module Timeout {

  const NS_PER_SEC := 1_000_000_000
  const NS_PER_MS := 1_000_000

  datatype Time = Time(sec: int, nsec: int) {
    predicate Normal() {
      0 <= nsec < NS_PER_SEC
    }

    /** The same instant in nanoseconds. */
    function Total(): int {
      sec * NS_PER_SEC + nsec
    }
  }

  /** C's division and remainder round towards zero. */
  function CDiv(a: int, b: int): int
    requires b > 0
  {
    if a >= 0 then a / b else -(-a / b)
  }

  function CMod(a: int, b: int): int
    requires b > 0
  {
    a - CDiv(a, b) * b
  }

  predicate IsInt32(n: int) {
    -0x8000_0000 <= n < 0x8000_0000
  }

  /** struct timespec, updated in place */
  class Timespec {
    var sec: int
    var nsec: int

    function View(): Time
      reads this
    {
      Time(sec, nsec)
    }

    constructor (now: Time)
      ensures View() == now
    {
      sec, nsec := now.sec, now.nsec;
    }

    /** array.c:7-14. The product is computed as `int`, so C gives it a meaning only when it fits. */
    method AddSingleCarry(milliseconds: int)
      requires View().Normal() && IsInt32(milliseconds) && IsInt32(milliseconds * NS_PER_MS)
      modifies this
      ensures View() == SingleCarry(old(View()), milliseconds)
      ensures (sec - old(sec)) * 1_000_000_000 + (nsec - old(nsec)) == milliseconds * 1_000_000
      ensures milliseconds == 1000 ==> View() == Time(old(sec) + 1, old(nsec))
    {
      nsec := nsec + milliseconds * NS_PER_MS;
      if nsec >= NS_PER_SEC {
        sec := sec + 1;
        nsec := nsec - NS_PER_SEC;
      }
    }

    /** turnin/array.c:18-33 */
    method AddGeneral(milliseconds: int)
      requires View().Normal() && IsInt32(milliseconds)
      modifies this
      ensures 0 <= nsec < 1_000_000_000
      ensures (sec - old(sec)) * 1_000_000_000 + (nsec - old(nsec)) == milliseconds * 1_000_000
      ensures milliseconds == 1000 ==> View() == Time(old(sec) + 1, old(nsec))
    {
      var nsToAdd := milliseconds * NS_PER_MS;
      nsec := nsec + nsToAdd;
      sec := sec + CDiv(nsec, NS_PER_SEC);
      nsec := CMod(nsec, NS_PER_SEC);
      if nsec < 0 {
        nsec := nsec + NS_PER_SEC;
        sec := sec - 1;
      }
    }
  }

  function SingleCarry(now: Time, milliseconds: int): Time {
    var nsec := now.nsec + milliseconds * NS_PER_MS;
    if nsec >= NS_PER_SEC then Time(now.sec + 1, nsec - NS_PER_SEC) else Time(now.sec, nsec)
  }

  /** The unit: a thousand milliseconds are a second, so the single-carry version adds just that, and of the
      100 ms that the code asks for it makes a hundred million nanoseconds. */
  lemma Units(now: Time)
    requires now.Normal()
    ensures SingleCarry(now, 1000) == Time(now.sec + 1, now.nsec)
    ensures SingleCarry(now, 100) ==
      if now.nsec < 900_000_000 then Time(now.sec, now.nsec + 100_000_000) else Time(now.sec + 1, now.nsec - 900_000_000)
  {
  }

  /** The product is an `int` exactly for up to 2147 milliseconds either way, a little over two seconds. */
  lemma ProductFits(milliseconds: int)
    ensures IsInt32(milliseconds) && IsInt32(milliseconds * NS_PER_MS) <==> -2147 <= milliseconds <= 2147
  {
  }

  /** There is only one normal form of an instant, so `AddGeneral` is determined by its contract. */
  lemma NormalFormIsUnique(a: Time, b: Time)
    requires a.Normal() && b.Normal() && a.Total() == b.Total()
    ensures a == b
  {
    assert (a.sec - b.sec) * NS_PER_SEC == b.nsec - a.nsec;
  }

  /** The single-carry version gives the normal form of the right instant exactly when at most one
      second has to be carried and none borrowed. */
  lemma SingleCarryNormal(now: Time, milliseconds: int)
    requires now.Normal()
    ensures SingleCarry(now, milliseconds).Total() == now.Total() + milliseconds * NS_PER_MS
    ensures SingleCarry(now, milliseconds).Normal() <==> 0 <= now.nsec + milliseconds * NS_PER_MS < 2 * NS_PER_SEC
  {
  }

  ghost predicate NormalAtAnyTime(milliseconds: int) {
    forall now: Time :: now.Normal() ==> SingleCarry(now, milliseconds).Normal()
  }

  /** It does so whatever the clock says exactly for 0 to 1000 milliseconds; the code uses 100. */
  lemma SingleCarryRange(milliseconds: int)
    ensures NormalAtAnyTime(milliseconds) <==> 0 <= milliseconds <= 1000
  {
    if NormalAtAnyTime(milliseconds) {
      var early, late := Time(0, 0), Time(0, NS_PER_SEC - 1);
      assert early.Normal() && late.Normal();
      assert SingleCarry(early, milliseconds).Normal();
      assert SingleCarry(late, milliseconds).Normal();
    }
  }

  /** In that range the two versions agree: whatever normal time the general one leaves is the
      single-carry one's. */
  lemma VersionsAgree(now: Time, milliseconds: int, general: Time)
    requires now.Normal() && 0 <= milliseconds <= 1000
    requires 0 <= general.nsec < 1_000_000_000
    requires (general.sec - now.sec) * 1_000_000_000 + (general.nsec - now.nsec) == milliseconds * 1_000_000
    ensures SingleCarry(now, milliseconds) == general
  {
    SingleCarryRange(milliseconds);
    NormalFormIsUnique(SingleCarry(now, milliseconds), general);
  }
}
