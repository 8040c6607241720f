/**
 * The splash screen's logo carousel: an index into the logo list that a
 * timer advances and that stops at the last logo.
 */
module SplashScreen {

  const Logos: seq<string> := ["/MSITrans.png", "/AWTrans.png", "/BACTrans.png", "/ConfirmifyTrans.png"]

  /** One tick of the interval's updater. */
  function NextIndex(i: nat): (r: nat)
    ensures i <= r <= i + 1
    ensures r == i + 1 <==> i < |Logos| - 1
    ensures i < |Logos| ==> r < |Logos|
  {
    if i < |Logos| - 1 then i + 1 else i
  }

  /** The index after `n` ticks from `i`. */
  function AfterTicks(i: nat, n: nat): (r: nat)
    ensures i <= r <= i + n
    ensures i < |Logos| ==> r < |Logos|
    decreases n
  {
    if n == 0 then i else AfterTicks(NextIndex(i), n - 1)
  }

  /** From the start the index climbs one per tick to the last logo (3) and
      stays there. */
  lemma {:induction false} AfterTicksFromStart(i: nat, n: nat)
    requires i < |Logos|
    ensures AfterTicks(i, n) == if i + n < |Logos| - 1 then i + n else |Logos| - 1
    decreases n
  {
    if n > 0 {
      AfterTicksFromStart(NextIndex(i), n - 1);
    }
  }

  /** Ticks never move the index back. */
  lemma {:induction false} AfterTicksMonotone(i: nat, m: nat, n: nat)
    requires m <= n
    ensures AfterTicks(i, m) <= AfterTicks(i, n)
    decreases n
  {
    if m > 0 {
      AfterTicksMonotone(NextIndex(i), m - 1, n - 1);
    } else if n > 0 {
      AfterTicksMonotone(NextIndex(i), 0, n - 1);
    }
  }

  class Splash {
    var index: nat

    ghost predicate Valid()
      reads this
    {
      index < |Logos|
    }

    constructor ()
      ensures Valid() && index == 0
    {
      index := 0;
    }

    method Tick()
      requires Valid()
      modifies this
      ensures Valid() && index == NextIndex(old(index))
    {
      if index < |Logos| - 1 {
        index := index + 1;
      }
    }

    /** `logos[index]`, always defined. */
    function CurrentLogo(): (logo: string)
      requires Valid()
      reads this
      ensures logo in Logos
    {
      Logos[index]
    }
  }
}
