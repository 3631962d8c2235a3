/**
  * Passkey ceremonies: one may be pending at a time, an older one is aborted, and a busy browser is asked again.
  * The browser answers, and timers fire, in any order.
  */
module WebAuthn {

  const RETRY_DELAYS: seq<nat> := [400, 800, 1600, 2400, 3200]

  /** The time given to the browser to tear down an aborted ceremony. */
  const TEAR_DOWN: nat := 50

  function Sum(s: seq<nat>): nat {
    if s == [] then 0 else Sum(s[..|s| - 1]) + s[|s| - 1]
  }

  /** `Hanging` is the promise of a superseded ceremony, which never settles. */
  datatype Phase =
    | Pausing(retries: seq<nat>) | Asking(retries: seq<nat>) | Hanging | Fulfilled | Failed(stillBusy: bool)
  {
    predicate Settled() {
      Fulfilled? || Failed?
    }

    /** The number of outcomes and timers that can still make a difference. */
    function Remaining(): nat {
      match this
      case Pausing(retries) => 2 * |retries| + 2
      case Asking(retries) => 2 * |retries| + 1
      case _ => 0
    }
  }

  class Ceremony {
    /** The signal of the controller. */
    var aborted: bool
    var phase: Phase
    /** The calls made to the browser, and the time spent in timers. */
    ghost var calls: nat
    ghost var waited: nat
    /** The time waited before the first attempt. */
    ghost const pause: nat

    constructor (pause: bool)
      ensures !aborted && Paced() && this.pause == if pause then TEAR_DOWN else 0
      ensures phase == if pause then Pausing(RETRY_DELAYS) else Asking(RETRY_DELAYS)
    {
      aborted := false;
      this.pause := if pause then TEAR_DOWN else 0;
      phase := if pause then Pausing(RETRY_DELAYS) else Asking(RETRY_DELAYS);
      calls := if pause then 0 else 1;
      waited := if pause then TEAR_DOWN else 0;
    }

    /** The delays not used yet are the last ones, and the others account for the calls and for the time. */
    ghost predicate Paced()
      reads this
    {
      match phase
      case Pausing(retries) => Spent(retries, calls + 1, waited, pause)
      case Asking(retries) => Spent(retries, calls, waited, pause)
      case _ => calls <= 6 && waited <= 8450
    }

    /** `attempt`. */
    method Attempt(retries: seq<nat>)
      modifies this`phase, this`calls
      ensures phase == Asking(retries) && calls == old(calls) + 1
    {
      phase := Asking(retries);
      calls := calls + 1;
    }

    method Wait(ms: nat, retries: seq<nat>)
      modifies this`phase, this`waited
      ensures phase == Pausing(retries) && waited == old(waited) + ms
    {
      phase := Pausing(retries);
      waited := waited + ms;
    }
  }

  ghost predicate Spent(retries: seq<nat>, calls: nat, waited: nat, pause: nat) {
    && |retries| <= 5 && retries == RETRY_DELAYS[5 - |retries|..]
    && calls == 6 - |retries| && waited == pause + Sum(RETRY_DELAYS[..5 - |retries|]) && pause <= TEAR_DOWN
  }

  lemma SpendDelay(retries: seq<nat>, calls: nat, waited: nat, pause: nat)
    requires Spent(retries, calls, waited, pause) && retries != []
    ensures Spent(retries[1..], calls + 1, waited + retries[0], pause)
  {
    var k := 5 - |retries|;
    assert RETRY_DELAYS[..k + 1][..k] == RETRY_DELAYS[..k];
  }

  lemma SpentBound(retries: seq<nat>, calls: nat, waited: nat, pause: nat)
    requires Spent(retries, calls, waited, pause)
    ensures calls <= 6 && waited <= 8450
  {
    SumGrows(RETRY_DELAYS, 5 - |retries|);
    assert RETRY_DELAYS[..5] == RETRY_DELAYS;
    Total();
  }

  lemma Total()
    ensures Sum(RETRY_DELAYS) == 8400
  {
    assert Sum([400, 800]) == 1200 by {
      assert [400, 800][..1] == [400] && Sum([400]) == 400;
    }
    assert Sum([400, 800, 1600]) == 2800 by {
      assert [400, 800, 1600][..2] == [400, 800];
    }
    assert Sum(RETRY_DELAYS[..4]) == 5200 by {
      assert RETRY_DELAYS[..4] == [400, 800, 1600, 2400] && RETRY_DELAYS[..4][..3] == [400, 800, 1600];
    }
  }

  lemma {:induction false} SumGrows(s: seq<nat>, k: nat)
    requires k <= |s|
    ensures Sum(s[..k]) <= Sum(s)
    decreases |s|
  {
    if k == |s| {
      assert s[..k] == s;
    } else {
      assert s[..|s| - 1][..k] == s[..k];
      SumGrows(s[..|s| - 1], k);
    }
  }

  /** The time spent in timers before each call to the browser, the first one aside if an older ceremony was aborted. */
  lemma WaitedBefore(k: nat)
    requires k <= 5
    ensures Sum(RETRY_DELAYS[..k]) == [0, 400, 1200, 2800, 5200, 8400][k]
  {
    if k > 0 {
      assert RETRY_DELAYS[..k][..k - 1] == RETRY_DELAYS[..k - 1];
      WaitedBefore(k - 1);
    }
  }

  class Page {
    var current: Ceremony?
    /** Every ceremony started so far: their promises keep them alive. */
    var started: seq<Ceremony>

    /** A ceremony that is neither aborted nor settled is the current one, which is one. */
    ghost predicate Valid()
      reads this, started
    {
      && (current != null ==> current in started && !current.aborted && !current.phase.Settled())
      && (forall c :: c in started && !c.aborted && !c.phase.Settled() ==> c == current)
      && (forall c :: c in started ==> c.Paced())
    }

    /** What every step keeps. */
    twostate predicate Safe()
      reads this, started
    {
      && old(started) <= started
      && (forall c :: c in old(started) ==> old(c.aborted) ==> c.aborted)
      && (forall c :: c in old(started) && old(c.phase).Settled() ==> c.phase == old(c.phase))
      && (forall c :: c in old(started) && c.phase.Settled() && !old(c.phase).Settled() ==>
            !old(c.aborted) && old(current) == c && current == null)
    }

    constructor ()
      ensures Valid() && started == [] && current == null
    {
      current, started := null, [];
    }

    /** `ceremony`. */
    method Start() returns (c: Ceremony)
      requires Valid()
      modifies this, started
      ensures Valid() && Safe() && fresh(c) && current == c && started == old(started) + [c]
      ensures old(current) != null ==> old(current).aborted
      ensures c.phase == if old(current) != null then Pausing(RETRY_DELAYS) else Asking(RETRY_DELAYS)
    {
      var previous := current;
      if previous != null {
        previous.aborted := true;
      }
      c := new Ceremony(previous != null);
      current := c;
      started := started + [c];
    }

    /** `settled`. */
    method Settled(c: Ceremony)
      modifies this`current
      ensures current == if old(current) == c then null else old(current)
    {
      if current == c {
        current := null;
      }
    }

    /** The browser resolves the call of `c`, with or without credentials. */
    method Answer(c: Ceremony, credentials: bool)
      requires Valid() && c in started && c.phase.Asking?
      modifies this`current, c`phase
      ensures Valid() && Safe() && (old(current) != c ==> current == old(current))
      ensures c.phase == if credentials && !c.aborted then Fulfilled else Hanging
      ensures c.phase.Remaining() < old(c.phase).Remaining()
    {
      SpentBound(c.phase.retries, c.calls, c.waited, c.pause);
      if !credentials || c.aborted {
        c.phase := Hanging;
      } else {
        Settled(c);
        c.phase := Fulfilled;
      }
    }

    /** The browser rejects the call of `c`. */
    method Refuse(c: Ceremony, busy: bool)
      requires Valid() && c in started && c.phase.Asking?
      modifies this`current, c`phase, c`waited
      ensures Valid() && Safe() && (old(current) != c ==> current == old(current))
      ensures c.phase ==
                if c.aborted then Hanging
                else if busy && old(c.phase).retries != [] then Pausing(old(c.phase).retries[1..])
                else Failed(busy)
      ensures c.phase.Remaining() < old(c.phase).Remaining()
    {
      var retries := c.phase.retries;
      SpentBound(retries, c.calls, c.waited, c.pause);
      if c.aborted {
        c.phase := Hanging;
      } else if busy && |retries| > 0 {
        SpendDelay(retries, c.calls, c.waited, c.pause);
        c.Wait(retries[0], retries[1..]);
      } else {
        Settled(c);
        c.phase := Failed(busy);
      }
    }

    /** The timer of `c` fires. */
    method TimerFires(c: Ceremony)
      requires Valid() && c in started && c.phase.Pausing?
      modifies c`phase, c`calls
      ensures Valid() && Safe() && c.phase == Asking(old(c.phase).retries) && c.calls == old(c.calls) + 1
      ensures c.phase.Remaining() < old(c.phase).Remaining()
    {
      c.Attempt(c.phase.retries);
    }

    /** `abortCeremony`. */
    method Abort()
      requires Valid()
      modifies this`current, current
      ensures Valid() && Safe() && current == null
      ensures old(current) != null ==> old(current).aborted
    {
      if current != null {
        current.aborted := true;
        current := null;
      }
    }
  }

  datatype Event =
    | Begin | Abandon | Resolves(ceremony: nat, credentials: bool) | Rejects(ceremony: nat, busy: bool)
    | Timer(ceremony: nat)

  /** The number of ceremonies that begin. */
  function Begun(events: seq<Event>): nat {
    if events == [] then 0
    else Begun(events[..|events| - 1]) + if events[|events| - 1].Begin? then 1 else 0
  }

  /**
    * Any interleaving of any number of ceremonies, with any answers of the browser, from any reachable state: what
    * was aborted stays so and does not settle, and what was settled stays as it is.
    */
  method Continue(page: Page, events: seq<Event>)
    requires page.Valid()
    modifies page, page.started
    ensures page.Valid() && old(page.started) <= page.started
    ensures |page.started| == |old(page.started)| + Begun(events)
    ensures forall c :: c in old(page.started) && old(c.aborted) ==>
              c.aborted && (c.phase.Settled() <==> old(c.phase).Settled())
    ensures forall c :: c in old(page.started) && old(c.phase).Settled() ==> c.phase == old(c.phase)
  {
    for i := 0 to |events|
      invariant page.Valid() && old(page.started) <= page.started
      invariant |page.started| == |old(page.started)| + Begun(events[..i])
      invariant forall k :: |old(page.started)| <= k < |page.started| ==> fresh(page.started[k])
      invariant forall c :: c in old(page.started) && old(c.aborted) ==>
                  c.aborted && (c.phase.Settled() <==> old(c.phase).Settled())
      invariant forall c :: c in old(page.started) && old(c.phase).Settled() ==> c.phase == old(c.phase)
    {
      assert events[..i + 1][..i] == events[..i];
      Step(page, events[i]);
    }
    assert events[..|events|] == events;
  }

  method Step(page: Page, e: Event)
    requires page.Valid()
    modifies page, page.started
    ensures page.Valid() && page.Safe() && old(page.started) <= page.started
    ensures |page.started| == |old(page.started)| + if e.Begin? then 1 else 0
    ensures e.Abandon? ==> page.current == null
    ensures e.Resolves? && e.ceremony < |old(page.started)| && old(page.started[e.ceremony].phase.Asking?) ==>
              old(page.started)[e.ceremony].phase ==
                if e.credentials && !old(page.started[e.ceremony].aborted) then Fulfilled else Hanging
    ensures e.Rejects? && e.ceremony < |old(page.started)| && old(page.started[e.ceremony].phase.Asking?) ==>
              !old(page.started)[e.ceremony].phase.Asking?
    ensures e.Timer? && e.ceremony < |old(page.started)| && old(page.started[e.ceremony].phase.Pausing?) ==>
              old(page.started)[e.ceremony].phase.Asking?
    ensures forall k :: |old(page.started)| <= k < |page.started| ==> fresh(page.started[k])
  {
    var n := |page.started|;
    match e {
      case Begin => var c := page.Start();
      case Abandon => page.Abort();
      case Resolves(k, credentials) =>
        if k < n && page.started[k].phase.Asking? {
          page.Answer(page.started[k], credentials);
        }
      case Rejects(k, busy) =>
        if k < n && page.started[k].phase.Asking? {
          page.Refuse(page.started[k], busy);
        }
      case Timer(k) =>
        if k < n && page.started[k].phase.Pausing? {
          page.TimerFires(page.started[k]);
        }
    }
  }

  /** A run from the start. */
  method Run(events: seq<Event>) returns (page: Page)
    ensures page.Valid() && |page.started| == Begun(events)
  {
    page := new Page();
    Continue(page, events);
  }

  /** At most one ceremony is live, and none asks the browser, or waits, too much. */
  lemma Bounded(page: Page, c: Ceremony, d: Ceremony)
    requires page.Valid() && c in page.started && d in page.started
    ensures !c.aborted && !c.phase.Settled() && !d.aborted && !d.phase.Settled() ==> c == d == page.current
    ensures c.calls <= 6 && c.waited <= 8450
  {
    match c.phase {
      case Pausing(retries) => SpentBound(retries, c.calls + 1, c.waited, c.pause);
      case Asking(retries) => SpentBound(retries, c.calls, c.waited, c.pause);
      case _ =>
    }
  }
}
