/**
 The admission clock of the gateway (rust/src/gateway.rs:127-142 and
 src/gateway.ts:523-526). Reads get strictly increasing admission times, so two
 reads never share one, whatever the wall clock does.
 */
module ReadClock {
  import opened Numbers
  import opened Options

  const U64_MAX: nat := 0xffff_ffff_ffff_ffff

  function SaturatingIncrement(n: nat): nat { if n < U64_MAX then n + 1 else U64_MAX }

  /** The value a reader tries to install over the one it has seen. */
  function Proposal(wallTime: nat, seen: nat): nat { Max(wallTime, SaturatingIncrement(seen)) }

  /** A reader between its load and its successful exchange. */
  datatype Reader = Reading(wallTime: nat, seen: nat) | Admitted(at: nat)

  datatype Admission = Admission(reader: nat, at: nat)

  /** The atomic, the readers, and the admissions in the order of their exchanges. */
  datatype Clock = Clock(value: nat, readers: map<nat, Reader>, admissions: seq<Admission>)

  const NEW_CLOCK := Clock(0, map[], [])

  /** `Exchange` may fail although the values agree, as a weak exchange does. */
  datatype Step =
    | Load(reader: nat, wallTime: nat)
    | Exchange(reader: nat, spurious: bool)

  predicate Enabled(c: Clock, step: Step) {
    match step
    case Load(reader, wallTime) => reader !in c.readers && wallTime <= U64_MAX
    case Exchange(reader, _) => reader in c.readers && c.readers[reader].Reading?
  }

  function Next(c: Clock, step: Step): Clock
    requires Enabled(c, step)
  {
    match step
    case Load(reader, wallTime) => c.(readers := c.readers[reader := Reading(wallTime, c.value)])
    case Exchange(reader, spurious) =>
      var r := c.readers[reader];
      if c.value == r.seen && !spurious then
        var next := Proposal(r.wallTime, r.seen);
        Clock(next, c.readers[reader := Admitted(next)], c.admissions + [Admission(reader, next)])
      else c.(readers := c.readers[reader := r.(seen := c.value)])
  }

  function After(c: Clock, steps: seq<Step>): Option<Clock>
    decreases |steps|
  {
    if steps == [] then Some(c)
    else if Enabled(c, steps[0]) then After(Next(c, steps[0]), steps[1..]) else None
  }

  // ---------------------------------------------------------------- one reader, with rivals

  /** What other readers do before an exchange, and whether the exchange then fails for no reason. */
  datatype Rival = Rival(advance: nat, spurious: bool)

  class AtomicClock {
    var value: nat

    constructor ()
      ensures value == 0
    {
      value := 0;
    }

    /**
     The exchange loop of one reader. `found` is the value its exchange replaced,
     which rivals can only have raised.
     */
    method ReadStartedAt(wallTime: nat, rivals: seq<Rival>) returns (next: nat, ghost found: nat)
      requires value <= U64_MAX && wallTime <= U64_MAX
      modifies this
      ensures old(value) <= found <= U64_MAX
      ensures value == next == Proposal(wallTime, found)
      ensures wallTime <= next && (found < U64_MAX ==> found < next)
      ensures next == wallTime || next == found + 1 || found == next == U64_MAX
      ensures rivals == [] ==> found == old(value)
    {
      var previous: nat := value;
      var k := 0;
      while true
        invariant k <= |rivals| && previous <= U64_MAX
        invariant old(value) <= value <= U64_MAX
        invariant k == 0 ==> value == old(value)
        invariant k == |rivals| ==> previous == value || k == 0
        invariant k == 0 ==> previous == value
        decreases |rivals| - k
      {
        next := Proposal(wallTime, previous);
        if k == |rivals| {
          found := value;
          value := next;
          return;
        }
        value := if value + rivals[k].advance <= U64_MAX then value + rivals[k].advance else U64_MAX;
        if value == previous && !rivals[k].spurious {
          found := value;
          value := next;
          return;
        }
        previous := value;
        k := k + 1;
      }
    }
  }

  /** The TypeScript gateway, where no other reader can come between. */
  class SingleThreadedClock {
    var lastReadStartedAt: nat

    constructor ()
      ensures lastReadStartedAt == 0
    {
      lastReadStartedAt := 0;
    }

    method ReadStartedAt(now: nat) returns (admission: nat)
      modifies this
      ensures admission == lastReadStartedAt
      ensures old(lastReadStartedAt) < admission && now <= admission
      ensures admission == now || admission == old(lastReadStartedAt) + 1
    {
      lastReadStartedAt := Max(now, lastReadStartedAt + 1);
      admission := lastReadStartedAt;
    }
  }

  // ---------------------------------------------------------------- every interleaving

  /** Each admission is later than all before it, until the clock is exhausted. */
  predicate Increasing(s: seq<Admission>) {
    forall i, j :: 0 <= i < j < |s| ==> s[i].at < s[j].at || s[i].at == U64_MAX
  }

  predicate Inv(c: Clock) {
    && c.value <= U64_MAX
    && Increasing(c.admissions)
    && (forall i :: 0 <= i < |c.admissions| ==> c.admissions[i].at <= c.value)
    && (forall r <- c.readers :: c.readers[r].Reading? ==> c.readers[r].seen <= c.value && c.readers[r].wallTime <= U64_MAX)
    && (forall r <- c.readers :: c.readers[r].Admitted? ==> Admission(r, c.readers[r].at) in c.admissions)
  }

  lemma StepKeepsInv(c: Clock, step: Step)
    requires Inv(c) && Enabled(c, step)
    ensures Inv(Next(c, step)) && c.admissions <= Next(c, step).admissions
  {
    var next := Next(c, step);
    forall r | r in next.readers && next.readers[r].Admitted?
      ensures Admission(r, next.readers[r].at) in next.admissions
    {
      if r in c.readers && c.readers[r].Admitted? {
        assert Admission(r, c.readers[r].at) in c.admissions;
      } else {
        assert next.admissions[|c.admissions|] == Admission(r, next.readers[r].at);
      }
    }
  }

  lemma {:induction false} ReachableInv(c: Clock, steps: seq<Step>)
    requires Inv(c) && After(c, steps).Some?
    ensures Inv(After(c, steps).value) && c.admissions <= After(c, steps).value.admissions
    decreases |steps|
  {
    if steps != [] {
      StepKeepsInv(c, steps[0]);
      ReachableInv(Next(c, steps[0]), steps[1..]);
    }
  }

  /** In every interleaving, two reads have the same admission only when the clock is exhausted. */
  lemma AdmissionsAreDistinct(steps: seq<Step>, a: nat, b: nat)
    requires After(NEW_CLOCK, steps).Some? && a != b
    requires var readers := After(NEW_CLOCK, steps).value.readers;
             a in readers && b in readers && readers[a].Admitted? && readers[b].Admitted?
    ensures var readers := After(NEW_CLOCK, steps).value.readers;
            readers[a].at == readers[b].at ==> readers[a].at == U64_MAX
  {
    ReachableInv(NEW_CLOCK, steps);
    var c := After(NEW_CLOCK, steps).value;
    var i :| 0 <= i < |c.admissions| && c.admissions[i] == Admission(a, c.readers[a].at);
    var j :| 0 <= j < |c.admissions| && c.admissions[j] == Admission(b, c.readers[b].at);
    assert i < j || j < i;
  }

  /** A read that starts after another was admitted is admitted later. */
  lemma LaterReadsAreAdmittedLater(before: Clock, steps: seq<Step>, i: nat, j: nat)
    requires Inv(before) && After(before, steps).Some?
    requires i < |before.admissions| <= j < |After(before, steps).value.admissions|
    ensures var admissions := After(before, steps).value.admissions;
            admissions[i] == before.admissions[i]
            && (admissions[i].at < admissions[j].at || admissions[i].at == U64_MAX)
  {
    ReachableInv(before, steps);
  }

  // ---------------------------------------------------------------- how far the clock runs ahead

  /** The greatest wall time a reader of the run has seen. */
  function Latest(steps: seq<Step>): nat {
    if steps == [] then 0
    else Max(if steps[0].Load? then steps[0].wallTime else 0, Latest(steps[1..]))
  }

  /** The clock is ahead of a wall time by at most the admissions made. */
  ghost predicate Within(c: Clock, latest: nat) {
    && c.value <= latest + |c.admissions|
    && (forall i :: 0 <= i < |c.admissions| ==> c.admissions[i].at <= latest + |c.admissions|)
    && (forall r <- c.readers :: c.readers[r].Reading? ==> c.readers[r].wallTime <= latest && c.readers[r].seen <= c.value)
  }

  lemma StepKeepsWithin(c: Clock, step: Step, latest: nat)
    requires Inv(c) && Within(c, latest) && Enabled(c, step) && (step.Load? ==> step.wallTime <= latest)
    ensures Within(Next(c, step), latest)
  {
  }

  lemma {:induction false} RunStaysWithin(c: Clock, steps: seq<Step>, latest: nat)
    requires Inv(c) && Within(c, latest) && After(c, steps).Some? && Latest(steps) <= latest
    ensures Within(After(c, steps).value, latest)
    decreases |steps|
  {
    if steps != [] {
      StepKeepsWithin(c, steps[0], latest);
      StepKeepsInv(c, steps[0]);
      RunStaysWithin(Next(c, steps[0]), steps[1..], latest);
    }
  }

  /**
   The clock never runs ahead of the greatest wall time by more than the number
   of admissions, so it is far from exhausted as long as that sum is.
   */
  lemma ClockStaysNearTheWall(steps: seq<Step>)
    requires After(NEW_CLOCK, steps).Some?
    ensures var c := After(NEW_CLOCK, steps).value;
            && c.value <= Latest(steps) + |c.admissions|
            && forall i :: 0 <= i < |c.admissions| ==> c.admissions[i].at <= Latest(steps) + |c.admissions|
  {
    RunStaysWithin(NEW_CLOCK, steps, Latest(steps));
  }

  /** Until then no two reads share an admission. */
  lemma AdmissionsDiffer(steps: seq<Step>, a: nat, b: nat)
    requires After(NEW_CLOCK, steps).Some? && a != b
    requires var c := After(NEW_CLOCK, steps).value;
             && a in c.readers && b in c.readers && c.readers[a].Admitted? && c.readers[b].Admitted?
             && Latest(steps) + |c.admissions| < U64_MAX
    ensures var readers := After(NEW_CLOCK, steps).value.readers;
            readers[a].at != readers[b].at
  {
    AdmissionsAreDistinct(steps, a, b);
    ClockStaysNearTheWall(steps);
    ReachableInv(NEW_CLOCK, steps);
    var c := After(NEW_CLOCK, steps).value;
    var i :| 0 <= i < |c.admissions| && c.admissions[i] == Admission(a, c.readers[a].at);
  }

  /**
   An exchange over the value its reader has seen admits it, at its wall time or
   right after that value, whichever is later, while the clock is not exhausted;
   any other exchange only shows the reader the value.
   */
  lemma ExchangeAdvancesExactly(c: Clock, reader: nat, spurious: bool)
    requires Inv(c) && Enabled(c, Exchange(reader, spurious))
    ensures var r, next := c.readers[reader], Next(c, Exchange(reader, spurious));
      if r.seen == c.value && !spurious then
        && next.admissions == c.admissions + [Admission(reader, next.value)]
        && next.readers == c.readers[reader := Admitted(next.value)]
        && r.wallTime <= next.value <= U64_MAX && (c.value < next.value <==> c.value < U64_MAX)
        && (next.value == r.wallTime || next.value == c.value + 1 || c.value == next.value == U64_MAX)
      else
        next == c.(readers := c.readers[reader := Reading(r.wallTime, c.value)])
  {
  }

  /** A read that nobody else comes between is admitted at its wall time, or right after the value it finds. */
  lemma UndisturbedReadIsAdmitted(c: Clock, reader: nat, wallTime: nat)
    requires Inv(c) && reader !in c.readers && wallTime <= U64_MAX && c.value < U64_MAX
    ensures var end := After(c, [Load(reader, wallTime), Exchange(reader, false)]);
      && end.Some? && end.value.value == Max(wallTime, c.value + 1)
      && end.value.readers == c.readers[reader := Admitted(end.value.value)]
      && end.value.admissions == c.admissions + [Admission(reader, end.value.value)]
  {
    var steps := [Load(reader, wallTime), Exchange(reader, false)];
    var loaded := Next(c, steps[0]);
    assert steps[1..] == [steps[1]] && [steps[1]][1..] == [];
    assert After(loaded, [steps[1]]) == Some(Next(loaded, steps[1]));
    assert c.readers[reader := Reading(wallTime, c.value)][reader := Admitted(Next(loaded, steps[1]).value)]
        == c.readers[reader := Admitted(Next(loaded, steps[1]).value)];
  }
}
