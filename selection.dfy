/**
 * Choosing the next green direction (PressureBasedController._get_next_direction,
 * src/logic.py:260-303). Each of its three branches scans PHASE_ORDER for the
 * first direction with the largest key among those a criterion admits:
 *   - the most starved other direction (the stable descending sort keeps the
 *     PHASE_ORDER position among equal waits, and the head is taken),
 *   - the highest-pressure unserved other direction (Python's max keeps the
 *     first of equal keys),
 *   - the first strict maximum of pressure over the other directions, seeded
 *     with ('north', -1).
 */
module Selection {
  import opened Wrappers
  import opened Phases
  import opened Config
  import opened Decisions

  /** Which directions a scan admits and what it maximises. */
  datatype Criterion =
    | StarvedOther(current: Direction, lastGreen: PerDirection<real>, now: real)
    | UnservedOther(current: Direction, served: set<Direction>, pressures: PerDirection<real>)
    | OtherThan(current: Direction, pressures: PerDirection<real>)

  /** Seconds since d last had green. */
  function WaitTime(lastGreen: PerDirection<real>, now: real, d: Direction): real
  {
    now - lastGreen.At(d)
  }

  predicate Eligible(c: Criterion, d: Direction)
  {
    match c
    case StarvedOther(cur, lg, now) => d != cur && WaitTime(lg, now, d) > MaxStarvationTime
    case UnservedOther(cur, served, _) => d !in served && d != cur
    case OtherThan(cur, _) => d != cur
  }

  function Key(c: Criterion, d: Direction): real
  {
    match c
    case StarvedOther(_, lg, now) => WaitTime(lg, now, d)
    case UnservedOther(_, _, p) => p.At(d)
    case OtherThan(_, p) => p.At(d)
  }

  datatype Candidate = Candidate(direction: Direction, key: real)

  /**
   * The best candidate after scanning the first n directions of PHASE_ORDER,
   * starting from `seed`: a later direction replaces the best only when its
   * key is strictly larger.
   */
  function Best(c: Criterion, n: nat, seed: Option<Candidate>): (r: Option<Candidate>)
    requires n <= |PhaseOrder|
    ensures seed.Some? ==> r.Some? && r.value.key >= seed.value.key
  {
    if n == 0 then seed
    else
      var acc := Best(c, n - 1, seed);
      var d := PhaseOrder[n - 1];
      if Eligible(c, d) && (acc.None? || Key(c, d) > acc.value.key) then Some(Candidate(d, Key(c, d)))
      else acc
  }

  /** Some direction among the first n is admitted. */
  predicate AnyEligible(c: Criterion, n: nat)
    requires n <= |PhaseOrder|
  {
    exists k :: 0 <= k < n && Eligible(c, PhaseOrder[k])
  }

  /**
   * An unseeded scan finds nothing exactly when nothing is admitted, and
   * otherwise returns an admitted direction whose key is the largest, every
   * admitted direction before it having a strictly smaller key.
   */
  lemma {:induction false} BestIsFirstMaximum(c: Criterion, n: nat)
    requires n <= |PhaseOrder|
    ensures Best(c, n, None).None? <==> !AnyEligible(c, n)
    ensures Best(c, n, None).Some? ==>
      var b := Best(c, n, None).value;
      && Rank(b.direction) < n && Eligible(c, b.direction) && b.key == Key(c, b.direction)
      && (forall k :: 0 <= k < n && Eligible(c, PhaseOrder[k]) ==> Key(c, PhaseOrder[k]) <= b.key)
      && (forall k :: 0 <= k < Rank(b.direction) && Eligible(c, PhaseOrder[k]) ==> Key(c, PhaseOrder[k]) < b.key)
  {
    if n > 0 {
      BestIsFirstMaximum(c, n - 1);
      var d := PhaseOrder[n - 1];
      assert Rank(d) == n - 1;
      var acc := Best(c, n - 1, None);
      if acc.Some? {
        assert Rank(acc.value.direction) < n - 1;
      }
    }
  }

  /** BestIsFirstMaximum over the whole of PHASE_ORDER, stated per direction. */
  lemma BestOverAll(c: Criterion)
    ensures Best(c, 4, None).None? <==> forall d :: !Eligible(c, d)
    ensures Best(c, 4, None).Some? ==>
      var b := Best(c, 4, None).value;
      && Eligible(c, b.direction) && b.key == Key(c, b.direction)
      && (forall d :: Eligible(c, d) ==> Key(c, d) <= b.key)
      && (forall d :: Eligible(c, d) && Rank(d) < Rank(b.direction) ==> Key(c, d) < b.key)
  {
    BestIsFirstMaximum(c, 4);
    forall d | Eligible(c, d)
      ensures AnyEligible(c, 4)
      ensures Best(c, 4, None).Some? ==> Key(c, d) <= Best(c, 4, None).value.key
      ensures Best(c, 4, None).Some? && Rank(d) < Rank(Best(c, 4, None).value.direction) ==>
        Key(c, d) < Best(c, 4, None).value.key
    {
      assert PhaseOrder[Rank(d)] == d;
    }
    if AnyEligible(c, 4) {
      var k :| 0 <= k < 4 && Eligible(c, PhaseOrder[k]);
    }
  }

  /**
   * A scan seeded with a key below every admitted key returns the seed when
   * nothing is admitted and otherwise what the unseeded scan returns.
   */
  lemma {:induction false} SeedBelowAll(c: Criterion, n: nat, seed: Candidate)
    requires n <= |PhaseOrder|
    requires forall k :: 0 <= k < n && Eligible(c, PhaseOrder[k]) ==> Key(c, PhaseOrder[k]) > seed.key
    ensures Best(c, n, Some(seed)) == if Best(c, n, None).None? then Some(seed) else Best(c, n, None)
  {
    if n > 0 {
      SeedBelowAll(c, n - 1, seed);
    }
  }

  /** The outcome of _get_next_direction: direction, its pressure, the reason tag, and whether it empties served_this_cycle. */
  datatype Choice = Choice(direction: Direction, pressure: real, tag: SelectionTag, resetsCycle: bool)

  const PressureSeed: Candidate := Candidate(North, -1.0)

  function SelectNext(current: Direction, lastGreen: PerDirection<real>, served: set<Direction>,
                      now: real, pressures: PerDirection<real>): (r: Choice)
    ensures r.tag == HighestPressure <==> r.resetsCycle
  {
    var starved := Best(StarvedOther(current, lastGreen, now), 4, None);
    if starved.Some? then
      Choice(starved.value.direction, pressures.At(starved.value.direction), Fairness, false)
    else
      var unserved := Best(UnservedOther(current, served, pressures), 4, None);
      if unserved.Some? then
        Choice(unserved.value.direction, unserved.value.key, Cycle, false)
      else
        var best := Best(OtherThan(current, pressures), 4, Some(PressureSeed)).value;
        Choice(best.direction, best.key, HighestPressure, true)
  }

  predicate Starved(current: Direction, lastGreen: PerDirection<real>, now: real, d: Direction)
  {
    Eligible(StarvedOther(current, lastGreen, now), d)
  }

  /**
   * Branch 1: when another direction has waited more than MAX_STARVATION_TIME,
   * the choice is the one that waited longest, ties going to the earlier
   * direction of PHASE_ORDER, and served_this_cycle is kept.
   */
  lemma FairnessFirst(current: Direction, lastGreen: PerDirection<real>, served: set<Direction>,
                      now: real, pressures: PerDirection<real>, e: Direction)
    requires Starved(current, lastGreen, now, e)
    ensures var r := SelectNext(current, lastGreen, served, now, pressures);
      && r.tag == Fairness && !r.resetsCycle
      && Starved(current, lastGreen, now, r.direction)
      && r.pressure == pressures.At(r.direction)
      && (forall d :: Starved(current, lastGreen, now, d) ==>
            WaitTime(lastGreen, now, d) <= WaitTime(lastGreen, now, r.direction))
      && (forall d :: Starved(current, lastGreen, now, d) && Rank(d) < Rank(r.direction) ==>
            WaitTime(lastGreen, now, d) < WaitTime(lastGreen, now, r.direction))
  {
    BestOverAll(StarvedOther(current, lastGreen, now));
  }

  /**
   * Branch 2: with nobody starved and some other direction not yet served
   * this cycle, the choice is the unserved one of highest pressure, the
   * earliest in PHASE_ORDER on ties, and served_this_cycle is kept.
   */
  lemma CycleSecond(current: Direction, lastGreen: PerDirection<real>, served: set<Direction>,
                    now: real, pressures: PerDirection<real>, e: Direction)
    requires forall d :: !Starved(current, lastGreen, now, d)
    requires e != current && e !in served
    ensures var r := SelectNext(current, lastGreen, served, now, pressures);
      && r.tag == Cycle && !r.resetsCycle
      && r.direction != current && r.direction !in served
      && r.pressure == pressures.At(r.direction)
      && (forall d :: d != current && d !in served ==> pressures.At(d) <= r.pressure)
      && (forall d :: d != current && d !in served && Rank(d) < Rank(r.direction) ==> pressures.At(d) < r.pressure)
  {
    BestOverAll(StarvedOther(current, lastGreen, now));
    BestOverAll(UnservedOther(current, served, pressures));
    var c := UnservedOther(current, served, pressures);
    assert Eligible(c, e);
    forall d ensures !Eligible(StarvedOther(current, lastGreen, now), d) {
      assert !Starved(current, lastGreen, now, d);
    }
    forall d | d != current && d !in served ensures Eligible(c, d) && Key(c, d) == pressures.At(d) { }
  }

  /**
   * Branch 3: with nobody starved and every other direction served, the cycle
   * set is emptied and, when pressures are non-negative, the choice is the
   * other direction of highest pressure, the earliest in PHASE_ORDER on ties.
   */
  lemma PressureLast(current: Direction, lastGreen: PerDirection<real>, served: set<Direction>,
                     now: real, pressures: PerDirection<real>)
    requires forall d :: !Starved(current, lastGreen, now, d)
    requires forall d :: d != current ==> d in served
    requires forall d :: pressures.At(d) >= 0.0
    ensures var r := SelectNext(current, lastGreen, served, now, pressures);
      && r.tag == HighestPressure && r.resetsCycle
      && r.direction != current
      && r.pressure == pressures.At(r.direction)
      && (forall d :: d != current ==> pressures.At(d) <= r.pressure)
      && (forall d :: d != current && Rank(d) < Rank(r.direction) ==> pressures.At(d) < r.pressure)
  {
    var c := OtherThan(current, pressures);
    forall d ensures !Eligible(StarvedOther(current, lastGreen, now), d) {
      assert !Starved(current, lastGreen, now, d);
    }
    forall d | d != current ensures Eligible(c, d) && Key(c, d) == pressures.At(d) { }
    BestOverAll(StarvedOther(current, lastGreen, now));
    BestOverAll(UnservedOther(current, served, pressures));
    BestOverAll(c);
    assert forall d :: !Eligible(UnservedOther(current, served, pressures), d);
    SeedBelowAll(c, 4, PressureSeed);
    assert Eligible(c, if current == North then East else North);
  }

  /** With non-negative pressures the choice is never the direction currently served. */
  lemma NeverCurrent(current: Direction, lastGreen: PerDirection<real>, served: set<Direction>,
                     now: real, pressures: PerDirection<real>)
    requires forall d :: pressures.At(d) >= 0.0
    ensures SelectNext(current, lastGreen, served, now, pressures).direction != current
  {
    BestOverAll(StarvedOther(current, lastGreen, now));
    BestOverAll(UnservedOther(current, served, pressures));
    if (exists d :: Starved(current, lastGreen, now, d)) {
    } else if e :| e != current && e !in served {
      CycleSecond(current, lastGreen, served, now, pressures, e);
    } else {
      PressureLast(current, lastGreen, served, now, pressures);
    }
  }

  /** served_this_cycle is emptied only once every other direction is in it. */
  lemma ResetOnlyWhenCycleComplete(current: Direction, lastGreen: PerDirection<real>, served: set<Direction>,
                                   now: real, pressures: PerDirection<real>)
    requires SelectNext(current, lastGreen, served, now, pressures).resetsCycle
    ensures forall d :: d != current ==> d in served
    ensures forall d :: !Starved(current, lastGreen, now, d)
  {
    BestOverAll(StarvedOther(current, lastGreen, now));
    BestOverAll(UnservedOther(current, served, pressures));
    forall d | d != current ensures d in served {
      assert !Eligible(UnservedOther(current, served, pressures), d);
    }
  }
}
