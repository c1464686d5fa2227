/** Generating room codes: what the two nested retry loops amount to. */
module RoomCodes {
  import opened Types
  import opened StoreModel
  import Do = Operations

  const GENERATION_ATTEMPTS := 50
  const RESERVATION_ATTEMPTS := 100

  /** The random generator as the stream that it will produce, and the profanity filter. */
  datatype Source = Source(draw: nat -> Code, profane: Code -> bool) {
    predicate Profane(i: nat) {
      profane(draw(i))
    }

    ghost predicate OfLength(length: nat) {
      forall i :: |draw(i)| == length
    }
  }

  ghost predicate AllProfane(src: Source, from: nat, to: nat) {
    forall i :: from <= i < to ==> src.Profane(i)
  }

  /** `r` is the first clean draw at or after `from`, unless the first fifty draws are all profane;
      `next` is the number of the draw to come. */
  ghost predicate Generated(src: Source, from: nat, next: nat, r: Result<Code>) {
    match r
    case Success(code) =>
      && from < next <= from + 50
      && AllProfane(src, from, next - 1) && !src.Profane(next - 1) && code == src.draw(next - 1)
    case Failure(e) =>
      && next == from + 50 && AllProfane(src, from, next)
      && e == RoomCodeGenerationFailed
  }

  class Generator {
    const source: Source
    var next: nat

    constructor (source: Source)
      ensures this.source == source && next == 0
    {
      this.source := source;
      next := 0;
    }

    method Draw() returns (code: Code)
      modifies this
      ensures code == source.draw(old(next)) && next == old(next) + 1
    {
      code := source.draw(next);
      next := next + 1;
    }

    /** The first clean draw, unless the next fifty are all profane. */
    method GenerateRoomCode() returns (r: Result<Code>)
      modifies this
      ensures Generated(source, old(next), next, r)
    {
      for n := 0 to GENERATION_ATTEMPTS
        invariant next == old(next) + n
        invariant forall i :: old(next) <= i < next ==> source.Profane(i)
      {
        var code := Draw();
        if !source.profane(code) { return Success(code); }
      }
      r := Failure(RoomCodeGenerationFailed);
    }
  }

  // ---------- one scan of the stream ----------

  /** Where a pass over the draws is: `dirty` profane ones since the last clean one, `taken` clean
      ones whose room exists. */
  datatype Tries = Tries(at: nat, dirty: nat, taken: nat)

  /** A single pass: where it finds a code, if it does, and where it stops. */
  function Scan(s: Store, src: Source, now: Tries): (Option<nat>, nat)
    requires now.dirty <= GENERATION_ATTEMPTS && now.taken <= RESERVATION_ATTEMPTS
    decreases RESERVATION_ATTEMPTS - now.taken, GENERATION_ATTEMPTS - now.dirty
  {
    var Tries(at, dirty, taken) := now;
    if dirty == GENERATION_ATTEMPTS || taken == RESERVATION_ATTEMPTS then (None, at)
    else if src.Profane(at) then Scan(s, src, Tries(at + 1, dirty + 1, taken))
    else if src.draw(at) in s.rooms then Scan(s, src, Tries(at + 1, 0, taken + 1))
    else (Some(at), at + 1)
  }

  /** The inner loop, seen from the scan: it runs through profane draws. */
  lemma {:induction false} ScanThroughProfane(s: Store, src: Source, at: nat, dirty: nat, taken: nat, n: nat)
    requires dirty + n <= GENERATION_ATTEMPTS && taken < RESERVATION_ATTEMPTS
    requires forall i :: at <= i < at + n ==> src.Profane(i)
    ensures Scan(s, src, Tries(at, dirty, taken)) == Scan(s, src, Tries(at + n, dirty + n, taken))
    decreases n
  {
    if n == 0 {
    } else {
      ScanThroughProfane(s, src, at + 1, dirty + 1, taken, n - 1);
    }
  }

  /** One call of the inner loop is a stretch of the scan. */
  lemma GenerationScanned(s: Store, src: Source, from: nat, next: nat, taken: nat, r: Result<Code>)
    requires taken < RESERVATION_ATTEMPTS && Generated(src, from, next, r)
    ensures var scan := Scan(s, src, Tries(from, 0, taken));
      match r
      case Failure(_) => scan == (None, next)
      case Success(code) =>
        if code in s.rooms then scan == Scan(s, src, Tries(next, 0, taken + 1))
        else next != 0 && code == src.draw(next - 1) && scan == (Some(next - 1), next)
  {
    ScanThroughProfane(s, src, from, 0, taken, next - from - if r.Success? then 1 else 0);
  }

  // ---------- what the scan finds ----------

  ghost predicate Free(s: Store, src: Source, i: nat) {
    !src.Profane(i) && src.draw(i) !in s.rooms
  }

  /** No draw in the range is clean and free. */
  ghost predicate NoneFree(s: Store, src: Source, from: nat, to: nat) {
    forall i :: from <= i < to ==> !Free(s, src, i)
  }

  ghost predicate ProfaneRun(src: Source, from: nat) {
    AllProfane(src, from, from + 50)
  }

  function CleanDraws(src: Source, from: nat, to: nat): seq<Code>
    requires from <= to
  {
    if from == to then []
    else CleanDraws(src, from, to - 1) + if src.Profane(to - 1) then [] else [src.draw(to - 1)]
  }

  /** Fifty profane draws in a row, or a hundred clean ones, lie in the range. */
  ghost predicate TriesUsedUp(src: Source, from: nat, to: nat)
    requires from <= to
  {
    || (exists w :: from <= w <= to - 50 && ProfaneRun(src, w))
    || |CleanDraws(src, from, to)| >= 100
  }

  /** Where a scan from `start` is after drawing up to `at` in vain. */
  ghost predicate Going(s: Store, src: Source, start: nat, at: nat, dirty: nat, taken: nat) {
    && start <= at - dirty && taken == |CleanDraws(src, start, at)|
    && AllProfane(src, at - dirty, at) && (at - dirty == start || !src.Profane(at - dirty - 1))
    && NoneFree(s, src, start, at)
    && (dirty < GENERATION_ATTEMPTS && taken < RESERVATION_ATTEMPTS ==> !TriesUsedUp(src, start, at))
    && at - start <= GENERATION_ATTEMPTS * taken + dirty
  }

  /** The scan stops at the first free draw, or where the tries are used up. */
  ghost predicate Outcome(s: Store, src: Source, start: nat, found: Option<nat>, stop: nat) {
    && start <= stop <= start + 50 * 100
    && match found
       case Some(i) =>
         stop == i + 1 && start <= i && Free(s, src, i) && NoneFree(s, src, start, i)
         && !TriesUsedUp(src, start, i)
       case None => NoneFree(s, src, start, stop) && TriesUsedUp(src, start, stop)
  }

  lemma {:induction false} ScanGoing(s: Store, src: Source, start: nat, at: nat, dirty: nat, taken: nat)
    requires dirty <= GENERATION_ATTEMPTS && taken <= RESERVATION_ATTEMPTS
    requires dirty == 0 || taken < RESERVATION_ATTEMPTS
    requires Going(s, src, start, at, dirty, taken)
    ensures var (found, stop) := Scan(s, src, Tries(at, dirty, taken)); Outcome(s, src, start, found, stop)
    decreases RESERVATION_ATTEMPTS - taken, GENERATION_ATTEMPTS - dirty
  {
    if dirty == GENERATION_ATTEMPTS || taken == RESERVATION_ATTEMPTS {
      assert dirty == GENERATION_ATTEMPTS ==> ProfaneRun(src, at - dirty);
    } else if src.Profane(at) {
      StillGoing(s, src, start, at, dirty, taken);
      ScanGoing(s, src, start, at + 1, dirty + 1, taken);
    } else if src.draw(at) in s.rooms {
      StillGoing(s, src, start, at, dirty, taken);
      ScanGoing(s, src, start, at + 1, 0, taken + 1);
    }
  }

  lemma StillGoing(s: Store, src: Source, start: nat, at: nat, dirty: nat, taken: nat)
    requires dirty < GENERATION_ATTEMPTS && taken < RESERVATION_ATTEMPTS
    requires Going(s, src, start, at, dirty, taken) && !Free(s, src, at)
    ensures if src.Profane(at) then Going(s, src, start, at + 1, dirty + 1, taken)
            else Going(s, src, start, at + 1, 0, taken + 1)
  {
    forall w | start <= w <= at + 1 - GENERATION_ATTEMPTS && ProfaneRun(src, w)
      ensures w + GENERATION_ATTEMPTS == at + 1 && src.Profane(at) && dirty + 1 == GENERATION_ATTEMPTS
    {
      assert !TriesUsedUp(src, start, at);
      assert src.Profane(at);
      if at - dirty != start { assert w > at - dirty - 1; }
    }
  }

  lemma Scanned(s: Store, src: Source, start: nat)
    ensures var (found, stop) := Scan(s, src, Tries(start, 0, 0)); Outcome(s, src, start, found, stop)
  {
    ScanGoing(s, src, start, start, 0, 0);
  }

  /** The scan finds draw `i` exactly if `i` is the first draw that is clean and free, and neither
      fifty profane draws in a row nor a hundred clean ones come before it.  It draws at most
      5000 times. */
  lemma ScanFinds(s: Store, src: Source, start: nat, i: nat)
    ensures var (found, stop) := Scan(s, src, Tries(start, 0, 0));
      && (found == Some(i) <==>
            start <= i && Free(s, src, i) && NoneFree(s, src, start, i) && !TriesUsedUp(src, start, i))
      && stop <= start + 5000
  {
    Scanned(s, src, start);
    var (found, stop) := Scan(s, src, Tries(start, 0, 0));
    if start <= i && Free(s, src, i) && NoneFree(s, src, start, i) && !TriesUsedUp(src, start, i) {
      if found.None? {
        UsedUpGrows(src, start, stop, i);
      }
    }
  }

  /** It fails exactly if the tries are used up before any draw is clean and free. */
  lemma ScanFails(s: Store, src: Source, start: nat)
    ensures Scan(s, src, Tries(start, 0, 0)).0.None? <==>
      exists stop :: start <= stop && NoneFree(s, src, start, stop) && TriesUsedUp(src, start, stop)
  {
    Scanned(s, src, start);
    var (found, end) := Scan(s, src, Tries(start, 0, 0));
    if found.Some? {
      forall stop | start <= stop && NoneFree(s, src, start, stop) ensures !TriesUsedUp(src, start, stop) {
        if TriesUsedUp(src, start, stop) { UsedUpGrows(src, start, stop, found.value); }
      }
    } else {
      assert start <= end && NoneFree(s, src, start, end) && TriesUsedUp(src, start, end);
    }
  }

  lemma UsedUpGrows(src: Source, from: nat, to: nat, later: nat)
    requires from <= to <= later && TriesUsedUp(src, from, to)
    ensures TriesUsedUp(src, from, later)
  {
    MoreCleanDraws(src, from, to, later);
  }

  lemma {:induction false} MoreCleanDraws(src: Source, from: nat, to: nat, later: nat)
    requires from <= to <= later
    ensures |CleanDraws(src, from, to)| <= |CleanDraws(src, from, later)|
  {
    if to == later {
    } else {
      MoreCleanDraws(src, from, to, later - 1);
    }
  }

  /** The scan's find is the first free candidate among the clean draws. */
  lemma ScanIsFirstFree(s: Store, src: Source, start: nat)
    ensures var (found, stop) := Scan(s, src, Tries(start, 0, 0));
      && start <= stop
      && Do.FirstFree(s, CleanDraws(src, start, stop)) ==
           match found case Some(i) => Some(src.draw(i)) case None => None
  {
    Scanned(s, src, start);
    var (found, stop) := Scan(s, src, Tries(start, 0, 0));
    match found
    case None => NoneAmong(s, src, start, stop);
    case Some(i) =>
      NoneAmong(s, src, start, i);
      FirstFreeAppended(s, CleanDraws(src, start, i), src.draw(i));
  }

  lemma {:induction false} NoneAmong(s: Store, src: Source, from: nat, to: nat)
    requires from <= to && NoneFree(s, src, from, to)
    ensures Do.FirstFree(s, CleanDraws(src, from, to)) == None
  {
    if from != to {
      NoneAmong(s, src, from, to - 1);
      FirstFreeAppended(s, CleanDraws(src, from, to - 1), src.draw(to - 1));
      assert !Free(s, src, to - 1);
      assert CleanDraws(src, from, to - 1) + [] == CleanDraws(src, from, to - 1);
    }
  }

  lemma {:induction false} FirstFreeAppended(s: Store, candidates: seq<Code>, code: Code)
    requires Do.FirstFree(s, candidates) == None
    ensures Do.FirstFree(s, candidates + [code]) == if code in s.rooms then None else Some(code)
  {
    if candidates == [] {
      assert [] + [code] == [code];
      assert Do.FirstFree(s, [code]) == if code in s.rooms then Do.FirstFree(s, []) else Some(code);
    } else {
      FirstFreeAppended(s, candidates[1..], code);
      assert (candidates + [code])[1..] == candidates[1..] + [code];
    }
  }
}
