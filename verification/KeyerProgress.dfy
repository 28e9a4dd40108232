/** The keyer makes progress: one tick never runs into its transition cap, and a finite ring drains
    as the clock advances. */
module KeyerProgress {
  import opened FixedWidth
  import opened Wrappers
  import opened CharPatterns
  import opened WinKeyer
  import opened Keyer
  import opened KeyerFraming
  import opened KeyerPlay
  import Morse

  // ---- within a tick ----

  /** No element or gap at the current speed is so short that it ends in the tick that starts it. */
  predicate Brisk(pace: Pace) {
    WeightedLength(true, pace, Dit) >= 2 && WeightedLength(true, pace, Dah) >= 1 && WordSpaceLength(true, pace) >= 1
  }

  /** An upper bound on the passes left in a tick at now. */
  function Rank(d: Data, now: int): nat {
    match d.state
    case Idle => 8
    case SendElement => if now < d.exitAt then 0 else 7
    case InterElementSpace => if now < d.exitAt then 0 else 6
    case Winkeyer =>
      if d.playingBit > 0 then 1
      else if !d.charSpacePlayed then 5
      else if d.lastSendTime + WordSpaceLength(true, d.pace) <= now then 3
      else 1
    case Autospace => if now < d.exitAt then 0 else 4
    case HalfDotGap => if now < d.exitAt then 0 else 4
    case InterWordSpace => if now < d.exitAt then 0 else 2
    case _ => 9
  }

  predicate RanksDown(k: KeyerState, now: int) {
    var (after, settled) := Once(k, now, RELEASED);
    settled || (Rank(after.d, now) < Rank(k.d, now) && after.d.pace == k.d.pace && Playing(after.d))
  }

  lemma {:induction false} SendingRanks(k: KeyerState, now: int)
    requires Playing(k.d) && k.d.state in {Idle, SendElement, InterElementSpace}
    ensures RanksDown(k, now)
  {
  }

  lemma {:induction false} PausesRank(k: KeyerState, now: int)
    requires Playing(k.d) && k.d.state in {InterWordSpace, Autospace, HalfDotGap}
    requires WordSpaceLength(true, k.d.pace) >= 1
    ensures RanksDown(k, now)
  {
  }

  /** The player starts nothing that ends in the tick that starts it, but a word space that has
      long been over. */
  lemma {:induction false} ElementRanks(k: KeyerState, now: int)
    requires Playing(k.d) && Brisk(k.d.pace) && k.d.state == Winkeyer
    requires k.d.playingBit > 0 || !k.d.charSpacePlayed
    ensures RanksDown(k, now)
  {
    assert Polled(k.d, RELEASED) == k.d;
  }

  lemma {:induction false} WaitingRanks(k: KeyerState, now: int)
    requires Playing(k.d) && k.d.state == Winkeyer && k.d.playingBit == 0 && k.d.charSpacePlayed
    requires !ItemReady(k.ring) || IsCommand(k.ring[0])
    ensures RanksDown(k, now)
  {
    assert Polled(k.d, RELEASED) == k.d;
  }

  /** The states a character leads to, for a player that waits for one. */
  lemma {:induction false} StartedRanks(d: Data, now: int)
    requires d.state == Winkeyer && d.enabled && d.playingBit == 0 && d.charSpacePlayed && Brisk(d.pace)
    ensures Rank(SwitchedTo(d, HalfDotGap, now), now) < Rank(d, now)
    ensures Rank(SwitchedTo(d, InterWordSpace, now), now) < Rank(d, now)
  {
  }

  lemma {:induction false} ElementStarted(d: Data, now: int)
    requires d.state == Winkeyer && d.enabled && Brisk(d.pace) && d.sent.Some?
    ensures Rank(SwitchedTo(d, SendElement, now), now) == 0
  {
  }

  lemma {:induction false} CharacterStarts(d: Data, ring: seq<uint8>, c: uint8, now: int)
    requires d.state == Winkeyer && d.enabled && d.playingBit == 0 && d.charSpacePlayed && Brisk(d.pace)
    requires |ring| <= RING_CAPACITY
    ensures var (after, next) := CharacterPlayed(d, ring, c);
      Rank(SwitchedTo(after.d, next, now), now) < Rank(d, now)
  {
    var (after, next) := CharacterPlayed(d, ring, c);
    if next == SendElement {
      ElementStarted(after.d, now);
    } else {
      StartedRanks(d, now);
    }
  }

  lemma {:induction false} CharacterRanks(k: KeyerState, now: int)
    requires Playing(k.d) && Brisk(k.d.pace) && k.d.state == Winkeyer
    requires k.d.playingBit == 0 && k.d.charSpacePlayed
    requires ItemReady(k.ring) && !IsCommand(k.ring[0])
    ensures RanksDown(k, now)
  {
    ItemTaken(k, now);
    CharacterMoves(k.d, k.ring[1..], k.ring[0], now);
    CharacterStarts(k.d, k.ring[1..], k.ring[0], now);
  }

  lemma {:induction false} RankDrops(k: KeyerState, now: int)
    requires Playing(k.d) && Brisk(k.d.pace)
    ensures RanksDown(k, now)
  {
    if k.d.state in {Idle, SendElement, InterElementSpace} {
      SendingRanks(k, now);
    } else if k.d.state != Winkeyer {
      PausesRank(k, now);
    } else if k.d.playingBit > 0 || !k.d.charSpacePlayed {
      ElementRanks(k, now);
    } else if !ItemReady(k.ring) || IsCommand(k.ring[0]) {
      WaitingRanks(k, now);
    } else {
      CharacterRanks(k, now);
    }
  }

  /** Once the passes reach the rank, more of them change nothing. */
  lemma {:induction false} PassesSettle(k: KeyerState, now: int, n: nat, more: nat)
    requires Playing(k.d) && Brisk(k.d.pace)
    requires Rank(k.d, now) < n <= more
    ensures Passes(k, now, RELEASED, n) == Passes(k, now, RELEASED, more)
  {
    var inv := (j: KeyerState) => Playing(j.d) && Brisk(j.d.pace);
    forall j | inv(j)
      ensures RanksDown(j, now)
    {
      RankDrops(j, now);
    }
    RepeatedSettles((j: KeyerState) => Once(j, now, RELEASED), inv, (j: KeyerState) => Rank(j.d, now), k, n, more);
  }

  /** The cap of 16 passes never cuts a tick short: any larger cap gives the same state. */
  lemma {:induction false} CapNeverCuts(k: KeyerState, now: int, cap: nat)
    requires Playing(k.d) && Brisk(k.d.pace)
    requires MAX_TRANSITIONS_PER_TICK <= cap
    ensures Ticked(k, now, RELEASED) == Passes(k, now, RELEASED, cap)
  {
    PassesSettle(k, now, MAX_TRANSITIONS_PER_TICK, cap);
  }

  // ---- across ticks ----

  /** A measure of what is left to key. */
  function Work(k: KeyerState): nat {
    40 * |k.ring| + 4 * k.d.playingBit + (if k.d.charSpacePlayed then 0 else 3)
    + match k.d.state
      case SendElement => 3
      case InterElementSpace => 2
      case Autospace => 1
      case InterWordSpace => 1
      case HalfDotGap => 1
      case Idle => if k.d.enabled || k.ring != [] then 1 else 0
      case _ => 0
  }

  predicate Drained(k: KeyerState) {
    k.ring == [] && k.d.playingBit == 0 && k.d.charSpacePlayed
  }

  lemma {:induction false} NoWorkIsDrained(k: KeyerState)
    ensures Work(k) == 0 ==> Drained(k)
  {
  }

  /** The current pause or element is over. */
  predicate Expired(d: Data, now: int) {
    d.state in {SendElement, InterElementSpace, InterWordSpace, Autospace, HalfDotGap} ==> d.exitAt <= now
  }

  /** A pass never adds work, and does some unless it settles with nothing due. */
  predicate WorksDown(k: KeyerState, now: int, due: bool) {
    var (after, settled) := Once(k, now, RELEASED);
    && Work(after) <= Work(k)
    && (!settled || (due && Work(k) > 0) ==> Work(after) < Work(k))
  }

  lemma {:induction false} IdleWorks(k: KeyerState, now: int)
    requires Playing(k.d) && k.d.state == Idle
    ensures WorksDown(k, now, Expired(k.d, now))
  {
    assert Polled(k.d, RELEASED) == k.d;
  }

  lemma {:induction false} SendingWorks(k: KeyerState, now: int)
    requires Playing(k.d) && k.d.state == SendElement
    ensures WorksDown(k, now, Expired(k.d, now))
  {
  }

  lemma {:induction false} SpaceWorks(k: KeyerState, now: int)
    requires Playing(k.d) && k.d.state == InterElementSpace
    ensures WorksDown(k, now, Expired(k.d, now))
  {
    GapOnce(k, now);
    assert now >= k.d.exitAt ==> Work(k.(d := k.d.(state := Winkeyer))) + 2 == Work(k);
  }

  lemma {:induction false} PausesWork(k: KeyerState, now: int)
    requires Playing(k.d) && k.d.state in {InterWordSpace, Autospace, HalfDotGap}
    ensures WorksDown(k, now, Expired(k.d, now))
  {
  }

  lemma {:induction false} WinkeyerWorks(k: KeyerState, now: int)
    requires Playing(k.d) && k.d.state == Winkeyer && Missing(k.ring).Some?
    ensures WorksDown(k, now, Missing(k.ring) == Some(0))
  {
    assert Polled(k.d, RELEASED) == k.d;
    if k.d.playingBit == 0 && k.d.charSpacePlayed && ItemReady(k.ring) {
      ItemWorks(k.d, k.ring, now);
    }
  }

  lemma {:induction false} ItemWorks(d: Data, ring: seq<uint8>, now: int)
    requires |ring| <= RING_CAPACITY && ItemReady(ring)
    requires d.playingBit == 0 && d.charSpacePlayed && d.state == Winkeyer
    ensures var (after, next) := Consumed(d, ring);
      Work(after.(d := SwitchedTo(after.d, next, now))) < Work(KeyerData(d, ring))
  {
    if !IsCommand(ring[0]) {
      CharacterWorks(d, ring, now);
    }
  }

  lemma {:induction false} CharacterWorks(d: Data, ring: seq<uint8>, now: int)
    requires 0 < |ring| <= RING_CAPACITY && !IsCommand(ring[0])
    requires d.playingBit == 0 && d.charSpacePlayed && d.state == Winkeyer
    ensures var (after, next) := CharacterPlayed(d, ring[1..], ring[0]);
      Work(after.(d := SwitchedTo(after.d, next, now))) < Work(KeyerData(d, ring))
  {
    var (after, next) := CharacterPlayed(d, ring[1..], ring[0]);
    if ring[0] != HALF_GAP && Pattern(ring[0] as char).Some? {
      PatternsPlayable(ring[0] as char);
    }
    SwitchWorks(after, next, now);
  }

  lemma {:induction false} SwitchWorks(k: KeyerState, next: StateType, now: int)
    requires k.d.state == Winkeyer && next in {SendElement, InterWordSpace, HalfDotGap}
    ensures Work(k.(d := SwitchedTo(k.d, next, now))) <= Work(k) + 3
  {
  }

  lemma {:induction false} PassWorks(k: KeyerState, now: int)
    requires Playing(k.d) && Missing(k.ring).Some?
    ensures WorksDown(k, now, Missing(k.ring) == Some(0) && Expired(k.d, now))
    ensures Missing(Once(k, now, RELEASED).0.ring) == Missing(k.ring) && Playing(Once(k, now, RELEASED).0.d)
  {
    assert k.ring + [] == k.ring;
    var after := Once(k, now, RELEASED).0;
    assert after.ring + [] == after.ring;
    if k.d.state == Winkeyer {
      WinkeyerWorks(k, now);
      WinkeyerConserves(k, [], now);
    } else {
      RoutingConserves(k, [], now);
      if k.d.state == Idle {
        IdleWorks(k, now);
      } else if k.d.state == SendElement {
        SendingWorks(k, now);
      } else if k.d.state == InterElementSpace {
        SpaceWorks(k, now);
      } else {
        PausesWork(k, now);
      }
    }
  }

  lemma {:induction false} PassesWork(k: KeyerState, now: int, n: nat)
    requires Playing(k.d) && Missing(k.ring).Some?
    ensures Work(Passes(k, now, RELEASED, n)) <= Work(k)
    ensures n > 0 && Missing(k.ring) == Some(0) && Expired(k.d, now) && Work(k) > 0 ==>
              Work(Passes(k, now, RELEASED, n)) < Work(k)
    ensures Missing(Passes(k, now, RELEASED, n).ring) == Missing(k.ring) && Playing(Passes(k, now, RELEASED, n).d)
    decreases n
  {
    if n > 0 {
      PassWorks(k, now);
      var (after, settled) := Once(k, now, RELEASED);
      if !settled {
        PassesWork(after, now, n - 1);
      }
    }
  }

  function TickedAll(k: KeyerState, times: seq<int>): KeyerState
    decreases |times|
  {
    if times == [] then k else TickedAll(Ticked(k, times[0], RELEASED), times[1..])
  }

  /** How many of the ticks find the current element or pause over. */
  function DueTicks(k: KeyerState, times: seq<int>): nat
    decreases |times|
  {
    if times == [] then 0
    else (if Expired(k.d, times[0]) then 1 else 0) + DueTicks(Ticked(k, times[0], RELEASED), times[1..])
  }

  /** A ring of whole items drains: among any ticks, as many due ones as there is work are enough. */
  lemma {:induction false} Drains(k: KeyerState, times: seq<int>)
    requires Playing(k.d) && Missing(k.ring) == Some(0)
    requires Work(k) <= DueTicks(k, times)
    ensures Drained(TickedAll(k, times))
    decreases |times|
  {
    if times == [] {
      NoWorkIsDrained(k);
    } else {
      PassesWork(k, times[0], MAX_TRANSITIONS_PER_TICK);
      Drains(Ticked(k, times[0], RELEASED), times[1..]);
    }
  }
}
