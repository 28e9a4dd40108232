/** What the paddles do, one at a time. */
module KeyerPaddles {
  import opened FixedWidth
  import opened Wrappers
  import opened CharPatterns
  import opened WinKeyer
  import opened Keyer
  import opened KeyerFraming

  const LEFT := Paddles(true, false)
  const RIGHT := Paddles(false, true)

  /** In idle the left paddle, held or remembered, sends a dit and the right one a dah, and the key goes down at once. */
  lemma {:induction false} PaddleChooses(k: KeyerState, now: int, p: Paddles)
    requires k.d.state == Idle
    ensures var dit, dah := k.d.ditBuffered || p.left, k.d.dahBuffered || p.right;
      && (dit && !dah ==> SendsElement(k, Once(k, now, p).0, now, Dit))
      && (dah && !dit ==> SendsElement(k, Once(k, now, p).0, now, Dah))
  {
  }

  /** The element is on the key for its length. */
  predicate SendsElement(k: KeyerState, after: KeyerState, now: int, e: Element) {
    && after.d.state == SendElement && after.d.keyLine && after.d.sent == Some(e) && after.ring == k.ring
    && after.d.exitAt == now + WeightedLength(k.d.enabled, k.d.pace, e)
    && after.d.marks == k.d.marks + [Keyed(e, CurrentWpm(k.d))]
  }

  /** While an element is on the key, only the other paddle is remembered. */
  lemma {:induction false} OnlyTheOtherCounts(k: KeyerState, now: int, p: Paddles)
    requires k.d.state == SendElement && Rested(k.d) && k.d.sent.Some? && now < k.d.exitAt
    ensures var d := Once(k, now, p).0.d;
      if k.d.sent == Some(Dit) then !d.ditBuffered && d.dahBuffered == p.right
      else !d.dahBuffered && d.ditBuffered == p.left
  {
  }

  /** With the player off, when a gap is over: a paddle, held or remembered, goes on with the next element, otherwise
      the character is over. */
  lemma {:induction false} GapIsOver(k: KeyerState, now: int, p: Paddles)
    requires k.d.state == InterElementSpace && k.d.exitAt <= now && !k.d.enabled
    ensures var next := Once(k, now, p).0.d.state;
      if k.d.ditBuffered || k.d.dahBuffered || p != RELEASED || !k.d.pace.style.autospaceEnabled then next == Idle
      else next == Autospace
  {
    var (after, next) := UpdatedInterElementSpace(k, now, p);
    GapLeadsOn(k, now, p);
    SwitchGoesTo(after.d, next, now);
  }

  lemma {:induction false} SwitchGoesTo(d: Data, next: StateType, now: int)
    ensures SwitchedTo(d, next, now).state == next
  {
    match next
    case SendElement => assert EnteredSendElement(Exited(d, now), now).state == next;
    case _ =>
  }

  lemma {:induction false} GapLeadsOn(k: KeyerState, now: int, p: Paddles)
    requires k.d.state == InterElementSpace && k.d.exitAt <= now && !k.d.enabled
    ensures var (after, next) := UpdatedInterElementSpace(k, now, p);
      && after.d.state == InterElementSpace
      && next == if k.d.ditBuffered || k.d.dahBuffered || p != RELEASED || !k.d.pace.style.autospaceEnabled then Idle
                 else Autospace
  {
  }

  /** An element that starts takes its own paddle off the memory and leaves the other there. */
  lemma {:induction false} OtherStaysRemembered(d: Data, now: int)
    requires d.state != SendElement && d.sent.Some?
    ensures var started := SwitchedTo(d, SendElement, now);
      if d.sent == Some(Dit) then !started.ditBuffered && started.dahBuffered == d.dahBuffered
      else !started.dahBuffered && started.ditBuffered == d.ditBuffered
  {
  }

  /** When a character space or a half-dot gap is over, the player goes on if it is on, otherwise the keyer is idle. */
  lemma {:induction false} PauseIsOver(k: KeyerState, now: int, p: Paddles)
    requires k.d.state in {Autospace, HalfDotGap} && k.d.exitAt <= now
    ensures Once(k, now, p).0.d.state == if k.d.enabled then Winkeyer else Idle
  {
    assert Updated(k, now, p) == (k, AfterPause(k.d, now));
    SwitchGoesTo(k.d, AfterPause(k.d, now), now);
  }

  /** An idle keyer remembers the last element until a word space, less one and a half gaps, is over since it ended. */
  lemma {:induction false} PauseForgets(d: Data, now: int, ring: seq<uint8>, later: int)
    requires d.state in {InterElementSpace, Autospace} && Rested(d) && !d.enabled && ring == []
    ensures var k := KeyerData(SwitchedTo(d, Idle, now), ring);
      var gone := later as real - d.lastSendTime as real;
      && (gone > d.pace.timings.wordSpaceMs - 1.5 * d.pace.timings.weightedElementSpaceMs ==>
            Once(k, later, RELEASED).0.d.sent == None)
      && (gone <= d.pace.timings.wordSpaceMs - 1.5 * d.pace.timings.weightedElementSpaceMs ==>
            Once(k, later, RELEASED).0.d.sent == d.sent)
  {
  }

  /** With both paddles held, an idle keyer that has forgotten starts with a dit, and otherwise takes the other element. */
  lemma {:induction false} SqueezeChooses(k: KeyerState, now: int)
    requires k.d.state == Idle && Rested(k.d)
    ensures Once(k, now, Paddles(true, true)).0.d.sent == if k.d.sent == Some(Dit) then Some(Dah) else Some(Dit)
  {
  }

  /** The states that nothing in this model enters give way to idle at once. */
  lemma {:induction false} IdleFollows(k: KeyerState, now: int, p: Paddles)
    requires k.d.state in {KeyDown, Tune}
    ensures Once(k, now, p).0.d.state == Idle
  {
    SwitchGoesTo(k.d, Idle, now);
  }

  /** A paddle breaks in on the player: the buffer is emptied, the player off, and the paddle remembered. */
  lemma {:induction false} PaddleBreaksIn(k: KeyerState, now: int, p: Paddles)
    requires k.d.state == Winkeyer && p != RELEASED
    ensures var after := Once(k, now, p).0;
      && after.ring == [] && !after.d.enabled && after.d.state == Idle && after.d.marks == k.d.marks
      && after.d.ditBuffered == (k.d.ditBuffered || p.left) && after.d.dahBuffered == (k.d.dahBuffered || p.right)
  {
    var d := Polled(k.d, p).(enabled := false);
    assert UpdatedWinkeyer(k, p) == (KeyerData(d, []), Idle);
    assert SwitchedTo(d, Idle, now) == EnteredIdle(d);
  }

  /** And is heard at once: the next pass keys its element. */
  lemma {:induction false} BreakInIsKeyed(k: KeyerState, now: int, p: Paddles)
    requires k.d.state == Winkeyer && Rested(k.d) && p in {LEFT, RIGHT}
    ensures var after := Once(Once(k, now, p).0, now, p).0;
      after.d.state == SendElement && after.d.sent == Some(if p == LEFT then Dit else Dah) && after.ring == []
  {
    PaddleBreaksIn(k, now, p);
    PaddleChooses(Once(k, now, p).0, now, p);
  }

  /** How many arguments each command has, by its byte. */
  const PARAMETER_COUNTS: seq<nat> :=
    [1, 1, 1, 1, 2, 3, 1, 0, 0, 1, 0, 1, 1, 1, 1, 15, 1, 1, 1, 0, 1, 0, 1, 1, 1, 1, 1, 2, 1, 1, 0, 0]

  lemma {:induction false} CountsAre(c: uint8)
    ensures IsCommand(c) <==> c < |PARAMETER_COUNTS|
    ensures IsCommand(c) ==> ParameterCount(c) == PARAMETER_COUNTS[c]
    ensures IsBuffered(c) <==> 24 <= c < |PARAMETER_COUNTS|
  {
  }
}
