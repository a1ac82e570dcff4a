/**
 * The countdown Clock: a deadline, the last recorded remaining duration, a
 * freeze flag, the text on display and the one-shot done signal of its
 * background check.  Each state change is a function on ClockState; the
 * class Clock performs it in place and is proved to agree with it.
 */
module Clocks {
  import opened Glyphs
  import opened Format

  /** The fields of a Clock that change; its title never does. */
  datatype ClockState = ClockState(
    t: Text,          // what the clock shows: a time or the pause marker
    deadline: int,    // absolute time, in nanoseconds, at which the countdown ends
    duration: int,    // remaining time recorded by the last running update
    freeze: bool,     // paused
    checking: bool,   // the background check is running
    signals: nat)     // done signals the background check has sent

  /** newClock at time `now`: deadline now + duration, running, not yet checking, then one update. */
  function Created(font: Font, duration: int, now: int): (s: ClockState)
    ensures s.deadline == now + duration && !s.freeze
    ensures s.duration == s.deadline - now && s.t.runes == DurationToText(duration)
    ensures !s.checking && s.signals == 0
  {
    Updated(font, ClockState(Text([], 0, 0), now + duration, duration, false, false, 0), now)
  }

  /** pause: sets the freeze flag and nothing else. */
  function Paused(s: ClockState): (r: ClockState)
    ensures r.freeze
    ensures r.t == s.t && r.deadline == s.deadline && r.duration == s.duration
    ensures r.checking == s.checking && r.signals == s.signals
  {
    s.(freeze := true)
  }

  /** start: a new deadline the recorded duration after `now`, and running again. */
  function Started(s: ClockState, now: int): (r: ClockState)
    ensures !r.freeze && r.deadline - now == s.duration
    ensures r.t == s.t && r.duration == s.duration
    ensures r.checking == s.checking && r.signals == s.signals
  {
    s.(deadline := now + s.duration, freeze := false)
  }

  /**
   * update: while frozen, show the pause marker and keep the time; while
   * running, record the time left until the deadline (negative once it has
   * passed: it is not clamped) and show it.
   */
  function Updated(font: Font, s: ClockState, now: int): (r: ClockState)
    ensures r.deadline == s.deadline && r.freeze == s.freeze
    ensures r.checking == s.checking && r.signals == s.signals
    ensures s.freeze ==> r.duration == s.duration && r.t.runes == PauseRunes
    ensures !s.freeze ==> r.duration + now == s.deadline && r.t.runes == DurationToText(r.duration)
  {
    if s.freeze then s.(t := Typeset(font, PauseRunes))
    else s.(duration := s.deadline - now, t := Typeset(font, DurationToText(s.deadline - now)))
  }

  /** run: the background check starts. */
  function Checking(s: ClockState): (r: ClockState)
    ensures r.checking
    ensures r.t == s.t && r.deadline == s.deadline && r.duration == s.duration
    ensures r.freeze == s.freeze && r.signals == s.signals
  {
    s.(checking := true)
  }

  /**
   * One tick of the background check: when it is running, the clock is not
   * frozen and `now` is strictly after the deadline, it signals done once and
   * stops; otherwise nothing changes.
   */
  function Checked(s: ClockState, now: int): (r: ClockState)
    ensures r.signals == s.signals + 1 <==> s.checking && !s.freeze && now > s.deadline
    ensures r.signals != s.signals ==> r.signals == s.signals + 1 && !r.checking
    ensures r.t == s.t && r.deadline == s.deadline && r.duration == s.duration && r.freeze == s.freeze
    ensures !(s.checking && !s.freeze && now > s.deadline) ==> r == s
  {
    if s.checking && !s.freeze && now > s.deadline then s.(checking := false, signals := s.signals + 1)
    else s
  }

  /** What the program does to a clock after creating it and starting its check. */
  datatype ClockOp = PauseOp | StartOp(now: int) | UpdateOp(now: int) | CheckOp(now: int)

  function Perform(font: Font, s: ClockState, op: ClockOp): (r: ClockState)
  {
    match op
    case PauseOp => Paused(s)
    case StartOp(now) => Started(s, now)
    case UpdateOp(now) => Updated(font, s, now)
    case CheckOp(now) => Checked(s, now)
  }

  function Apply(font: Font, s: ClockState, ops: seq<ClockOp>): (r: ClockState)
    decreases |ops|
  {
    if ops == [] then s else Apply(font, Perform(font, s, ops[0]), ops[1..])
  }

  predicate NoStart(ops: seq<ClockOp>)
  {
    forall i :: 0 <= i < |ops| ==> !ops[i].StartOp?
  }

  /** pause is idempotent. */
  lemma PauseIdempotent(s: ClockState)
    ensures Paused(Paused(s)) == Paused(s)
  {
  }

  /**
   * A frozen clock stands still until it is started: whatever updates,
   * pauses and checks happen and however much time passes, its deadline and
   * recorded duration stay as they were and it never signals done.
   */
  lemma {:induction false} FrozenClockStandsStill(font: Font, s: ClockState, ops: seq<ClockOp>)
    requires s.freeze && NoStart(ops)
    ensures var r := Apply(font, s, ops);
      r.freeze && r.deadline == s.deadline && r.duration == s.duration && r.signals == s.signals
    decreases |ops|
  {
    if ops != [] {
      assert !ops[0].StartOp?;
      FrozenClockStandsStill(font, Perform(font, s, ops[0]), ops[1..]);
    }
  }

  /**
   * Resuming continues from the last running update, not from the full
   * interval: update at t1, pause, anything but start, then start at `now`
   * gives a deadline `now + (deadline - t1)`; resuming at t1 itself leaves the
   * deadline where it was.
   */
  lemma ResumeContinuesFromLastUpdate(font: Font, s: ClockState, t1: int, ops: seq<ClockOp>, now: int)
    requires !s.freeze && NoStart(ops)
    ensures var r := Started(Apply(font, Paused(Updated(font, s, t1)), ops), now);
      !r.freeze && r.deadline == now + (s.deadline - t1) && r.duration == s.deadline - t1
    ensures now == t1 ==> Started(Apply(font, Paused(Updated(font, s, t1)), ops), now).deadline == s.deadline
  {
    FrozenClockStandsStill(font, Paused(Updated(font, s, t1)), ops);
  }

  /** A clock resumed with time left does not expire at the instant it resumes. */
  lemma ResumeDoesNotExpireAtOnce(s: ClockState, now: int)
    requires s.duration >= 0
    ensures Checked(Started(s, now), now).signals == s.signals
  {
  }

  /**
   * Exactly-once expiry: from a clock that has not signalled, no sequence of
   * pauses, starts, updates and checks makes it signal done more than once.
   */
  lemma FiresAtMostOnce(font: Font, s: ClockState, ops: seq<ClockOp>)
    requires s.signals == 0
    ensures Apply(font, s, ops).signals <= 1
  {
    SignalBudget(font, s, ops);
  }

  /** The check running counts as one signal still to come; the total never exceeds what it was. */
  lemma {:induction false} SignalBudget(font: Font, s: ClockState, ops: seq<ClockOp>)
    ensures var r := Apply(font, s, ops);
      r.signals + (if r.checking then 1 else 0) <= s.signals + (if s.checking then 1 else 0)
    ensures Apply(font, s, ops).signals >= s.signals
    decreases |ops|
  {
    if ops != [] {
      SignalBudget(font, Perform(font, s, ops[0]), ops[1..]);
    }
  }

  /** Clock: the countdown object the scheduler creates per section and mutates in place. */
  class Clock {
    const title: Text
    const font: Font
    var t: Text
    var deadline: int
    var duration: int
    var freeze: bool
    var checking: bool
    var signals: nat

    function State(): (s: ClockState)
      reads this
    {
      ClockState(t, deadline, duration, freeze, checking, signals)
    }

    /** newClock: deadline `now + duration`, running, followed by an update at `now`. */
    constructor (title: Text, font: Font, duration: int, now: int)
      ensures this.title == title && this.font == font
      ensures State() == Created(font, duration, now)
    {
      this.title := title;
      this.font := font;
      this.t := Text([], 0, 0);
      this.deadline := now + duration;
      this.duration := duration;
      this.freeze := false;
      this.checking := false;
      this.signals := 0;
      new;
      Update(now);
    }

    method Pause()
      modifies this
      ensures State() == Paused(old(State()))
    {
      freeze := true;
    }

    method Start(now: int)
      modifies this
      ensures State() == Started(old(State()), now)
    {
      deadline := now + duration;
      freeze := false;
    }

    method Update(now: int)
      modifies this
      ensures State() == Updated(font, old(State()), now)
    {
      if freeze {
        t := Typeset(font, PauseRunes);
        return;
      }
      duration := deadline - now;
      t := Typeset(font, DurationToText(duration));
    }

    /** run: starts the background check. */
    method Run()
      modifies this
      ensures State() == Checking(old(State()))
    {
      checking := true;
    }

    /** One tick of the background check; `sent` tells whether it signalled done. */
    method Check(now: int) returns (sent: bool)
      modifies this
      ensures State() == Checked(old(State()), now)
      ensures sent <==> signals == old(signals) + 1
    {
      sent := false;
      if checking && !freeze && now > deadline {
        signals := signals + 1;
        checking := false;
        sent := true;
      }
    }

    /** The clock is as wide as the wider of its time text and its title. */
    function Width(): (w: nat)
      reads this
      ensures w >= t.width && w >= title.width
      ensures w == t.width || w == title.width
    {
      if t.width >= title.width then t.width else title.width
    }

    /** The time text sits under the title, so the heights add up. */
    function Height(): (h: nat)
      reads this
      ensures h == t.height + title.height
    {
      t.height + title.height
    }
  }
}
