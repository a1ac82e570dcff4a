/**
 * The scheduler of main: build the sections, then for each in turn create
 * its clock, render, execute its command, and wait on keyboard input, the
 * clock's done signal and the render tick until the section ends.
 *
 * The concurrent sources become one trace of events.  Keyboard input,
 * ticks of the clock's background check, the done signal and render ticks
 * arrive in the trace in any order; each carries the time it happens at and
 * whatever the outside world reports (a redraw that fails, a kill that
 * fails).  A done event before the background check has signalled is not
 * ready and is passed over.  What happens when a section starts (the time,
 * whether the first render succeeds, what the spawn reports) comes from
 * Env.boot, per section.
 *
 * Step, Enter and Replay state the loop as functions; RunSections is the
 * loop itself, over Section and Clock objects, proved equal to Replay.
 */
module Scheduler {
  import opened Wrappers
  import opened Glyphs
  import Clocks
  import opened Sections
  import opened Config

  datatype EventType = EventKey | EventOther
  datatype KeyCode = KeyEsc | KeyCtrlC | KeyOther

  /** A terminal event: its type, its special key and its character. */
  datatype TermEvent = TermEvent(kind: EventType, key: KeyCode, ch: char)

  datatype Event =
    | Input(ev: TermEvent, now: int)   // a keyboard event is received
    | Poll(now: int)                   // the current clock's background check ticks
    | Expiry(killFails: bool)          // the clock's done signal is received
    | Frame(now: int, drawn: bool)     // the render tick fires; drawn: the redraw succeeds

  /** What the world reports when section i starts. */
  datatype Startup = Startup(now: int, drawn: bool, spawn: SpawnOutcome)

  datatype Env = Env(font: Font, goos: string, boot: nat -> Startup)

  /** What the loop does, in order, tagged with the section it does it for. */
  datatype Action =
    | NewClock(i: nat)
    | Render(i: nat)
    | Spawn(i: nat, pid: Pid)
    | Pause(i: nat)
    | Start(i: nat)
    | Update(i: nat)
    | Kill(i: nat, pid: Pid, ok: bool)

  datatype Outcome = NoSchedule | Fatal(error: Error) | Quit | Exhausted

  /** Between: about to start section `index`; Active: running it; Ended: the program is over. */
  datatype Status = Between | Active | Ended(outcome: Outcome)

  datatype World = World(
    index: nat,                  // the current section
    clock: Clocks.ClockState,    // the current section's clock
    procs: seq<Option<Pid>>,     // every section's process field
    status: Status,
    log: seq<Action>)

  const Idle: Clocks.ClockState := Clocks.ClockState(Text([], 0, 0), 0, 0, false, false, 0)

  function Initial(n: nat): (w: World)
  {
    World(0, Idle, seq(n, _ => None), Between, [])
  }

  predicate Wf(secs: seq<SectionSpec>, w: World)
  {
    |w.procs| == |secs| && w.index <= |secs| && (w.status.Active? ==> w.index < |secs|)
  }

  predicate IsQuitKey(ev: TermEvent)
  {
    ev.kind == EventKey && (ev.key == KeyEsc || ev.key == KeyCtrlC)
  }

  /**
   * Starting section `index`: past the last one the loop is over; otherwise
   * create its clock, render, execute, and stop the program at the first of
   * these that fails.
   */
  function Enter(secs: seq<SectionSpec>, env: Env, w: World): (r: World)
    requires Wf(secs, w) && w.status.Between?
    ensures Wf(secs, r) && !r.status.Between? && r.index == w.index
  {
    var i := w.index;
    if i == |secs| then w.(status := Ended(Exhausted))
    else
      var sec := secs[i];
      var st := env.boot(i);
      match NewText(env.font, sec.title)
      case Err(e) => w.(status := Ended(Fatal(e)))
      case Ok(_) =>
        var w := w.(clock := Clocks.Checking(Clocks.Created(env.font, sec.duration, st.now)),
                    log := w.log + [NewClock(i)]);
        if !st.drawn then w.(status := Ended(Fatal(DrawFailed)))
        else
          var w := w.(log := w.log + [Render(i)]);
          match Executed(sec.cmd, env.goos, st.spawn)
          case Nothing => w.(status := Active)
          case Failed(argv) => w.(status := Ended(Fatal(ExecFailed(argv))))
          case Running(pid) => w.(procs := w.procs[i := Some(pid)], status := Active, log := w.log + [Spawn(i, pid)])
  }

  /** One pass of the select in the running section. */
  function Step(secs: seq<SectionSpec>, env: Env, w: World, e: Event): (r: World)
    requires Wf(secs, w) && w.status.Active?
    ensures Wf(secs, r)
  {
    var i := w.index;
    match e
    case Input(ev, now) =>
      if IsQuitKey(ev) then w.(status := Ended(Quit))
      else
        var w := if ev.ch == 'p' || ev.ch == 'P'
          then w.(clock := Clocks.Paused(w.clock), log := w.log + [Pause(i)]) else w;
        var w := if ev.ch == 'c' || ev.ch == 'C'
          then w.(clock := Clocks.Started(w.clock, now), log := w.log + [Start(i)]) else w;
        if ev.ch == 'n' || ev.ch == 'N' then w.(index := i + 1, status := Between)
        else if ev.ch == 'q' || ev.ch == 'Q' then w.(status := Ended(Quit))
        else w
    case Poll(now) =>
      w.(clock := Clocks.Checked(w.clock, now))
    case Expiry(killFails) =>
      if w.clock.signals == 0 then w
      else
        var w := match w.procs[i]
          case None => w
          case Some(pid) => w.(log := w.log + [Kill(i, pid, !killFails)]);
        w.(index := i + 1, status := Between)
    case Frame(now, drawn) =>
      var w := w.(clock := Clocks.Updated(env.font, w.clock, now), log := w.log + [Update(i)]);
      if drawn then w.(log := w.log + [Render(i)]) else w.(status := Ended(Fatal(DrawFailed)))
  }

  /** The loop driven by a trace: where it is once the trace is used up or the program is over. */
  function Replay(secs: seq<SectionSpec>, env: Env, w: World, events: seq<Event>): (r: World)
    requires Wf(secs, w)
    ensures Wf(secs, r) && !r.status.Between?
    decreases |events|, if w.status.Between? then 1 else 0
  {
    if w.status.Between? then Replay(secs, env, Enter(secs, env, w), events)
    else if w.status.Ended? || events == [] then w
    else Replay(secs, env, Step(secs, env, w, events[0]), events[1..])
  }

  /** main: no schedule is an exit; a bad section time is fatal; otherwise run the sections. */
  function Schedule(cfg: Ini, parse: string -> Option<int>, env: Env, events: seq<Event>): (w: World)
  {
    var names := Fields(Key(cfg, "", "schedule"));
    if names == [] then Initial(0).(status := Ended(NoSchedule))
    else
      match SectionSpecs(names, cfg, parse)
      case Err(e) => Initial(0).(status := Ended(Fatal(e)))
      case Ok(secs) => Replay(secs, env, Initial(|secs|), events)
  }

  // ---------------------------------------------------------------------------
  // Properties of the loop

  /** The sections whose clock was created, in the order they were. */
  function Entries(log: seq<Action>): (e: seq<nat>)
  {
    if log == [] then []
    else Entries(log[..|log| - 1]) + (if log[|log| - 1].NewClock? then [log[|log| - 1].i] else [])
  }

  lemma EntriesAppend(log: seq<Action>, a: Action)
    ensures Entries(log + [a]) == Entries(log) + (if a.NewClock? then [a.i] else [])
  {
    assert (log + [a])[..|log|] == log;
  }

  /**
   * The sections started so far are 0, 1, 2, ... in list order, each once;
   * Between has started all before `index`, Active all up to it, and a
   * loop that ran out of sections has started every one.
   */
  predicate InOrder(secs: seq<SectionSpec>, w: World)
  {
    var e := Entries(w.log);
    (forall j :: 0 <= j < |e| ==> e[j] == j) && |e| <= |secs| &&
    (w.status.Between? ==> |e| == w.index) &&
    (w.status.Active? ==> |e| == w.index + 1) &&
    (w.status == Ended(Exhausted) ==> |e| == |secs|)
  }

  /** Appending an action that creates no clock leaves the entries as they are. */
  lemma {:induction false} EntriesKeep(log: seq<Action>, extra: seq<Action>)
    requires forall j :: 0 <= j < |extra| ==> !extra[j].NewClock?
    ensures Entries(log + extra) == Entries(log)
    decreases |extra|
  {
    if extra == [] {
      assert log + extra == log;
    } else {
      var front := extra[..|extra| - 1];
      assert forall j :: 0 <= j < |front| ==> front[j] == extra[j];
      assert log + extra == (log + front) + [extra[|extra| - 1]];
      EntriesAppend(log + front, extra[|extra| - 1]);
      EntriesKeep(log, front);
    }
  }

  /** The entries of a log, once the clock of the next section has been created. */
  predicate Counted(e: seq<nat>, n: nat)
  {
    |e| == n && forall j :: 0 <= j < |e| ==> e[j] == j
  }

  lemma EnterInOrder(secs: seq<SectionSpec>, env: Env, w: World)
    requires Wf(secs, w) && w.status.Between? && InOrder(secs, w)
    ensures InOrder(secs, Enter(secs, env, w))
  {
    var i := w.index;
    var r := Enter(secs, env, w);
    if i < |secs| && NewText(env.font, secs[i].title).Ok? {
      var st := env.boot(i);
      var log1 := w.log + [NewClock(i)];
      EntriesAppend(w.log, NewClock(i));
      assert Counted(Entries(log1), i + 1);
      var tail: seq<Action> := [];
      if st.drawn {
        match Executed(secs[i].cmd, env.goos, st.spawn)
        case Running(pid) => tail := [Render(i), Spawn(i, pid)];
        case _ => tail := [Render(i)];
      }
      assert r.log == log1 + tail;
      EntriesKeep(log1, tail);
    }
  }

  lemma StepInOrder(secs: seq<SectionSpec>, env: Env, w: World, e: Event)
    requires Wf(secs, w) && w.status.Active? && InOrder(secs, w)
    ensures InOrder(secs, Step(secs, env, w, e))
  {
    var r := Step(secs, env, w, e);
    assert r.log[..|w.log|] == w.log;
    assert forall j :: 0 <= j < |r.log| - |w.log| ==> !r.log[|w.log|..][j].NewClock?;
    assert r.log == w.log + r.log[|w.log|..];
    EntriesKeep(w.log, r.log[|w.log|..]);
  }

  lemma {:induction false} ReplayInOrder(secs: seq<SectionSpec>, env: Env, w: World, events: seq<Event>)
    requires Wf(secs, w) && InOrder(secs, w)
    ensures InOrder(secs, Replay(secs, env, w, events))
    decreases |events|, if w.status.Between? then 1 else 0
  {
    if w.status.Between? {
      EnterInOrder(secs, env, w);
      ReplayInOrder(secs, env, Enter(secs, env, w), events);
    } else if w.status.Active? && events != [] {
      StepInOrder(secs, env, w, events[0]);
      ReplayInOrder(secs, env, Step(secs, env, w, events[0]), events[1..]);
    }
  }

  /**
   * Whatever the configuration and the trace, sections are started in
   * schedule order, each at most once, never more than the schedule names,
   * and a run that ends by running out of sections has started all of them.
   */
  lemma SectionsRunInOrder(cfg: Ini, parse: string -> Option<int>, env: Env, events: seq<Event>)
    ensures var w := Schedule(cfg, parse, env, events);
      var e := Entries(w.log);
      (forall j :: 0 <= j < |e| ==> e[j] == j) &&
      |e| <= |Fields(Key(cfg, "", "schedule"))| &&
      (w.status == Ended(Exhausted) ==> |e| == |Fields(Key(cfg, "", "schedule"))|)
  {
    var names := Fields(Key(cfg, "", "schedule"));
    if names != [] {
      match SectionSpecs(names, cfg, parse)
      case Err(_) =>
      case Ok(secs) =>
        ReplayInOrder(secs, env, Initial(|secs|), events);
    }
  }

  /** A schedule with no names ends the program before any section is built. */
  lemma EmptyScheduleExits(cfg: Ini, parse: string -> Option<int>, env: Env, events: seq<Event>)
    requires forall i :: 0 <= i < |Key(cfg, "", "schedule")| ==> IsSpace(Key(cfg, "", "schedule")[i])
    ensures Schedule(cfg, parse, env, events).status == Ended(NoSchedule)
    ensures Schedule(cfg, parse, env, events).log == []
  {
    NoFieldsIffBlank(Key(cfg, "", "schedule"));
  }

  /** A name whose time does not parse is fatal before any section starts, whatever follows it. */
  lemma BadTimeIsFatal(cfg: Ini, parse: string -> Option<int>, env: Env, events: seq<Event>, k: nat)
    requires var names := Fields(Key(cfg, "", "schedule"));
      k < |names| && parse(Key(cfg, names[k], "time")).None? &&
      forall j :: 0 <= j < k ==> parse(Key(cfg, names[j], "time")).Some?
    ensures var names := Fields(Key(cfg, "", "schedule"));
      Schedule(cfg, parse, env, events).status == Ended(Fatal(BadDuration(Key(cfg, names[k], "time"))))
    ensures Schedule(cfg, parse, env, events).log == []
  {
    FirstBadTimeIsReported(Fields(Key(cfg, "", "schedule")), cfg, parse, k);
  }

  /**
   * Starting a section creates its clock, then renders, then executes, each
   * only if the one before succeeded: the log grows by a prefix of
   * NewClock, Render, Spawn, and only a running section holds a fresh clock.
   */
  lemma SectionStartOrder(secs: seq<SectionSpec>, env: Env, w: World)
    requires Wf(secs, w) && w.status.Between? && w.index < |secs|
    ensures var r := Enter(secs, env, w);
      var i := w.index;
      var st := env.boot(i);
      var ex := Executed(secs[i].cmd, env.goos, st.spawn);
      (!env.font.covers(secs[i].title) ==> r.status == Ended(Fatal(NoFont(secs[i].title))) && r.log == w.log) &&
      (env.font.covers(secs[i].title) && !st.drawn ==>
         r.status == Ended(Fatal(DrawFailed)) && r.log == w.log + [NewClock(i)]) &&
      (env.font.covers(secs[i].title) && st.drawn ==>
         r.log[..|w.log| + 2] == w.log + [NewClock(i), Render(i)] &&
         (ex.Failed? ==> r.status == Ended(Fatal(ExecFailed(ex.argv))) && |r.log| == |w.log| + 2) &&
         (ex.Nothing? ==> r.status.Active? && |r.log| == |w.log| + 2 && r.procs == w.procs) &&
         (ex.Running? ==> r.status.Active? && r.log == w.log + [NewClock(i), Render(i), Spawn(i, ex.pid)] &&
                          r.procs == w.procs[i := Some(ex.pid)])) &&
      (r.status.Active? ==> r.clock == Clocks.Checking(Clocks.Created(env.font, secs[i].duration, st.now))) &&
      (!r.status.Active? ==> r.procs == w.procs)
  {
  }

  /** Esc, Ctrl-C, q or Q end the program at once: nothing is stopped and no later event or section counts. */
  lemma QuitEndsRun(secs: seq<SectionSpec>, env: Env, w: World, ev: TermEvent, now: int, rest: seq<Event>)
    requires Wf(secs, w) && w.status.Active?
    requires IsQuitKey(ev) || ev.ch == 'q' || ev.ch == 'Q'
    ensures Replay(secs, env, w, [Input(ev, now)] + rest) == w.(status := Ended(Quit))
  {
    assert ([Input(ev, now)] + rest)[0] == Input(ev, now);
  }

  /** p or P pauses and c or C restarts the clock; either way the section goes on. */
  lemma PauseResumeStayInSection(secs: seq<SectionSpec>, env: Env, w: World, ev: TermEvent, now: int)
    requires Wf(secs, w) && w.status.Active? && !IsQuitKey(ev)
    requires ev.ch in {'p', 'P', 'c', 'C'}
    ensures var r := Step(secs, env, w, Input(ev, now));
      r.status.Active? && r.index == w.index && r.procs == w.procs &&
      (ev.ch in {'p', 'P'} ==> r.clock == Clocks.Paused(w.clock) && r.log == w.log + [Pause(w.index)]) &&
      (ev.ch in {'c', 'C'} ==> r.clock == Clocks.Started(w.clock, now) && r.log == w.log + [Start(w.index)])
  {
  }

  /**
   * n or N moves to the next section without stopping this one: nothing is
   * killed and its process stays recorded.
   */
  lemma SkipDoesNotStop(secs: seq<SectionSpec>, env: Env, w: World, ev: TermEvent, now: int, rest: seq<Event>)
    requires Wf(secs, w) && w.status.Active? && !IsQuitKey(ev)
    requires ev.ch == 'n' || ev.ch == 'N'
    ensures Step(secs, env, w, Input(ev, now)) == w.(index := w.index + 1, status := Between)
    ensures Replay(secs, env, w, [Input(ev, now)] + rest) ==
      Replay(secs, env, Enter(secs, env, w.(index := w.index + 1, status := Between)), rest)
  {
    assert ([Input(ev, now)] + rest)[1..] == rest;
  }

  /**
   * The done signal stops the section (killing its process, if it has one)
   * and moves to the next; a failed kill is only logged and changes nothing
   * else.  Before the check has signalled, done is not ready.
   */
  lemma ExpiryStopsThenAdvances(secs: seq<SectionSpec>, env: Env, w: World, killFails: bool)
    requires Wf(secs, w) && w.status.Active?
    ensures w.clock.signals == 0 ==> Step(secs, env, w, Expiry(killFails)) == w
    ensures w.clock.signals > 0 ==>
      var r := Step(secs, env, w, Expiry(killFails));
      var i := w.index;
      r.index == i + 1 && r.status.Between? && r.procs == w.procs && r.clock == w.clock &&
      r.log == w.log + (if w.procs[i].Some? then [Kill(i, w.procs[i].value, !killFails)] else [])
    ensures Step(secs, env, w, Expiry(true)).(log := []) == Step(secs, env, w, Expiry(false)).(log := [])
  {
  }

  /** A render tick updates the clock and redraws; it never changes the section. */
  lemma FrameKeepsSection(secs: seq<SectionSpec>, env: Env, w: World, now: int, drawn: bool)
    requires Wf(secs, w) && w.status.Active?
    ensures var r := Step(secs, env, w, Frame(now, drawn));
      r.index == w.index && r.procs == w.procs && r.clock == Clocks.Updated(env.font, w.clock, now) &&
      (drawn ==> r.status.Active? && r.log == w.log + [Update(w.index), Render(w.index)]) &&
      (!drawn ==> r.status == Ended(Fatal(DrawFailed)) && r.log == w.log + [Update(w.index)])
  {
  }

  // ---------------------------------------------------------------------------
  // The loop over objects

  /** The process field of every section, in order. */
  function Procs(sections: seq<Section>): (procs: seq<Option<Pid>>)
    reads set s | s in sections
  {
    seq(|sections|, i requires 0 <= i < |sections| reads sections => sections[i].process)
  }

  /**
   * The start of section i in main's loop: create its clock, render it,
   * execute its command, giving up at the first failure.
   */
  method StartSection(sections: seq<Section>, env: Env, i: nat, ghost gclock: Clocks.ClockState, log0: seq<Action>)
    returns (status: Status, clock: Clocks.Clock?, log: seq<Action>)
    requires i < |sections|
    requires forall j :: 0 <= j < |sections| && j != i ==> sections[j] != sections[i]
    modifies sections[i]
    ensures var r := Enter(Specs(sections), env, World(i, gclock, old(Procs(sections)), Between, log0));
      status == r.status && log == r.log && Procs(sections) == r.procs &&
      (status.Active? ==> clock != null && fresh(clock) && clock.font == env.font && clock.State() == r.clock)
  {
    ghost var before := Procs(sections);
    ghost var w := World(i, gclock, before, Between, log0);
    ghost var secs := Specs(sections);
    var s := sections[i];
    var st := env.boot(i);
    assert secs[i] == s.Spec();
    SectionStartOrder(secs, env, w);
    var r := s.CreateClock(env.font, st.now);
    if r.Err? {
      return Ended(Fatal(r.error)), null, log0;
    }
    clock := r.value;
    log := log0 + [NewClock(i)];
    if !st.drawn {
      return Ended(Fatal(DrawFailed)), clock, log;
    }
    log := log + [Render(i)];
    var ex := Executed(s.cmd, env.goos, st.spawn);
    var err := s.Execute(env.goos, st.spawn);
    if err.Some? {
      assert Procs(sections) == before;
      return Ended(Fatal(err.value)), clock, log;
    }
    if ex.Running? {
      forall j | 0 <= j < |sections|
        ensures Procs(sections)[j] == before[i := Some(ex.pid)][j]
      {
        if j != i {
          assert sections[j] != sections[i];
        }
      }
      assert Procs(sections) == before[i := Some(ex.pid)];
      log := log + [Spawn(i, ex.pid)];
    } else {
      assert Procs(sections) == before;
    }
    status := Active;
  }

  /** One pass of main's select while section i runs with `clock`. */
  method HandleEvent(sections: seq<Section>, env: Env, i: nat, clock: Clocks.Clock, log0: seq<Action>, e: Event)
    returns (status: Status, log: seq<Action>)
    requires i < |sections| && clock.font == env.font
    modifies clock
    ensures var r := Step(Specs(sections), env, World(i, old(clock.State()), Procs(sections), Active, log0), e);
      status == r.status && log == r.log && clock.State() == r.clock && r.procs == Procs(sections) &&
      r.index == (if status.Between? then i + 1 else i)
  {
    log := log0;
    status := Active;
    match e
    case Input(ev, now) =>
      if ev.kind == EventKey && (ev.key == KeyEsc || ev.key == KeyCtrlC) {
        return Ended(Quit), log;
      }
      if ev.ch == 'p' || ev.ch == 'P' {
        clock.Pause();
        log := log + [Pause(i)];
      }
      if ev.ch == 'c' || ev.ch == 'C' {
        clock.Start(now);
        log := log + [Start(i)];
      }
      if ev.ch == 'n' || ev.ch == 'N' {
        return Between, log;
      }
      if ev.ch == 'q' || ev.ch == 'Q' {
        return Ended(Quit), log;
      }
    case Poll(now) =>
      var _ := clock.Check(now);
    case Expiry(killFails) =>
      if clock.signals > 0 {
        var err, killed := sections[i].Stop(killFails);
        if killed.Some? {
          log := log + [Kill(i, killed.value, err.None?)];
        }
        return Between, log;
      }
    case Frame(now, drawn) =>
      clock.Update(now);
      log := log + [Update(i)];
      if !drawn {
        return Ended(Fatal(DrawFailed)), log;
      }
      log := log + [Render(i)];
  }

  /**
   * The select loop of main for section i, from event k0 on: it ends when
   * the section does (Between), when the program does (Ended), or when the
   * events run out (Active).
   */
  method RunSection(sections: seq<Section>, env: Env, i: nat, clock: Clocks.Clock, log0: seq<Action>,
                    events: seq<Event>, k0: nat)
    returns (status: Status, log: seq<Action>, k: nat)
    requires i < |sections| && k0 <= |events| && clock.font == env.font
    modifies clock
    ensures k <= |events| && (status.Active? ==> k == |events|)
    ensures Replay(Specs(sections), env, World(i, old(clock.State()), Procs(sections), Active, log0), events[k0..]) ==
      Replay(Specs(sections), env, World(if status.Between? then i + 1 else i, clock.State(), Procs(sections), status, log), events[k..])
  {
    ghost var secs := Specs(sections);
    log, k := log0, k0;
    while k < |events|
      invariant k <= |events|
      invariant Replay(secs, env, World(i, old(clock.State()), Procs(sections), Active, log0), events[k0..]) ==
        Replay(secs, env, World(i, clock.State(), Procs(sections), Active, log), events[k..])
      decreases |events| - k
    {
      assert events[k..][1..] == events[k + 1..];
      status, log := HandleEvent(sections, env, i, clock, log, events[k]);
      k := k + 1;
      if !status.Active? {
        return;
      }
    }
    status := Active;
  }

  /**
   * The section loop of main.  Sections are distinct objects with no
   * process yet, as BuildSections makes them.
   */
  method RunSections(sections: seq<Section>, env: Env, events: seq<Event>) returns (status: Status, log: seq<Action>)
    requires forall i, j :: 0 <= i < j < |sections| ==> sections[i] != sections[j]
    requires forall i :: 0 <= i < |sections| ==> sections[i].process == None
    modifies set s | s in sections
    ensures var w := Replay(Specs(sections), env, Initial(|sections|), events);
      status == w.status && log == w.log && Procs(sections) == w.procs
  {
    ghost var secs := Specs(sections);
    ghost var whole := Replay(secs, env, Initial(|sections|), events);
    ghost var gclock := Idle;
    log := [];
    var k: nat := 0;
    assert Procs(sections) == Initial(|sections|).procs;
    for i := 0 to |sections|
      invariant |Procs(sections)| == |secs|
      invariant k <= |events| && Replay(secs, env, World(i, gclock, Procs(sections), Between, log), events[k..]) == whole
    {
      var clock;
      status, clock, log := StartSection(sections, env, i, gclock, log);
      if !status.Active? {
        return;
      }
      status, log, k := RunSection(sections, env, i, clock, log, events, k);
      if !status.Between? {
        return;
      }
      gclock := clock.State();
    }
    return Ended(Exhausted), log;
  }

  /** The whole program on a configuration and a trace. */
  method RunSchedule(cfg: Ini, parse: string -> Option<int>, env: Env, events: seq<Event>) returns (status: Status, log: seq<Action>)
    ensures status == Schedule(cfg, parse, env, events).status
    ensures log == Schedule(cfg, parse, env, events).log
  {
    var names := Fields(Key(cfg, "", "schedule"));
    if |names| == 0 {
      return Ended(NoSchedule), [];
    }
    var r := BuildSections(names, cfg, parse);
    if r.Err? {
      return Ended(Fatal(r.error)), [];
    }
    status, log := RunSections(r.value, env, events);
  }
}
