/**
 * A Section: a titled interval with its duration, an optional shell command,
 * and the handle of the process that command runs in once started.  Spawning
 * and killing processes are outside the model: their results come in as
 * parameters.
 */
module Sections {
  import opened Wrappers
  import opened Glyphs
  import Clocks

  /** An os.Process handle. */
  type Pid = nat

  /** What cmd.Start reports: the new process, or a failure. */
  datatype SpawnOutcome = Spawned(pid: Pid) | SpawnFailed

  /**
   * The command line execute hands to exec.Command: `cmd /C` on windows,
   * `sh -c` on linux; nothing for an empty command or another system.
   */
  function CommandLine(cmd: string, goos: string): (argv: Option<seq<string>>)
    ensures argv.None? <==> cmd == [] || (goos != "windows" && goos != "linux")
    ensures argv.Some? && goos == "windows" ==> argv.value == ["cmd", "/C", cmd]
    ensures argv.Some? && goos == "linux" ==> argv.value == ["sh", "-c", cmd]
  {
    if |cmd| == 0 then None
    else if goos == "windows" then Some(["cmd", "/C", cmd])
    else if goos == "linux" then Some(["sh", "-c", cmd])
    else None
  }

  /** What one call of execute does: start nothing, fail to start `argv`, or start a process. */
  datatype Execution = Nothing | Failed(argv: seq<string>) | Running(pid: Pid)

  /** execute: a spawn is attempted only for a command line, and only a successful one yields a process. */
  function Executed(cmd: string, goos: string, spawn: SpawnOutcome): (l: Execution)
    ensures l.Nothing? <==> CommandLine(cmd, goos).None?
    ensures l.Failed? <==> CommandLine(cmd, goos).Some? && spawn.SpawnFailed?
    ensures l.Failed? ==> l.argv == CommandLine(cmd, goos).value
    ensures l.Running? ==> spawn == Spawned(l.pid)
  {
    match CommandLine(cmd, goos)
    case None => Nothing
    case Some(argv) =>
      match spawn
      case SpawnFailed => Failed(argv)
      case Spawned(pid) => Running(pid)
  }

  /** The values a Section is built from. */
  datatype SectionSpec = SectionSpec(title: string, duration: int, cmd: string)

  /**
   * The part of newSection that can fail: the time text must parse as a
   * duration (`parse` stands for time.ParseDuration).
   */
  function ParseSection(title: string, timeText: string, cmd: string, parse: string -> Option<int>): (r: Result<SectionSpec>)
    ensures r.Err? <==> parse(timeText).None?
    ensures r.Err? ==> r.error == BadDuration(timeText)
    ensures r.Ok? ==> r.value.title == title && r.value.cmd == cmd && Some(r.value.duration) == parse(timeText)
  {
    match parse(timeText)
    case None => Err(BadDuration(timeText))
    case Some(d) => Ok(SectionSpec(title, d, cmd))
  }

  class Section {
    const title: string
    const duration: int
    const cmd: string
    var process: Option<Pid>

    constructor (title: string, duration: int, cmd: string)
      ensures this.title == title && this.duration == duration && this.cmd == cmd
      ensures process == None
    {
      this.title := title;
      this.duration := duration;
      this.cmd := cmd;
      process := None;
    }

    function Spec(): (spec: SectionSpec)
    {
      SectionSpec(title, duration, cmd)
    }

    /**
     * createClock: fails when the title has no glyphs; otherwise a fresh
     * clock for the section's duration, created at `now`, with its check started.
     */
    method CreateClock(font: Font, now: int) returns (r: Result<Clocks.Clock>)
      ensures r.Err? <==> !font.covers(title)
      ensures r.Err? ==> r.error == NoFont(title)
      ensures r.Ok? ==> fresh(r.value) && r.value.title == Typeset(font, title) && r.value.font == font
      ensures r.Ok? ==> r.value.State() == Clocks.Checking(Clocks.Created(font, duration, now))
    {
      var title := NewText(font, this.title);
      if title.Err? {
        return Err(title.error);
      }
      var clock := new Clocks.Clock(title.value, font, duration, now);
      clock.Run();
      return Ok(clock);
    }

    /**
     * execute: starts the command, if there is one and the system is
     * supported, and records the process only when the start succeeds;
     * `spawn` is what starting it reports.
     */
    method Execute(goos: string, spawn: SpawnOutcome) returns (err: Option<Error>)
      modifies this
      ensures Executed(cmd, goos, spawn).Nothing? ==> err == None && process == old(process)
      ensures Executed(cmd, goos, spawn).Failed? ==>
        err == Some(ExecFailed(Executed(cmd, goos, spawn).argv)) && process == old(process)
      ensures Executed(cmd, goos, spawn).Running? ==>
        err == None && process == Some(Executed(cmd, goos, spawn).pid)
    {
      if |cmd| == 0 {
        return None;
      }
      var argv: seq<string>;
      if goos == "windows" {
        argv := ["cmd", "/C", cmd];
      } else if goos == "linux" {
        argv := ["sh", "-c", cmd];
      } else {
        return None;
      }
      match spawn
      case SpawnFailed =>
        return Some(ExecFailed(argv));
      case Spawned(pid) =>
        process := Some(pid);
        return None;
    }

    /**
     * stop: kills the recorded process, if any, and reports what the kill
     * reports (`killFails`); the handle stays recorded, so a second stop
     * kills it again.
     */
    method Stop(killFails: bool) returns (err: Option<Error>, killed: Option<Pid>)
      ensures killed == process
      ensures err.Some? <==> process.Some? && killFails
      ensures err.Some? ==> err.value == KillFailed
    {
      if process.Some? {
        killed := process;
        err := if killFails then Some(KillFailed) else None;
        return;
      }
      return None, None;
    }
  }

  /** newSection: an error for a time text that does not parse; otherwise a section with no process. */
  method NewSection(title: string, timeText: string, cmd: string, parse: string -> Option<int>)
    returns (r: Result<Section>)
    ensures r.Err? <==> ParseSection(title, timeText, cmd, parse).Err?
    ensures r.Err? ==> r.error == ParseSection(title, timeText, cmd, parse).error
    ensures r.Ok? ==> fresh(r.value) && r.value.process == None
    ensures r.Ok? ==> r.value.Spec() == ParseSection(title, timeText, cmd, parse).value
  {
    match parse(timeText)
    case None =>
      return Err(BadDuration(timeText));
    case Some(duration) =>
      var s := new Section(title, duration, cmd);
      return Ok(s);
  }
}
