# pomodorgo countdown scheduler, modelled in Dafny

pomodorgo is a terminal pomodoro timer. A configuration file names a schedule of sections. Each section has a title, a duration and an optional shell command. The program runs the sections one after another:

- For each section it creates a countdown clock, draws it, and starts the section's command.
- It then waits for one of three things:
  - a key press: pause, continue, next section, or quit;
  - the clock's one-shot "done" signal, which stops the command and moves on;
  - the redraw tick, which updates the clock and draws it again.

This project models that core: the countdown `Clock` and its `hh:mm:ss` formatter (`clock.go`), the `Section` lifecycle (`section.go`), and main's schedule construction and labelled section loop (`main.go`).

Modules:

| module | file | what it holds |
|---|---|---|
| `Wrappers` | `wrappers.dfy` | `Option`, `Result`, and the program's error kinds |
| `GoTime` | `gotime.dfy` | Go's truncating `/` and `%`, and `Duration.Round` on nanosecond counts |
| `Format` | `format.dfy` | `%02d` and `durationToText` |
| `Glyphs` | `glyphs.dfy` | an abstract font: `newText` succeeds exactly when the font covers the string |
| `Clocks` | `clock.dfy` | each clock state change as a function on `ClockState`, and the class `Clock`, whose methods are proved to perform them in place |
| `Sections` | `section.dfy` | the class `Section` with its mutable `process` field |
| `Config` | `config.dfy` | `strings.Fields`, `strings.ToUpper`, key lookup, and the loop that builds the sections |
| `Scheduler` | `scheduler.dfy` | the section loop, as functions and as an imperative loop over `Section` and `Clock` objects proved equal to them |

Time is an integer count of nanoseconds. `time.Now` becomes a `now` parameter. The goroutine that polls the clock every second becomes the step method `Clock.Check(now)`.

The concurrent sources feeding main's `select` become one trace of `Event`s, in any order. Each event carries what the outside world reports, such as a failed redraw or a failed kill. The results of the following library calls are inputs:

- `time.ParseDuration`
- `exec.Cmd.Start`
- `Process.Kill`
- `runtime.GOOS`
- the redraw

The model follows the code as written, including these behaviours:

- **Resume continues from the last update.** `start` continues from the remaining time recorded by the last running `update`, not from the full interval (`Clocks.ResumeContinuesFromLastUpdate`).
- **Skip and quit stop nothing.** Pressing `n` moves to the next section without stopping the current section's command (`Scheduler.SkipDoesNotStop`). Quitting stops nothing either (`Scheduler.QuitEndsRun`).
- **These failures are fatal:**
  - a time that does not parse;
  - a title the font cannot set;
  - a failed redraw;
  - a command that fails to start.
- **A failed kill is only logged.**

## Model

| member | source | states |
|---|---|---|
| `GoTime.Quot` | clock.go:105-109 | the quotient is truncated toward zero: the remainder lies in [0, b) for a non-negative dividend and in (-b, 0] for a negative one |
| `GoTime.Rem` | clock.go:104 | the remainder has the sign of the dividend, is smaller than the divisor in magnitude, and differs from the dividend by a multiple of it |
| `GoTime.RoundToNearestSecond` | clock.go:104 | rounding to a second gives a whole number of seconds within half a second of d. For d >= 0, a remainder below half a second rounds down and half or more rounds up. For d < 0 the tie goes down. So halves go away from zero, and d >= 0 never rounds below zero |
| `GoTime.RoundIsOdd` | clock.go:104 | rounding -d gives the negation of rounding d |
| `Format.DecimalRoundTrip` | clock.go:113 | the decimal digits of n read back as n; one digit exactly when n < 10, at most two when n < 100 |
| `Format.Pad2Digits` | clock.go:113 | `%02d` of a natural number is all digits, reads back as the number, and has at least two digits (exactly two below 100) |
| `Format.SplitSeconds` | clock.go:105-109 | a whole number of seconds splits into h >= 0, m and s in 0..59, with 3600h + 60m + s equal to the seconds |
| `Format.ClockFaceMeaning` | clock.go:113 | with m, s < 60 the text is `hh:mm:ss` (at least two hour digits, two minute digits and two second digits) and shows exactly 3600h + 60m + s seconds |
| `Format.DurationToTextMeaning` | clock.go:103-116 | for d >= 0, `durationToText(d)` is a clock face whose hours, minutes and seconds, multiplied out, are d rounded to whole seconds; below 100 hours it is exactly eight characters, `HH:MM:SS` |
| `Format.NegativeDurationShowsSign` | clock.go:99-113 | negative durations are not clamped: 0.6 s past the deadline shows as `00:00:-1` |
| `Glyphs.NewText` | section.go:21-24 | creating a text succeeds exactly when the font covers the string; on failure the error names the string |
| `Clocks.Created` | clock.go:32-41 | a new clock has deadline now + D, is not frozen, has not signalled and is not yet checking; after its first update, duration = deadline - now and it shows `durationToText(D)` |
| `Clocks.Paused` | clock.go:84-86 | pause sets freeze and leaves deadline, duration, text and signal state as they were |
| `Clocks.PauseIdempotent` | clock.go:84-86 | pausing twice is pausing once |
| `Clocks.Started` | clock.go:88-91 | start sets deadline = now + the recorded duration and clears freeze, changing nothing else |
| `Clocks.Updated` | clock.go:93-101 | frozen: it shows the pause marker and keeps deadline and duration. Running: duration = deadline - now, unclamped, and it shows `durationToText(duration)`. The deadline and freeze never change |
| `Clocks.Checking` | clock.go:44-45 | run starts the background check and changes nothing else |
| `Clocks.Checked` | clock.go:47-53 | a check tick signals done exactly when the check is running, the clock is not frozen and now is strictly after the deadline. It signals at most once per tick and stops the check when it does; a tick that does not fire changes nothing |
| `Clocks.FrozenClockStandsStill` | clock.go:93-97 | a frozen clock keeps its deadline and duration, and never signals, through any sequence of updates, pauses and checks without a start |
| `Clocks.ResumeContinuesFromLastUpdate` | clock.go:88-100 | an update at t1, then a pause, any steps but start, then start at now gives deadline now + (old deadline - t1). It resumes from the time left at the last update, and resuming at t1 restores the deadline |
| `Clocks.ResumeDoesNotExpireAtOnce` | clock.go:47-53 | a clock started with time left does not signal at the instant it starts |
| `Clocks.SignalBudget` | clock.go:44-56 | across any steps, signals sent plus "still checking" never grows, and signals never decrease |
| `Clocks.FiresAtMostOnce` | clock.go:47-53 | from a clock that has not signalled, no sequence of pauses, starts, updates and checks makes it signal done more than once |
| `Clocks.Clock.constructor` | clock.go:32-41 | the new object holds the title and font, and its state is `Created` |
| `Clocks.Clock.Pause` | clock.go:84-86 | the new state is `Paused` of the old |
| `Clocks.Clock.Start` | clock.go:88-91 | the new state is `Started` of the old at now |
| `Clocks.Clock.Update` | clock.go:93-101 | the new state is `Updated` of the old at now |
| `Clocks.Clock.Run` | clock.go:44-56 | the new state is `Checking` of the old |
| `Clocks.Clock.Check` | clock.go:47-53 | the new state is `Checked` of the old at now, and `sent` is true exactly when a done signal was added |
| `Clocks.Clock.Width` | clock.go:58-63 | the width is the larger of the time text's and the title's widths |
| `Clocks.Clock.Height` | clock.go:65-67 | the height is the sum of the two heights |
| `Sections.CommandLine` | section.go:32-45 | no command line for an empty command or an OS other than windows and linux; otherwise `cmd /C cmd` on windows and `sh -c cmd` on linux |
| `Sections.Executed` | section.go:31-55 | nothing is spawned without a command line; a spawn failure is reported with the command line it tried; a process exists only after a successful spawn |
| `Sections.ParseSection` | section.go:64-71 | an error naming the time text exactly when it does not parse; otherwise the given title, the parsed duration and the command |
| `Sections.Section.constructor` | section.go:70 | a section holds its title, duration and command, and has no process |
| `Sections.Section.CreateClock` | section.go:20-29 | an error exactly when the font cannot set the title. Otherwise a fresh clock with the typeset title, whose state is created from the section's duration and then checking |
| `Sections.Section.Execute` | section.go:31-55 | an empty command or an unsupported OS returns no error and leaves process unchanged. A failed spawn returns `ExecFailed` with the command line and leaves process unchanged. A successful spawn records the new process |
| `Sections.Section.Stop` | section.go:57-62 | kills the recorded process if there is one and returns the kill's error; with no process it returns no error and kills nothing; process stays set |
| `Sections.NewSection` | section.go:64-71 | an error for an unparseable time and no section; otherwise a fresh section holding the title, the parsed duration and the command, with no process |
| `Config.Key` | main.go:150-151 | the value of a key, or the empty string when the section or key is missing |
| `Config.Fields` | main.go:142 | every field is non-empty and has no white space, and the fields joined are the text with its white space removed |
| `Config.FieldsOfJoined` | main.go:142 | the fields are the maximal runs of non-space characters: words without white space, written out with spaces between them, split back into exactly those words, so the schedule names one section per word |
| `Config.NoFieldsIffBlank` | main.go:142-146 | a schedule text has no fields exactly when it is all white space |
| `Config.Upper` | main.go:152 | same length, no lower-case ASCII letter left, and each character is kept or is its lower-case letter raised by 32 |
| `Config.SectionSpecs` | main.go:148-157 | the list succeeds exactly when every name's time parses. It then has one section per name, in schedule order, titled with the upper-cased name and holding that name's time and command |
| `Config.FirstBadTimeIsReported` | main.go:152-155 | the error is that of the first name whose time does not parse, whatever follows it |
| `Config.BuildSections` | main.go:148-157 | builds fresh, distinct sections with no process, equal to `SectionSpecs`, or fails with the same error |
| `Scheduler.SectionStartOrder` | main.go:177-189 | a section's start creates the clock, then renders, then executes. Each step happens only if the one before succeeded, each failure is fatal, and only a successful spawn records a process |
| `Scheduler.QuitEndsRun` | main.go:194-208 | Esc, Ctrl-C, q or Q end the program at once: later events are ignored, nothing is stopped and no later section starts |
| `Scheduler.PauseResumeStayInSection` | main.go:197-202 | p/P pauses and c/C starts the current clock, and the loop stays in the same section |
| `Scheduler.SkipDoesNotStop` | main.go:203-205 | n/N moves to the next section with nothing killed and the process still recorded |
| `Scheduler.ExpiryStopsThenAdvances` | main.go:209-214 | the done signal kills the current section's process, if any, then moves on. A failed kill changes only what is logged. Done is not ready before the check has signalled |
| `Scheduler.FrameKeepsSection` | main.go:215-220 | a redraw tick updates the clock and draws, never changing the section; a failed draw is fatal |
| `Scheduler.ReplayInOrder` | main.go:175-223 | the loop keeps this invariant: the sections started so far are 0, 1, 2, …, each once |
| `Scheduler.SectionsRunInOrder` | main.go:175-176 | for any configuration and trace, sections start in schedule order, each at most once. A run that ends by running out of sections has started every one |
| `Scheduler.EmptyScheduleExits` | main.go:142-146 | an all-white-space schedule ends the program before any section is built |
| `Scheduler.BadTimeIsFatal` | main.go:148-155 | a name whose time does not parse is fatal before any section starts, and the error names the first such time |
| `Scheduler.StartSection` | main.go:177-189 | the object steps of a section's start agree with `Enter`: same outcome, same log and same process fields, and a fresh clock in the state `Enter` gives |
| `Scheduler.HandleEvent` | main.go:192-221 | one select pass on the objects agrees with `Step` |
| `Scheduler.RunSection` | main.go:191-222 | the select loop on the objects agrees with `Replay` from where it starts to where it stops |
| `Scheduler.RunSections` | main.go:175-223 | the labelled loop over `Section` objects ends with the outcome, log and process fields that `Replay` gives |
| `Scheduler.RunSchedule` | main.go:142-223 | the whole program, from the configuration, ends with the outcome and log of `Schedule` |

## Left out

- window.go, `Window.render`, the centering arithmetic and `Clock.render`: drawing is out. A draw is one input saying whether it succeeded.
- `newText`, `Text` and the glyph tables are defined in a file that is not part of this model. A `Font` is abstract: widths and heights as naturals, and which strings it covers.
- The `pauseFont` initialisation and its fatal error, which happen before main: the pause marker is always available here.
- Goroutines, channels and `select`'s choice are replaced by an arbitrary event trace. The unsynchronised read of `freeze` by the check goroutine (a data race) is not modelled.
- Scheduler.Step: a done event that arrives before the check has signalled is not ready and passes as nothing. In Go the `select` would simply not pick it.
- The `time.Tick` created on every `select` pass, which is never released, is not modelled. Neither are the exact spacing of ticks and the one-second polling period: ticks are events.
- Clocks.Created: `newClock` reads the clock twice, once for the deadline and once in its first `update`. Both reads are the same instant `now` here.
- GoTime.Round does not saturate at the int64 extremes, and durations are unbounded integers.
- Config.Upper changes ASCII letters only. `strings.ToUpper`'s Unicode case mapping is out.
- `ini.Load`, the `-c` flag, and writing the sample configuration on a load failure are file I/O. A loaded configuration is a map from section name to its keys.
- `termbox.Init`, its failure, and the keyboard-reading goroutine are out.
- `time.ParseDuration`, `exec.Cmd.Start`, `Process.Kill` and `runtime.GOOS` are inputs, not models. So are the environment and standard streams given to the command.
- main.go declares its own copy of `Section`. Its `execute` always runs `sh -c`, and the command writes to the program's standard output. The model follows section.go's variant with the GOOS switch. On linux the two agree.
- GoTime.Round is a definition without a contract of its own; GoTime.RoundToNearestSecond and GoTime.RoundIsOdd state what it does.
- Format.Decimal is a definition without a contract of its own; Format.DecimalRoundTrip states what it does.
- Format.Pad2 is a definition without a contract of its own; Format.Pad2Digits and Format.NegativeDurationShowsSign state what it does.
- Format.DurationToText is a definition without a contract of its own; Format.DurationToTextMeaning and Format.NegativeDurationShowsSign state what it does.
- Scheduler.Schedule is a definition without a contract of its own; Scheduler.RunSchedule, Scheduler.SectionsRunInOrder, Scheduler.EmptyScheduleExits and Scheduler.BadTimeIsFatal state what it does.
- Scheduler.Enter, Scheduler.Step and Scheduler.Replay define the loop; their own contracts only keep the state well formed, and what they do is stated by the lemmas about them in the table.
- Error message texts (`errors.Wrap`, `log.Printf`) are not modelled; errors are kinds with the data they carry.
