# X8H7 reset controller — a Dafny model

This project models the reset manager that the Portenta X8 kernel driver
`x8h7_reset.c` provides for its STM32H7 co-processor. The driver owns two
logical GPIO output lines, `nrst` and `boot0`. It can drive them into one of
two requestable modes:

- kept in reset: `nrst=0, boot0=1`;
- not reset: `nrst=1, boot0=0`.

It reads the pair back as a three-valued mode: 0 for kept in reset, 1 for not
reset, 2 for invalid. It accepts write requests of `0` or `1` through a sysfs
attribute. At probe time it runs a timed reset sequence: reset, sleep 50–51 ms,
release. At removal it puts the co-processor back into reset.

Everything is in `x8h7_reset.dfy`, module `X8h7Reset`:

- `ResetController` is a class for the state the handlers see. It has
  presence flags for the driver data and for each descriptor, and the two
  line levels as integers. A level is an `int` because `gpiod_get_value` can
  also return a negative error code.
- A ghost `trace` records every line event in order: acquisition at a level,
  `gpiod_set_value`, and `usleep_range` with its bounds. `Valid()` says the
  levels are what replaying the trace from the starting levels gives, so
  write order can be stated and checked.
- Each handler is a method whose `ensures` ties the new levels and the trace
  to a specification function: `ResetWrites`, `StoreDecision`, `ProbeSpec`,
  `RemoveWrites` or `Classify`. Lemmas prove what the driver promises about
  those functions.
- The results of kernel calls the driver depends on are inputs:
  - `kstrtol` gives a `Parse`: an error code or a number;
  - `devm_kzalloc` success is a `bool`;
  - `devm_gpiod_get` and `sysfs_create_group` give a `Status`: `Ok` or a
    negative code.

Facts about the code that shape the model:

- The code takes no lock between the read and write handlers, so every
  operation is modelled as atomic and sequential.
- Remove forces `nrst=0`, `boot0=1` on each present descriptor, leaving the
  co-processor kept in reset.
- Store passes the parser's own error code through unchanged. That code may
  be something other than `-EINVAL`, for example `-ERANGE`.
- The comments at lines 151 and 159 describe logical high as the inactive
  level, and the comments at lines 76 and 80 use that wording. The model
  states everything in the logical levels the `gpiod_*` calls take and return.

## Model

| member | source | states |
|---|---|---|
| `X8h7Reset.ResetWrites` | x8h7_reset.c:49-55 | the writes of a reset request are exactly two, an `nrst` write followed by a `boot0` write |
| `X8h7Reset.ResetWritesDetermineLines` | x8h7_reset.c:49-55 | after the writes for `reset`, the lines are `(0,1)` for reset and `(1,0)` for release, whatever they were before |
| `X8h7Reset.ResetWritesIdempotent` | x8h7_reset.c:49-55 | repeating the same request leaves the same lines as doing it once |
| `X8h7Reset.Classify` | x8h7_reset.c:76-86 | the reported mode is always one of 0, 1 and 2 (total, three-valued) |
| `X8h7Reset.ClassifyInvertsLinesFor` | x8h7_reset.c:76-86 | exactly `(0,1)` reads as 0 and exactly `(1,0)` reads as 1; every other pair, including `(0,0)`, `(1,1)` and negative read errors, reads as 2 |
| `X8h7Reset.ResetThenClassify` | x8h7_reset.c:49-55 | a reset request followed by a read reports 0, a release followed by a read reports 1, from any starting levels |
| `X8h7Reset.ModeText` | x8h7_reset.c:88 | the emitted text is the mode's decimal digit followed by a newline, two characters long |
| `X8h7Reset.StoreDecision` | x8h7_reset.c:101-116 | a request is accepted exactly when the data and both descriptors are present and the parsed value is 0 or 1; an accepted value is the mode its lines read back as; a parse failure is rejected with the parser's own code; every other rejection is `-EINVAL` |
| `X8h7Reset.StoreThenShowText` | x8h7_reset.c:109-118 | after an accepted store of 0 a read emits `"0\n"`, after an accepted store of 1 it emits `"1\n"` |
| `X8h7Reset.ProbeSpec` | x8h7_reset.c:146-190 | probe returns `-ENOMEM` on allocation failure and the acquisition's code on a descriptor failure, with no reset write; the driver data is installed exactly when both lines were acquired; it returns 0 exactly when the sysfs group was also created, and otherwise that call's negative code |
| `X8h7Reset.ProbeFailureWritesNoReset` | x8h7_reset.c:146-164 | a probe that fails before the reset sequence returns a negative code, drives no reset level and does not sleep |
| `X8h7Reset.ProbeEndsNotReset` | x8h7_reset.c:168-186 | once both lines are acquired the probe ends in mode 1 (not reset), from any starting levels, even when creating the sysfs group then fails |
| `X8h7Reset.ProbeSequenceOrder` | x8h7_reset.c:151-175 | the probe's events are, in order: acquire `nrst` at 1, acquire `boot0` at 1 (an invalid pair), `nrst:=0`, `boot0:=1`, a sleep of 50000–51000 µs with the lines held in reset, `nrst:=1`, `boot0:=0` |
| `X8h7Reset.RemoveWrites` | x8h7_reset.c:202-207 | remove writes `nrst:=0` exactly when that descriptor is present and `boot0:=1` exactly when that one is, `nrst` first |
| `X8h7Reset.RemoveEffect` | x8h7_reset.c:202-207 | remove changes exactly the lines whose descriptors are present; with both present the final mode is 0 whatever came before |
| `X8h7Reset.ResetController.constructor` | x8h7_reset.c:29-32 | sets up any combination of present data and descriptors and any line levels, with an empty write history |
| `X8h7Reset.ResetController.Apply` | x8h7_reset.c:168-175 | one line event (a `gpiod_set_value` write, the level an acquisition with `GPIOD_OUT_HIGH` sets, or a `usleep_range`) changes the lines by exactly one `Step`, is appended to the history, and leaves the presence flags unchanged |
| `X8h7Reset.ResetController.ResetState` | x8h7_reset.c:44-56 | without the data or a descriptor nothing is written; otherwise the lines become those of the requested mode, by the two writes in order; the presence flags do not change |
| `X8h7Reset.ResetController.Show` | x8h7_reset.c:62-89 | returns `-EINVAL` and no text when the data or a descriptor is absent; otherwise the text of the mode the current levels classify as, and its length; changes nothing |
| `X8h7Reset.ResetController.Store` | x8h7_reset.c:93-119 | a rejected request returns its error code and leaves the lines and the history unchanged; an accepted one performs the writes of its mode and returns the input byte count |
| `X8h7Reset.ResetController.Probe` | x8h7_reset.c:137-191 | returns the probe's code, appends exactly the probe's events to the history and leaves the lines their replay gives; the data and both descriptors become present exactly when both lines were acquired, and are otherwise unchanged |
| `X8h7Reset.ResetController.Remove` | x8h7_reset.c:194-211 | returns 0, appends the remove writes for the present descriptors and leaves the lines they produce |
| `X8h7Reset.StoreThenShow` | x8h7_reset.c:93-118 | a store followed by a read: an accepted value reads back as its own text; a rejected request leaves the levels, and so the text read back, as they were |
| `X8h7Reset.ProbeThenRemove` | x8h7_reset.c:194-207 | a successful probe followed by remove leaves the device in mode 0 whatever the lines were, after the probe sequence and then `nrst:=0`, `boot0:=1` |

## Left out

- The sysfs plumbing is not modelled: the attribute definition, the attribute array and group, and `sysfs_remove_group` (lines 122–134 and 200). Only the success or failure of `sysfs_create_group` is modelled, because the probe's return value depends on it.
- `kstrtol`'s parsing and `sysfs_emit`'s formatting are kernel library code. The parse outcome is an input. The emitted text is modelled only for a one-digit mode, as its digit followed by a newline.
- The range of C `long` is not modelled. `kstrtol` rejects out-of-range input itself, and the value is only compared with 0 and 1.
- GPIO descriptor lookup, device-tree binding and active-low polarity are not modelled. Levels are the logical values the `gpiod_*` calls work in.
- The release of devm-managed memory and descriptors is not modelled. After a probe fails past the `nrst` acquisition, the model keeps `nrst` at its acquired level 1. The driver core clearing the driver data after remove is not modelled either.
- Time is not modelled. `usleep_range` is a trace event that carries its bounds.
- Driver registration, the OF match table, the module macros and the `dev_info`/`dev_err` logging are not modelled.
- Concurrency is not modelled. The code holds no lock between show and store, and each handler is modelled as atomic and sequential.
- X8h7Reset.ResetController.Remove: requires the driver data to be present, because the source dereferences it at line 202 without a check.
- A read through `gpiod_get_value` is assumed to return the last level written. A value other than 0 or 1, such as a negative read error, can appear only in the starting levels given to the constructor; there is no separate fault input for a read. The round trip that `X8h7Reset.StoreThenShow` states depends on this assumption.
- When `sysfs_create_group` fails, the probe returns an error and the kernel unbinds the device: it clears the driver data, releases the descriptors, and never calls remove, so the handlers and remove cannot be reached afterwards. The model does not clear the presence flags in that case; it only records that the lines were left in mode 1.
