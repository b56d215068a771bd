/** A model of the Portenta X8 reset manager for the STM32H7 co-processor
    (x8h7_reset.c). The driver owns two logical output lines, NRST and BOOT0.
    It drives them into "kept in reset" or "not reset", reports the pair
    read back as one of three modes, runs a timed reset sequence when the
    device is probed, and forces the co-processor into reset on removal.

    Levels are logical values as the gpiod_* calls see them (polarity is
    applied below this layer). A level is an int because gpiod_get_value may
    also return a negative error code. Every write to a line is recorded in a
    ghost trace, so the order of the writes can be stated. */
module X8h7Reset {

  // Modes reported by the attribute (x8h7_reset.c:24-26).
  const KEPT_RESET: int := 0
  const NOT_RESET: int := 1
  const INVALID: int := 2

  // Linux error numbers; the driver returns their negation.
  const ENOMEM: int := 12
  const EINVAL: int := 22

  // Bounds of the settle delay of the probe sequence, in microseconds.
  const SETTLE_MIN_US: nat := 50000
  const SETTLE_MAX_US: nat := 51000

  /** A negative kernel error code. */
  type Errno = e: int | e < 0 witness -22

  /** The logical levels of the two lines. */
  datatype LinePair = LinePair(nrst: int, boot0: int)

  /** What the driver does to the lines, in the order it does it. */
  datatype Event =
    | AcquireNrst(level: int)    // devm_gpiod_get(dev, "nrst", GPIOD_OUT_HIGH)
    | AcquireBoot0(level: int)   // devm_gpiod_get(dev, "boot0", GPIOD_OUT_HIGH)
    | SetNrst(level: int)        // gpiod_set_value(nrst_gpio_desc, level)
    | SetBoot0(level: int)       // gpiod_set_value(boot0_gpio_desc, level)
    | Sleep(minUs: nat, maxUs: nat)  // usleep_range(minUs, maxUs)

  /** Outcome of a kernel call that succeeds or yields a negative error
      code: devm_gpiod_get (through IS_ERR/PTR_ERR) and sysfs_create_group. */
  datatype Status = Ok | Fail(code: Errno)

  /** Outcome of kstrtol(buf, 10, &value): an error code or the number. */
  datatype Parse = ParseError(code: Errno) | Parsed(value: int)

  /** What the store handler decides before touching any line. */
  datatype StoreResult = Rejected(err: Errno) | Accepted(reset: bool)

  /** What the probe does: its return value, the line events it causes, and
      whether it installs the descriptors as the device's driver data. */
  datatype ProbeResult = ProbeResult(ret: int, events: seq<Event>, bound: bool)

  // ---------------------------------------------------------------------
  // Lines and their history

  /** The effect of one event on the lines. */
  function Step(s: LinePair, e: Event): LinePair
  {
    match e
    case AcquireNrst(v) => s.(nrst := v)
    case SetNrst(v) => s.(nrst := v)
    case AcquireBoot0(v) => s.(boot0 := v)
    case SetBoot0(v) => s.(boot0 := v)
    case Sleep(_, _) => s
  }

  /** The lines after the events of t, starting from s. */
  function Replay(t: seq<Event>, s: LinePair): LinePair
    decreases |t|
  {
    if t == [] then s else Replay(t[1..], Step(s, t[0]))
  }

  /** Replaying a concatenation replays its parts one after the other. */
  lemma {:induction false} ReplayAppend(t1: seq<Event>, t2: seq<Event>, s: LinePair)
    ensures Replay(t1 + t2, s) == Replay(t2, Replay(t1, s))
    decreases |t1|
  {
    if t1 == [] {
      assert t1 + t2 == t2;
    } else {
      assert (t1 + t2)[1..] == t1[1..] + t2;
      ReplayAppend(t1[1..], t2, Step(s, t1[0]));
    }
  }

  // ---------------------------------------------------------------------
  // The two requestable modes (x8h7_reset_state)

  /** The levels that x8h7_reset_state drives: kept in reset is nrst=0,
      boot0=1; not reset is nrst=1, boot0=0. */
  function LinesFor(reset: bool): LinePair
  {
    if reset then LinePair(0, 1) else LinePair(1, 0)
  }

  /** The writes of x8h7_reset_state: NRST first, then BOOT0. */
  function ResetWrites(reset: bool): (w: seq<Event>)
    ensures |w| == 2 && w[0].SetNrst? && w[1].SetBoot0?
  {
    var p := LinesFor(reset);
    [SetNrst(p.nrst), SetBoot0(p.boot0)]
  }

  /** The reset writes leave the lines in the requested mode whatever they
      were before. */
  lemma ResetWritesDetermineLines(reset: bool, s: LinePair)
    ensures Replay(ResetWrites(reset), s) == LinesFor(reset)
  {
    var w := ResetWrites(reset);
    assert w == [w[0]] + [w[1]];
    ReplayAppend([w[0]], [w[1]], s);
  }

  /** A second identical request changes nothing. */
  lemma ResetWritesIdempotent(reset: bool, s: LinePair)
    ensures Replay(ResetWrites(reset) + ResetWrites(reset), s) == Replay(ResetWrites(reset), s)
  {
    ReplayAppend(ResetWrites(reset), ResetWrites(reset), s);
    ResetWritesDetermineLines(reset, s);
    ResetWritesDetermineLines(reset, LinesFor(reset));
  }

  // ---------------------------------------------------------------------
  // Classification and rendering of the read-back (x8h7_reset_show)

  /** The mode reported for the two values read back. */
  function Classify(p: LinePair): (mode: int)
    ensures mode == KEPT_RESET || mode == NOT_RESET || mode == INVALID
  {
    if p.nrst == 0 && p.boot0 == 1 then KEPT_RESET
    else if p.nrst == 1 && p.boot0 == 0 then NOT_RESET
    else INVALID
  }

  /** Exactly the pair driven for a reset request reads back as kept in
      reset, exactly the pair driven for a release reads back as not reset,
      and every other pair (including (0,0), (1,1) and error codes) reads
      back as invalid. */
  lemma ClassifyInvertsLinesFor(p: LinePair)
    ensures Classify(p) == KEPT_RESET <==> p == LinesFor(true)
    ensures Classify(p) == NOT_RESET <==> p == LinesFor(false)
    ensures Classify(p) == INVALID <==> p != LinesFor(true) && p != LinesFor(false)
  {
  }

  /** A request, whatever the lines were, reads back as the requested mode. */
  lemma ResetThenClassify(reset: bool, s: LinePair)
    ensures Classify(Replay(ResetWrites(reset), s)) == (if reset then KEPT_RESET else NOT_RESET)
  {
    ResetWritesDetermineLines(reset, s);
  }

  /** The text sysfs_emit(buf, "%d\n", mode) produces for a one-digit mode. */
  function ModeText(mode: int): (text: string)
    requires 0 <= mode <= 9
    ensures |text| == 2 && text[1] == '\n'
    ensures text[0] as int - '0' as int == mode
  {
    [('0' as int + mode) as char, '\n']
  }

  // ---------------------------------------------------------------------
  // Validation of a write request (x8h7_reset_store)

  /** The decision of the store handler. `ready` says that the driver data
      and both descriptors are present. */
  function StoreDecision(ready: bool, parsed: Parse): (r: StoreResult)
    ensures r.Accepted? <==> ready && parsed.Parsed? && (parsed.value == KEPT_RESET || parsed.value == NOT_RESET)
    ensures r.Accepted? ==> Classify(LinesFor(r.reset)) == parsed.value
    ensures r.Rejected? && ready && parsed.ParseError? ==> r.err == parsed.code
    ensures r.Rejected? && !(ready && parsed.ParseError?) ==> r.err == -EINVAL
  {
    if !ready then Rejected(-EINVAL)
    else match parsed
      case ParseError(code) => Rejected(code)
      case Parsed(value) =>
        if value == KEPT_RESET then Accepted(true)
        else if value == NOT_RESET then Accepted(false)
        else Rejected(-EINVAL)
  }

  /** The written value is what a following read reports, as text. */
  lemma StoreThenShowText(ready: bool, parsed: Parse)
    requires StoreDecision(ready, parsed).Accepted?
    ensures ModeText(Classify(LinesFor(StoreDecision(ready, parsed).reset))) == ModeText(parsed.value)
    ensures parsed.value == 0 ==> ModeText(Classify(LinesFor(StoreDecision(ready, parsed).reset))) == "0\n"
    ensures parsed.value == 1 ==> ModeText(Classify(LinesFor(StoreDecision(ready, parsed).reset))) == "1\n"
  {
  }

  // ---------------------------------------------------------------------
  // Probe and remove

  /** The probe (x8h7_rst_probe): allocate the driver data, acquire both
      lines at logical 1, run reset / settle / release, install the driver
      data, then create the attribute group. */
  function ProbeSpec(allocOk: bool, nrstGet: Status, boot0Get: Status, sysfs: Status): (r: ProbeResult)
    ensures r.bound <==> allocOk && nrstGet.Ok? && boot0Get.Ok?
    ensures r.ret == 0 <==> r.bound && sysfs.Ok?
    ensures r.ret <= 0
    ensures !allocOk ==> r.ret == -ENOMEM && r.events == []
    ensures allocOk && nrstGet.Fail? ==> r.ret == nrstGet.code && r.events == []
    ensures allocOk && nrstGet.Ok? && boot0Get.Fail? ==> r.ret == boot0Get.code && r.events == [AcquireNrst(1)]
    ensures r.bound && sysfs.Fail? ==> r.ret == sysfs.code
  {
    if !allocOk then ProbeResult(-ENOMEM, [], false)
    else if nrstGet.Fail? then ProbeResult(nrstGet.code, [], false)
    else if boot0Get.Fail? then ProbeResult(boot0Get.code, [AcquireNrst(1)], false)
    else
      var events := [AcquireNrst(1), AcquireBoot0(1)] + ResetWrites(true)
                    + [Sleep(SETTLE_MIN_US, SETTLE_MAX_US)] + ResetWrites(false);
      ProbeResult(if sysfs.Fail? then sysfs.code else 0, events, true)
  }

  /** A probe that fails before the reset sequence never writes a reset
      level and never sleeps. */
  lemma ProbeFailureWritesNoReset(allocOk: bool, nrstGet: Status, boot0Get: Status, sysfs: Status)
    requires !ProbeSpec(allocOk, nrstGet, boot0Get, sysfs).bound
    ensures var r := ProbeSpec(allocOk, nrstGet, boot0Get, sysfs);
      r.ret < 0 && forall i :: 0 <= i < |r.events| ==> r.events[i].AcquireNrst?
  {
  }

  /** Once both lines are acquired, the probe ends in mode 1 (not reset)
      whatever the lines were and whether or not the attribute group could
      be created. */
  lemma {:induction false} ProbeEndsNotReset(allocOk: bool, nrstGet: Status, boot0Get: Status, sysfs: Status, s: LinePair)
    requires ProbeSpec(allocOk, nrstGet, boot0Get, sysfs).bound
    ensures Replay(ProbeSpec(allocOk, nrstGet, boot0Get, sysfs).events, s) == LinesFor(false)
    ensures Classify(Replay(ProbeSpec(allocOk, nrstGet, boot0Get, sysfs).events, s)) == NOT_RESET
  {
    var events := ProbeSpec(allocOk, nrstGet, boot0Get, sysfs).events;
    var head := [AcquireNrst(1), AcquireBoot0(1)] + ResetWrites(true) + [Sleep(SETTLE_MIN_US, SETTLE_MAX_US)];
    assert events == head + ResetWrites(false);
    ReplayAppend(head, ResetWrites(false), s);
    ResetWritesDetermineLines(false, Replay(head, s));
  }

  /** The probe first acquires both lines at logical 1 (an invalid pair),
      then drives nrst:=0 and boot0:=1 in that order, sleeps for 50000 to
      51000 microseconds with the lines held in reset, then drives nrst:=1
      and boot0:=0 in that order. */
  lemma {:induction false} ProbeSequenceOrder(allocOk: bool, nrstGet: Status, boot0Get: Status, sysfs: Status, s: LinePair)
    requires ProbeSpec(allocOk, nrstGet, boot0Get, sysfs).bound
    ensures var t := ProbeSpec(allocOk, nrstGet, boot0Get, sysfs).events;
      && t == [AcquireNrst(1), AcquireBoot0(1), SetNrst(0), SetBoot0(1),
               Sleep(SETTLE_MIN_US, SETTLE_MAX_US), SetNrst(1), SetBoot0(0)]
      && Classify(Replay(t[..2], s)) == INVALID
      && Replay(t[..4], s) == LinesFor(true)
      && t[4].minUs >= 50000 && t[4].maxUs <= 51000
  {
    var t := ProbeSpec(allocOk, nrstGet, boot0Get, sysfs).events;
    var acquire := [AcquireNrst(1), AcquireBoot0(1)];
    assert t[..2] == acquire;
    assert t[..4] == acquire + ResetWrites(true);
    ReplayAppend(acquire, ResetWrites(true), s);
    ResetWritesDetermineLines(true, Replay(acquire, s));
    assert acquire == [AcquireNrst(1)] + [AcquireBoot0(1)];
    ReplayAppend([AcquireNrst(1)], [AcquireBoot0(1)], s);
  }

  /** The writes of the remove handler (x8h7_rst_remove): nrst:=0 when its
      descriptor is present, then boot0:=1 when its descriptor is present. */
  function RemoveWrites(hasNrst: bool, hasBoot0: bool): (w: seq<Event>)
    ensures |w| == (if hasNrst then 1 else 0) + (if hasBoot0 then 1 else 0)
    ensures hasNrst ==> w[0] == SetNrst(0)
    ensures hasBoot0 ==> w[|w| - 1] == SetBoot0(1)
  {
    (if hasNrst then [SetNrst(0)] else []) + (if hasBoot0 then [SetBoot0(1)] else [])
  }

  /** Remove changes exactly the lines whose descriptors are present, and
      with both present it leaves mode 0 (kept in reset) whatever came
      before. */
  lemma RemoveEffect(hasNrst: bool, hasBoot0: bool, s: LinePair)
    ensures Replay(RemoveWrites(hasNrst, hasBoot0), s) ==
      LinePair(if hasNrst then 0 else s.nrst, if hasBoot0 then 1 else s.boot0)
    ensures hasNrst && hasBoot0 ==> Classify(Replay(RemoveWrites(hasNrst, hasBoot0), s)) == KEPT_RESET
  {
    var a := if hasNrst then [SetNrst(0)] else [];
    var b := if hasBoot0 then [SetBoot0(1)] else [];
    ReplayAppend(a, b, s);
  }

  // ---------------------------------------------------------------------
  // The driver state

  /** The state the handlers see: whether the driver data and each of its
      descriptors are present, the two line levels, and the history of
      writes since `start`. */
  class ResetController {
    var hasData: bool    // dev_get_drvdata(dev) != NULL
    var hasNrst: bool    // data->nrst_gpio_desc != NULL
    var hasBoot0: bool   // data->boot0_gpio_desc != NULL
    var nrst: int
    var boot0: int
    ghost var trace: seq<Event>
    ghost const start: LinePair

    /** The levels are those the recorded writes produce. */
    ghost predicate Valid()
      reads this
    {
      Replay(trace, start) == Lines()
    }

    function Lines(): LinePair
      reads this
    {
      LinePair(nrst, boot0)
    }

    /** The guard shared by the handlers (x8h7_reset.c:46, 70, 101). */
    predicate Ready()
      reads this
    {
      hasData && hasNrst && hasBoot0
    }

    /** Any state the device can be found in; the lines may hold any value,
        as when something other than this driver has driven them. */
    constructor (hasData: bool, hasNrst: bool, hasBoot0: bool, nrst: int, boot0: int)
      ensures Valid() && trace == []
      ensures this.hasData == hasData && this.hasNrst == hasNrst && this.hasBoot0 == hasBoot0
      ensures this.nrst == nrst && this.boot0 == boot0
    {
      this.hasData, this.hasNrst, this.hasBoot0 := hasData, hasNrst, hasBoot0;
      this.nrst, this.boot0 := nrst, boot0;
      start := LinePair(nrst, boot0);
      trace := [];
    }

    /** Records event e and applies it to the lines. */
    method Apply(e: Event)
      requires Valid()
      modifies this
      ensures Valid()
      ensures Lines() == Step(old(Lines()), e) && trace == old(trace) + [e]
      ensures hasData == old(hasData) && hasNrst == old(hasNrst) && hasBoot0 == old(hasBoot0)
    {
      ReplayAppend(trace, [e], start);
      match e {
        case AcquireNrst(v) => nrst := v;
        case SetNrst(v) => nrst := v;
        case AcquireBoot0(v) => boot0 := v;
        case SetBoot0(v) => boot0 := v;
        case Sleep(_, _) =>
      }
      trace := trace + [e];
    }

    /** x8h7_reset_state: nothing without driver data and both
        descriptors; otherwise the two writes of the requested mode. */
    method ResetState(reset: bool)
      requires Valid()
      modifies this
      ensures Valid()
      ensures hasData == old(hasData) && hasNrst == old(hasNrst) && hasBoot0 == old(hasBoot0)
      ensures old(Ready()) ==> Lines() == LinesFor(reset) && trace == old(trace) + ResetWrites(reset)
      ensures !old(Ready()) ==> Lines() == old(Lines()) && trace == old(trace)
    {
      if !hasData || !hasNrst || !hasBoot0 {
        return;
      }
      if reset {
        Apply(SetNrst(0));
        Apply(SetBoot0(1));
      } else {
        Apply(SetNrst(1));
        Apply(SetBoot0(0));
      }
    }

    /** x8h7_reset_show: -EINVAL without driver data or a descriptor;
        otherwise the text of the mode the two levels read back as, and its
        length. Changes nothing. */
    method Show() returns (ret: int, buf: string)
      ensures !Ready() ==> ret == -EINVAL && buf == ""
      ensures Ready() ==> buf == ModeText(Classify(Lines())) && ret == |buf| == 2
    {
      if !hasData || !hasNrst || !hasBoot0 {
        return -EINVAL, "";
      }
      var nrstValue := nrst;
      var boot0Value := boot0;
      var reportedMode;
      if nrstValue == 0 && boot0Value == 1 {
        reportedMode := KEPT_RESET;
      } else if nrstValue == 1 && boot0Value == 0 {
        reportedMode := NOT_RESET;
      } else {
        reportedMode := INVALID;
      }
      buf := ModeText(reportedMode);
      ret := |buf|;
    }

    /** x8h7_reset_store: the guard, then the parser's outcome, then the
        value. A rejected request writes nothing; an accepted one performs
        the writes of its mode and returns the byte count. */
    method Store(parsed: Parse, count: nat) returns (ret: int)
      requires Valid()
      modifies this
      ensures Valid()
      ensures hasData == old(hasData) && hasNrst == old(hasNrst) && hasBoot0 == old(hasBoot0)
      ensures var d := StoreDecision(old(Ready()), parsed);
        && (d.Rejected? ==> ret == d.err && Lines() == old(Lines()) && trace == old(trace))
        && (d.Accepted? ==> ret == count && Lines() == LinesFor(d.reset)
                             && trace == old(trace) + ResetWrites(d.reset))
    {
      if !hasData || !hasNrst || !hasBoot0 {
        return -EINVAL;
      }
      match parsed
      case ParseError(code) =>
        return code;
      case Parsed(value) =>
        if value == KEPT_RESET {
          ResetState(true);
        } else if value == NOT_RESET {
          ResetState(false);
        } else {
          return -EINVAL;
        }
      ret := count;
    }

    /** x8h7_rst_probe, from allocation to the creation of the attribute
        group, with the outcomes of the kernel calls as inputs. */
    method Probe(allocOk: bool, nrstGet: Status, boot0Get: Status, sysfs: Status) returns (ret: int)
      requires Valid()
      modifies this
      ensures Valid()
      ensures var p := ProbeSpec(allocOk, nrstGet, boot0Get, sysfs);
        && ret == p.ret
        && trace == old(trace) + p.events
        && Lines() == Replay(p.events, old(Lines()))
        && (p.bound ==> Ready())
        && (!p.bound ==> hasData == old(hasData) && hasNrst == old(hasNrst) && hasBoot0 == old(hasBoot0))
    {
      ghost var before := trace;
      if !allocOk {
        return -ENOMEM;
      }
      if nrstGet.Fail? {
        return nrstGet.code;
      }
      Apply(AcquireNrst(1));
      if boot0Get.Fail? {
        ReplayAppend(before, [AcquireNrst(1)], start);
        return boot0Get.code;
      }
      Apply(AcquireBoot0(1));
      Apply(SetNrst(0));
      Apply(SetBoot0(1));
      Apply(Sleep(SETTLE_MIN_US, SETTLE_MAX_US));
      Apply(SetNrst(1));
      Apply(SetBoot0(0));
      hasData, hasNrst, hasBoot0 := true, true, true;
      ghost var events := ProbeSpec(allocOk, nrstGet, boot0Get, sysfs).events;
      assert trace == before + events;
      ReplayAppend(before, events, start);
      if sysfs.Fail? {
        return sysfs.code;
      }
      ret := 0;
    }

    /** x8h7_rst_remove: write each line whose descriptor is present into
        its reset level. The driver data must be present. */
    method Remove() returns (ret: int)
      requires Valid() && hasData
      modifies this
      ensures Valid() && ret == 0
      ensures hasData == old(hasData) && hasNrst == old(hasNrst) && hasBoot0 == old(hasBoot0)
      ensures trace == old(trace) + RemoveWrites(hasNrst, hasBoot0)
      ensures Lines() == Replay(RemoveWrites(hasNrst, hasBoot0), old(Lines()))
    {
      ghost var before := trace;
      if hasNrst {
        Apply(SetNrst(0));
      }
      if hasBoot0 {
        Apply(SetBoot0(1));
      }
      assert trace == before + RemoveWrites(hasNrst, hasBoot0);
      ReplayAppend(before, RemoveWrites(hasNrst, hasBoot0), start);
      ret := 0;
    }
  }

  /** A write request followed by a read: an accepted value reads back as
      its own text; a rejected one leaves the read-back as it was. */
  method StoreThenShow(c: ResetController, parsed: Parse, count: nat) returns (ret: int, buf: string)
    requires c.Valid()
    modifies c
    ensures var d := StoreDecision(old(c.Ready()), parsed);
      && (d.Accepted? ==> ret == count && buf == ModeText(parsed.value))
      && (d.Rejected? ==> ret == d.err && c.Lines() == old(c.Lines()))
      && (d.Rejected? && old(c.Ready()) ==> buf == ModeText(Classify(old(c.Lines()))))
      && (!old(c.Ready()) ==> buf == "")
  {
    ret := c.Store(parsed, count);
    var _, text := c.Show();
    buf := text;
  }

  /** A successful attach followed by detach: whatever the lines were, the
      device ends held in reset, after the probe sequence and then nrst:=0,
      boot0:=1. (A failed probe unbinds the device, so remove only follows a
      probe that returned 0.) */
  method ProbeThenRemove(c: ResetController)
    requires c.Valid()
    modifies c
    ensures c.Lines() == LinesFor(true) && Classify(c.Lines()) == KEPT_RESET
    ensures c.trace == old(c.trace) + ProbeSpec(true, Ok, Ok, Ok).events + [SetNrst(0), SetBoot0(1)]
  {
    var ret := c.Probe(true, Ok, Ok, Ok);
    assert ret == 0;
    ghost var probed := c.Lines();
    var _ := c.Remove();
    RemoveEffect(true, true, probed);
  }
}
