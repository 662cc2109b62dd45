/** The globals of tty-clock and the C functions that update them in place. Each method is
    proved against the functions of `Geometry`, `TimeSample` and `Frame`, whose properties
    are proved there. Terminal size, keys, signals and the local time are parameters; the
    ncurses calls that only repaint (`clear`, `refresh`, `endwin`, `start`) are left out. */
module TtyClock {
  import opened Glyphs
  import opened Geometry
  import opened TimeSample
  import opened Frame

  /** One pass of the main loop as seen from outside: the key `getch` returns, the local
      time, the terminal size, and the signals that arrive while the pass runs (handled
      after its frame is drawn). */
  datatype Tick = Tick(key: int, now: Tm, maxw: int, maxh: int, sigs: seq<Signal>)

  /** A pass that ends the loop: 'q'/'Q' with the keyboard active, or SIGINT/SIGTERM. */
  predicate Quits(keylock: bool, t: Tick) {
    (keylock && CommandOf(t.key) == Quit) || SigInt in t.sigs || SigTerm in t.sigs
  }

  /** The number of passes the loop makes over `ticks`: up to and including the first that
      quits. */
  function Passes(keylock: bool, ticks: seq<Tick>): (n: nat)
    ensures n <= |ticks|
    ensures forall k :: 0 <= k < n - 1 ==> !Quits(keylock, ticks[k])
    ensures n < |ticks| ==> n > 0 && Quits(keylock, ticks[n - 1])
  {
    if ticks == [] then 0
    else if Quits(keylock, ticks[0]) then 1
    else 1 + Passes(keylock, ticks[1..])
  }

  class Clock {
    var option: Options
    var geo: Geo
    var running: bool
    var sdate: SDate
    var meridiem: string

    /** The interactive state as a value. */
    function St(): State
      reads this
    {
      State(option, geo, running)
    }

    /** The digits held in `sdate` can be drawn. */
    predicate Valid()
      reads this
    {
      Drawable(sdate)
    }

    /** The initial values of the globals (`meridiem` is only read after the first
        `get_time`; it starts empty here). */
    constructor ()
      ensures St() == Init && sdate == Zero && meridiem == "" && Valid()
    {
      option := Options(false, false, true, false);
      geo := Geo(1, 1, NarrowWidth, FrameHeight);
      running := true;
      sdate := Zero;
      meridiem := "";
    }

    /** `set_center`. */
    method SetCenter(maxw: int, maxh: int)
      modifies this`geo, this`option
      ensures St() == Geometry.SetCenter(old(St()), maxw, maxh)
    {
      if !option.center {
        geo := geo.(y := Half(maxw) - Half(geo.width));
        geo := geo.(x := Half(maxh) - Half(geo.height));
        option := option.(center := true);
      } else {
        option := option.(center := !option.center);
      }
    }

    /** `check_key(keylock)` with `key` the code `getch` returned. */
    method CheckKey(keylock: bool, key: int, maxw: int, maxh: int)
      modifies this`geo, this`option, this`running
      ensures St() == KeyStep(old(St()), keylock, key, maxw, maxh)
    {
      if !keylock {
        return;
      }
      match CommandOf(key)
      case MoveUp =>
        if !option.center {
          if geo.x > 1 {
            geo := geo.(x := geo.x - 1);
          }
        }
      case MoveDown =>
        if !option.center {
          if geo.x + geo.height + 2 < maxh {
            geo := geo.(x := geo.x + 1);
          }
        }
      case MoveLeft =>
        if !option.center {
          if geo.y > 1 {
            geo := geo.(y := geo.y - 1);
          }
        }
      case MoveRight =>
        if !option.center {
          if geo.y + geo.width + 1 < maxw {
            geo := geo.(y := geo.y + 1);
          }
        }
      case ToggleSecond =>
        if !option.second {
          geo := geo.(width := geo.width + SecondsWidth);
        } else {
          geo := geo.(width := geo.width - SecondsWidth);
        }
        option := option.(second := !option.second);
        if option.center {
          option := option.(center := false);
          SetCenter(maxw, maxh);
        }
      case ToggleTwelve =>
        option := option.(twelve := !option.twelve);
      case ToggleCenter =>
        SetCenter(maxw, maxh);
      case Quit =>
        running := false;
      case Ignore =>
    }

    /** `handle_sig(num)`, run between two passes of the main loop. */
    method HandleSig(num: Signal, maxw: int, maxh: int)
      modifies this`geo, this`option, this`running
      ensures St() == SigStep(old(St()), num, maxw, maxh)
    {
      if num == SigWinch && option.center {
        option := option.(center := !option.center);
        SetCenter(maxw, maxh);
      } else if num == SigInt || num == SigTerm {
        running := false;
      }
    }

    /** `get_time` on the broken-down local time `tm`. */
    method GetTime(tm: Tm)
      requires ValidTm(tm) && Valid()
      modifies this`sdate, this`meridiem
      ensures Valid()
      ensures sdate == Sample(old(sdate), tm, option.twelve, option.second)
      ensures meridiem == Meridiem(tm.hour, option.twelve)
    {
      var ihour := tm.hour;
      if option.twelve {
        meridiem := if ihour > 12 then "(PM)" else "(AM)";
      } else {
        meridiem := " ";
      }
      ihour := if option.twelve && ihour > 12 then ihour - 12 else ihour;
      ihour := if option.twelve && ihour == 0 then 12 else ihour;

      sdate := sdate.(hour := Pair(ihour / 10, ihour % 10));
      sdate := sdate.(minute := Pair(tm.min / 10, tm.min % 10));
      sdate := sdate.(monthDay := tm.mday, month := tm.mon + 1, year := tm.year + 1900);
      if option.second {
        sdate := sdate.(second := Pair(tm.sec / 10, tm.sec % 10));
      }
      SampleDrawable(old(sdate), tm, option.twelve, option.second);
    }

    /** `arrange_clock(h1, h2, m1, m2, s1, s2)`: the cells of one frame, in drawing order. */
    method ArrangeClock(h1: int, h2: int, m1: int, m2: int, s1: int, s2: int) returns (log: seq<Cell>)
      requires DrawableDigits([h1, h2, m1, m2, s1, s2], option.second)
      ensures log == FrameCells(geo, option.second, [h1, h2, m1, m2, s1, s2],
                                DateText(sdate.monthDay, sdate.month, sdate.year, meridiem))
    {
      log := DrawFrame(geo, option.second, h1, h2, m1, m2, s1, s2,
                       DateText(sdate.monthDay, sdate.month, sdate.year, meridiem));
    }

    /** `run`: sample the time, then draw the frame. */
    method Run(tm: Tm) returns (log: seq<Cell>)
      requires ValidTm(tm) && Valid()
      modifies this`sdate, this`meridiem
      ensures Valid()
      ensures sdate == Sample(old(sdate), tm, option.twelve, option.second)
      ensures meridiem == Meridiem(tm.hour, option.twelve)
      ensures log == FrameCells(geo, option.second, Digits(sdate),
                                DateText(sdate.monthDay, sdate.month, sdate.year, meridiem))
    {
      GetTime(tm);
      log := ArrangeClock(sdate.hour.tens, sdate.hour.units, sdate.minute.tens, sdate.minute.units,
                          sdate.second.tens, sdate.second.units);
    }

    /** One command-line option of `main`, with `-s` corrected (see
        `Geometry.ApplyOption`); `exits` tells whether the option prints a text and ends
        the program. */
    method ApplyOption(o: CliOption, maxw: int, maxh: int) returns (exits: bool)
      modifies this`geo, this`option
      ensures exits == Exits(o)
      ensures St() == Geometry.ApplyOption(old(St()), o, maxw, maxh)
    {
      exits := false;
      match o
      case OptHelp => exits := true;
      case OptUnknown => exits := true;
      case OptInfo => exits := true;
      case OptVersion => exits := true;
      case OptX(n) =>
        if n > 0 {
          geo := geo.(x := n + 1);
        }
      case OptY(n) =>
        if n > 0 {
          geo := geo.(y := n + 1);
        }
      case OptSecond =>
        if !option.second {
          geo := geo.(width := geo.width + SecondsWidth);
          option := option.(second := true);
          if option.center {
            option := option.(center := false);
            SetCenter(maxw, maxh);
          }
        }
      case OptTwelve => option := option.(twelve := true);
      case OptBlock => option := option.(keylock := false);
      case OptCenter => SetCenter(maxw, maxh);
    }

    /** The `getopt_long` loop of `main`: options in order, stopping at the first one
        that ends the program. */
    method ParseOptions(opts: seq<CliOption>, maxw: int, maxh: int) returns (exits: bool)
      modifies this`geo, this`option
      ensures exits <==> exists k :: 0 <= k < |opts| && Exits(opts[k])
      ensures !exits ==> St() == Geometry.ApplyOptions(old(St()), opts, maxw, maxh)
    {
      exits := false;
      var i := 0;
      while i < |opts| && !exits
        invariant 0 <= i <= |opts|
        invariant !exits ==> forall k :: 0 <= k < i ==> !Exits(opts[k])
        invariant exits ==> i > 0 && Exits(opts[i - 1])
        invariant St() == Geometry.ApplyOptions(old(St()), opts[..i], maxw, maxh)
      {
        exits := ApplyOption(opts[i], maxw, maxh);
        assert opts[..i + 1][..i] == opts[..i];
        i := i + 1;
      }
      assert !exits ==> opts[..i] == opts;
    }

    /** The signals that arrived during a tick, handled in order of arrival. */
    method HandleSigs(sigs: seq<Signal>, maxw: int, maxh: int)
      requires Valid()
      modifies this`geo, this`option, this`running
      ensures Valid()
      ensures St() == SigSteps(old(St()), sigs, maxw, maxh)
    {
      var j := 0;
      while j < |sigs|
        invariant 0 <= j <= |sigs| && Valid()
        invariant St() == SigSteps(old(St()), sigs[..j], maxw, maxh)
      {
        HandleSig(sigs[j], maxw, maxh);
        SigStepsSnoc(old(St()), sigs[..j], sigs[j], maxw, maxh);
        assert sigs[..j + 1] == sigs[..j] + [sigs[j]];
        j := j + 1;
      }
      assert sigs[..j] == sigs;
    }

    /** One pass of the `while (running)` loop: `check_key`, `run`, then the signals that
        arrived meanwhile, in order. */
    method Pass(t: Tick) returns (log: seq<Cell>)
      requires ValidTm(t.now) && Valid()
      modifies this`geo, this`option, this`running, this`sdate, this`meridiem
      ensures Valid()
      ensures St() == Step(old(St()), t)
      // the frame is drawn with the options and geometry the key left
      ensures Drawn(KeyStep(old(St()), old(option.keylock), t.key, t.maxw, t.maxh), old(sdate), t.now,
                    sdate, meridiem, log)
    {
      CheckKey(option.keylock, t.key, t.maxw, t.maxh);
      log := Run(t.now);
      HandleSigs(t.sigs, t.maxw, t.maxh);
    }

    /** The main loop after start-up: one frame for `now`, then one pass per tick while
        the run flag is set. Returns the frames drawn: one more than the passes. */
    method MainLoop(now: Tm, ticks: seq<Tick>) returns (frames: seq<seq<Cell>>)
      requires ValidTm(now) && Valid()
      requires forall k :: 0 <= k < |ticks| ==> ValidTm(ticks[k].now)
      modifies this`geo, this`option, this`running, this`sdate, this`meridiem
      ensures Valid()
      ensures St() == Loop(old(St()), ticks)
      ensures |frames| == 1 + PassCount(old(St()), ticks)
    {
      var log := Run(now);
      frames := [log];
      var i := 0;
      while running && i < |ticks|
        invariant 0 <= i <= |ticks| && Valid()
        invariant Loop(St(), ticks[i..]) == Loop(old(St()), ticks)
        invariant |frames| + PassCount(St(), ticks[i..]) == 1 + PassCount(old(St()), ticks)
      {
        assert ticks[i..][1..] == ticks[i + 1..];
        log := Pass(ticks[i]);
        frames := frames + [log];
        i := i + 1;
      }
    }
  }

  /** The state after the main loop has run over `ticks`: one `Step` per tick while the
      run flag is set. */
  function Loop(s: State, ticks: seq<Tick>): State
    decreases |ticks|
  {
    if !s.running || ticks == [] then s else Loop(Step(s, ticks[0]), ticks[1..])
  }

  /** The number of passes the main loop makes over `ticks`. */
  function PassCount(s: State, ticks: seq<Tick>): nat
    decreases |ticks|
  {
    if !s.running || ticks == [] then 0 else 1 + PassCount(Step(s, ticks[0]), ticks[1..])
  }

  /** `log` is the frame `run` draws in state `s` for time `now`, `sdate` and `meridiem`
      being the sample it takes from `prev`. */
  predicate Drawn(s: State, prev: SDate, now: Tm, sdate: SDate, meridiem: string, log: seq<Cell>)
    requires ValidTm(now)
  {
    sdate == Sample(prev, now, s.option.twelve, s.option.second) &&
    meridiem == Meridiem(now.hour, s.option.twelve) &&
    log == FrameCells(s.geo, s.option.second, Digits(sdate),
                      DateText(sdate.monthDay, sdate.month, sdate.year, meridiem))
  }

  /** One pass as a state transition. */
  function Step(s: State, t: Tick): (s': State)
    ensures s'.option.keylock == s.option.keylock && (s'.running ==> s.running)
    ensures s'.geo.height == s.geo.height
  {
    SigSteps(KeyStep(s, s.option.keylock, t.key, t.maxw, t.maxh), t.sigs, t.maxw, t.maxh)
  }

  /** A pass keeps the keyboard flag and the frame's proportions, and leaves the loop
      running exactly when it was running and the pass does not quit. */
  lemma StepFacts(s: State, t: Tick)
    ensures Step(s, t).option.keylock == s.option.keylock
    ensures Step(s, t).running <==> s.running && !Quits(s.option.keylock, t)
    ensures Proportioned(s) ==> Proportioned(Step(s, t))
  {
    var k := KeyStep(s, s.option.keylock, t.key, t.maxw, t.maxh);
    RunFlagOneWay(s, s.option.keylock, t.key, t.sigs, t.maxw, t.maxh);
    RunFlagOneWay(k, s.option.keylock, t.key, t.sigs, t.maxw, t.maxh);
    if Proportioned(s) {
      StepsKeepProportioned(s, s.option.keylock, t.key, [], t.maxw, t.maxh);
      StepsKeepProportioned(k, s.option.keylock, t.key, t.sigs, t.maxw, t.maxh);
    }
  }

  /** The six digits `run` passes to `arrange_clock`. */
  function Digits(d: SDate): seq<int> {
    [d.hour.tens, d.hour.units, d.minute.tens, d.minute.units, d.second.tens, d.second.units]
  }

  lemma {:induction false} SigStepsSnoc(s: State, sigs: seq<Signal>, sig: Signal, maxw: int, maxh: int)
    ensures SigSteps(s, sigs + [sig], maxw, maxh) == SigStep(SigSteps(s, sigs, maxw, maxh), sig, maxw, maxh)
    decreases |sigs|
  {
    if sigs == [] {
      assert sigs + [sig] == [sig];
    } else {
      assert (sigs + [sig])[1..] == sigs[1..] + [sig];
      SigStepsSnoc(SigStep(s, sigs[0], maxw, maxh), sigs[1..], sig, maxw, maxh);
    }
  }

  /** The main loop keeps the keyboard flag and the frame's proportions; it ends running
      exactly when it started running and no tick quits; and, started running, it makes
      `Passes` passes: up to and including the first tick that quits. */
  lemma {:induction false} LoopFacts(s: State, ticks: seq<Tick>)
    ensures Loop(s, ticks).option.keylock == s.option.keylock
    ensures Loop(s, ticks).running <==> s.running && forall k :: 0 <= k < |ticks| ==> !Quits(s.option.keylock, ticks[k])
    ensures PassCount(s, ticks) == if s.running then Passes(s.option.keylock, ticks) else 0
    ensures Proportioned(s) ==> Proportioned(Loop(s, ticks))
    decreases |ticks|
  {
    if s.running && ticks != [] {
      var s' := Step(s, ticks[0]);
      StepFacts(s, ticks[0]);
      LoopFacts(s', ticks[1..]);
      if s'.running {
        assert forall k :: 1 <= k < |ticks| ==> ticks[k] == ticks[1..][k - 1];
      }
    }
  }
}
