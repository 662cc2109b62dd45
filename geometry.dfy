/** The interactive state of tty-clock: the display options, the frame geometry and the run
    flag, with the transitions that keys, signals and command-line options apply to them.
    `geo.x` is the row and `geo.y` the column of the top-left digit cell. The terminal's
    width and height (`getmaxx`, `getmaxy`) are parameters. */
module Geometry {

  /** Columns the frame gains when seconds are shown (DIFFSEC). */
  const SecondsWidth: int := 19
  /** Frame width without and with seconds. */
  const NarrowWidth: int := 33
  const WideWidth: int := NarrowWidth + SecondsWidth
  /** Frame height: one digit block. */
  const FrameHeight: int := 5

  /** `option_t`. */
  datatype Options = Options(second: bool, twelve: bool, keylock: bool, center: bool)

  /** `geo_t`. */
  datatype Geo = Geo(x: int, y: int, width: int, height: int)

  /** The globals `option`, `geo` and `running`. */
  datatype State = State(option: Options, geo: Geo, running: bool)

  /** The initial values of the globals: seconds and twelve-hour mode off, keyboard active,
      not centred, origin (1, 1), frame 33 by 5, running. */
  const Init: State := State(Options(false, false, true, false), Geo(1, 1, NarrowWidth, FrameHeight), true)

  /** A frame sized for the digits it encloses: 5 rows, and 33 columns without seconds,
      52 with them. */
  predicate Fits(g: Geo, second: bool) {
    g.height == FrameHeight && g.width == (if second then WideWidth else NarrowWidth)
  }

  /** The frame is as wide as the digits the options make it show. */
  predicate Proportioned(s: State) {
    Fits(s.geo, s.option.second)
  }

  /** C's `n / 2` on an `int`, which truncates toward zero. */
  function Half(n: int): (h: int)
    ensures 0 <= n ==> 0 <= n - 2 * h <= 1
    ensures n < 0 ==> -1 <= n - 2 * h <= 0
  {
    if n >= 0 then n / 2 else -((-n) / 2)
  }

  /** The origin that centres the frame in a `maxw` by `maxh` terminal. */
  function CenteredOrigin(g: Geo, maxw: int, maxh: int): (c: Geo)
    ensures c.width == g.width && c.height == g.height
    // the margins before and after the frame differ by at most one cell
    ensures 0 <= maxw && 0 <= g.width ==> -1 <= 2 * c.y + c.width - maxw <= 1
    ensures 0 <= maxh && 0 <= g.height ==> -1 <= 2 * c.x + c.height - maxh <= 1
  {
    g.(y := Half(maxw) - Half(g.width), x := Half(maxh) - Half(g.height))
  }

  /** `set_center`: when not centred, centre the origin and set the flag; when centred,
      only clear the flag. */
  function SetCenter(s: State, maxw: int, maxh: int): (t: State)
    ensures t.option == s.option.(center := !s.option.center) && t.running == s.running
    ensures t.geo.width == s.geo.width && t.geo.height == s.geo.height
  {
    if !s.option.center then
      s.(geo := CenteredOrigin(s.geo, maxw, maxh), option := s.option.(center := true))
    else
      s.(option := s.option.(center := false))
  }

  /** The 's' key: widen or narrow the frame by 19 columns, flip the seconds option, and if
      the clock was centred, centre it again for the new width. */
  function ToggleSeconds(s: State, maxw: int, maxh: int): (t: State)
    ensures t.option == s.option.(second := !s.option.second) && t.running == s.running
    ensures t.geo.height == s.geo.height
    ensures Proportioned(s) ==> Proportioned(t)
  {
    var width := if !s.option.second then s.geo.width + SecondsWidth else s.geo.width - SecondsWidth;
    var t := s.(geo := s.geo.(width := width), option := s.option.(second := !s.option.second));
    if t.option.center then SetCenter(t.(option := t.option.(center := false)), maxw, maxh) else t
  }

  /** ncurses key codes of the arrow keys. */
  const KeyDown: int := 258
  const KeyUp: int := 259
  const KeyLeft: int := 260
  const KeyRight: int := 261

  /** What `check_key` does with a key read by `getch`. */
  datatype Command = MoveUp | MoveDown | MoveLeft | MoveRight
                   | ToggleSecond | ToggleTwelve | ToggleCenter | Quit | Ignore

  /** The case labels of `check_key`: arrows and the vi keys in either case move, and
      s, t, c, q in either case toggle or quit. Any other code is ignored. */
  function CommandOf(key: int): Command {
    if key == KeyUp || key == 'k' as int || key == 'K' as int then MoveUp
    else if key == KeyDown || key == 'j' as int || key == 'J' as int then MoveDown
    else if key == KeyLeft || key == 'h' as int || key == 'H' as int then MoveLeft
    else if key == KeyRight || key == 'l' as int || key == 'L' as int then MoveRight
    else if key == 's' as int || key == 'S' as int then ToggleSecond
    else if key == 't' as int || key == 'T' as int then ToggleTwelve
    else if key == 'c' as int || key == 'C' as int then ToggleCenter
    else if key == 'q' as int || key == 'Q' as int then Quit
    else Ignore
  }

  /** A clamped move of the origin by one cell; the frame does not move while centred. */
  function Move(s: State, cmd: Command, maxw: int, maxh: int): (t: State)
    requires cmd.MoveUp? || cmd.MoveDown? || cmd.MoveLeft? || cmd.MoveRight?
    // only the origin moves, by at most one cell in one direction
    ensures t == s.(geo := t.geo) && t.geo.width == s.geo.width && t.geo.height == s.geo.height
    ensures (t.geo.x == s.geo.x && -1 <= t.geo.y - s.geo.y <= 1) ||
            (t.geo.y == s.geo.y && -1 <= t.geo.x - s.geo.x <= 1)
  {
    if s.option.center then s
    else
      var g := s.geo;
      var g' :=
        match cmd
        case MoveUp => if g.x > 1 then g.(x := g.x - 1) else g
        case MoveDown => if g.x + g.height + 2 < maxh then g.(x := g.x + 1) else g
        case MoveLeft => if g.y > 1 then g.(y := g.y - 1) else g
        case MoveRight => if g.y + g.width + 1 < maxw then g.(y := g.y + 1) else g;
      s.(geo := g')
  }

  /** `check_key(keylock)` after `getch` returned `key`. */
  function KeyStep(s: State, keylock: bool, key: int, maxw: int, maxh: int): (t: State)
    ensures !keylock ==> t == s
    ensures t.option.keylock == s.option.keylock && (t.running ==> s.running)
    ensures t.geo.height == s.geo.height
  {
    if !keylock then s
    else
      match CommandOf(key)
      case MoveUp => Move(s, MoveUp, maxw, maxh)
      case MoveDown => Move(s, MoveDown, maxw, maxh)
      case MoveLeft => Move(s, MoveLeft, maxw, maxh)
      case MoveRight => Move(s, MoveRight, maxw, maxh)
      case ToggleSecond => ToggleSeconds(s, maxw, maxh)
      case ToggleTwelve => s.(option := s.option.(twelve := !s.option.twelve))
      case ToggleCenter => SetCenter(s, maxw, maxh)
      case Quit => s.(running := false)
      case Ignore => s
  }

  /** The three signals the clock installs a handler for. */
  datatype Signal = SigWinch | SigInt | SigTerm

  /** `handle_sig`: a resize re-centres a centred clock for the new terminal size (the flag
      is cleared and `set_center` sets it again); an interrupt or terminate request stops
      the loop. */
  function SigStep(s: State, sig: Signal, maxw: int, maxh: int): (t: State)
    // a signal never changes the options other than centring, nor the frame's size
    ensures t.option == s.option.(center := t.option.center)
    ensures t.geo.width == s.geo.width && t.geo.height == s.geo.height
    ensures t.running ==> s.running
  {
    if sig == SigWinch && s.option.center then
      SetCenter(s.(option := s.option.(center := false)), maxw, maxh)
    else if sig == SigInt || sig == SigTerm then
      s.(running := false)
    else
      s
  }

  /** Signals delivered in order. */
  function SigSteps(s: State, sigs: seq<Signal>, maxw: int, maxh: int): (t: State)
    ensures t.option == s.option.(center := t.option.center)
    ensures t.geo.width == s.geo.width && t.geo.height == s.geo.height
    ensures t.running ==> s.running
    decreases |sigs|
  {
    if sigs == [] then s else SigSteps(SigStep(s, sigs[0], maxw, maxh), sigs[1..], maxw, maxh)
  }

  /** The `-x`/`-y` rule: a positive argument n puts the coordinate at n + 1, anything
      else (including text `atoi` reads as 0) leaves it alone. */
  function CoordArg(current: int, arg: int): (c: int)
    ensures arg > 0 ==> c == arg + 1 && c >= 2
    ensures arg <= 0 ==> c == current
  {
    if arg > 0 then arg + 1 else current
  }

  /** The command-line options of `main` (the value of `-x`/`-y` as `atoi` reads it). */
  datatype CliOption = OptSecond | OptTwelve | OptBlock | OptCenter | OptX(arg: int) | OptY(arg: int)
                     | OptHelp | OptInfo | OptVersion | OptUnknown

  /** Options that print a text and end the program with status 0 instead of running it. */
  predicate Exits(o: CliOption) {
    o.OptHelp? || o.OptInfo? || o.OptVersion? || o.OptUnknown?
  }

  /** One option as `main` applies it. `-s` only sets the seconds flag: the frame width is
      left at whatever it was (see `SecondsOptionNarrowFrame`). */
  function ApplyOptionAsWritten(s: State, o: CliOption, maxw: int, maxh: int): (t: State)
    // no option, `-s` included, changes the frame's size
    ensures t.geo.width == s.geo.width && t.geo.height == s.geo.height && t.running == s.running
    ensures o.OptSecond? ==> t.option.second
  {
    match o
    case OptSecond => s.(option := s.option.(second := true))
    case OptTwelve => s.(option := s.option.(twelve := true))
    case OptBlock => s.(option := s.option.(keylock := false))
    case OptCenter => SetCenter(s, maxw, maxh)
    case OptX(n) => s.(geo := s.geo.(x := CoordArg(s.geo.x, n)))
    case OptY(n) => s.(geo := s.geo.(y := CoordArg(s.geo.y, n)))
    case _ => s
  }

  /** One option with `-s` corrected: it turns seconds on the way the 's' key does, widening
      (and if need be re-centring) the frame, and does nothing when seconds are already on. */
  function ApplyOption(s: State, o: CliOption, maxw: int, maxh: int): State {
    match o
    case OptSecond => if s.option.second then s else ToggleSeconds(s, maxw, maxh)
    case _ => ApplyOptionAsWritten(s, o, maxw, maxh)
  }

  /** The options of a command line applied in order. An option that ends the program
      changes nothing, so the state is the one in force when it is reached. */
  function ApplyOptions(s: State, opts: seq<CliOption>, maxw: int, maxh: int): State
    decreases |opts|
  {
    if opts == [] then s
    else ApplyOption(ApplyOptions(s, opts[..|opts| - 1], maxw, maxh), opts[|opts| - 1], maxw, maxh)
  }

  // ---------------------------------------------------------------------------------------
  // Properties of the transitions

  /** Up and left stop at 1, down stops when the date line would reach the last row, right
      stops when the right border would reach the last column; a move changes one
      coordinate by one and nothing else; a centred frame never moves. */
  lemma MoveClamped(s: State, cmd: Command, maxw: int, maxh: int)
    requires cmd.MoveUp? || cmd.MoveDown? || cmd.MoveLeft? || cmd.MoveRight?
    ensures var t := Move(s, cmd, maxw, maxh);
      && t.option == s.option && t.running == s.running
      && t.geo.width == s.geo.width && t.geo.height == s.geo.height
      && (s.option.center ==> t == s)
    ensures var t := Move(s, cmd, maxw, maxh);
      cmd.MoveUp? ==> (t.geo.y == s.geo.y &&
        t.geo.x == (if !s.option.center && s.geo.x > 1 then s.geo.x - 1 else s.geo.x))
    ensures var t := Move(s, cmd, maxw, maxh);
      cmd.MoveDown? ==> (t.geo.y == s.geo.y &&
        t.geo.x == (if !s.option.center && s.geo.x + s.geo.height + 2 < maxh then s.geo.x + 1 else s.geo.x))
    ensures var t := Move(s, cmd, maxw, maxh);
      cmd.MoveLeft? ==> (t.geo.x == s.geo.x &&
        t.geo.y == (if !s.option.center && s.geo.y > 1 then s.geo.y - 1 else s.geo.y))
    ensures var t := Move(s, cmd, maxw, maxh);
      cmd.MoveRight? ==> (t.geo.x == s.geo.x &&
        t.geo.y == (if !s.option.center && s.geo.y + s.geo.width + 1 < maxw then s.geo.y + 1 else s.geo.y))
  {
  }

  /** The whole frame, border and date line included, fits in the terminal. */
  predicate OnScreen(g: Geo, maxw: int, maxh: int) {
    1 <= g.x && 1 <= g.y && g.x + g.height + 1 < maxh && g.y + g.width < maxw
  }

  /** A move never takes a frame that fits in the terminal out of it, and a move that is
      refused by the clamp leaves the frame touching the edge it was heading for. */
  lemma MoveKeepsOnScreen(s: State, cmd: Command, maxw: int, maxh: int)
    requires cmd.MoveUp? || cmd.MoveDown? || cmd.MoveLeft? || cmd.MoveRight?
    requires OnScreen(s.geo, maxw, maxh)
    ensures OnScreen(Move(s, cmd, maxw, maxh).geo, maxw, maxh)
    ensures !s.option.center && Move(s, cmd, maxw, maxh) == s ==>
      match cmd
      case MoveUp => s.geo.x == 1
      case MoveDown => s.geo.x + s.geo.height + 2 == maxh
      case MoveLeft => s.geo.y == 1
      case MoveRight => s.geo.y + s.geo.width + 1 == maxw
  {
  }

  /** With the keyboard inactive (`keylock` false), no key changes anything. */
  lemma KeyLocked(s: State, key: int, maxw: int, maxh: int)
    ensures KeyStep(s, false, key, maxw, maxh) == s
  {
  }

  /** Keys outside the case labels change nothing. */
  lemma UnknownKeyIgnored(s: State, keylock: bool, key: int, maxw: int, maxh: int)
    requires CommandOf(key) == Ignore
    ensures KeyStep(s, keylock, key, maxw, maxh) == s
  {
  }

  /** 't' flips the twelve-hour option and nothing else; 'q' clears the run flag and
      nothing else. */
  lemma TwelveAndQuitKeys(s: State, maxw: int, maxh: int)
    ensures var t := KeyStep(s, true, 't' as int, maxw, maxh);
      t.option.twelve == !s.option.twelve && t == s.(option := t.option) &&
      t.option == s.option.(twelve := t.option.twelve)
    ensures KeyStep(s, true, 'T' as int, maxw, maxh) == KeyStep(s, true, 't' as int, maxw, maxh)
    ensures KeyStep(s, true, 'q' as int, maxw, maxh) == s.(running := false)
    ensures KeyStep(s, true, 'Q' as int, maxw, maxh) == s.(running := false)
  {
  }

  /** Upper- and lower-case letters act alike. */
  lemma CaseInsensitive(c: char)
    requires 'a' <= c <= 'z'
    ensures CommandOf(c as int) == CommandOf((c as int) - 32)
  {
  }

  /** `set_center` is asymmetric: from an uncentred state it centres the origin; from a
      centred one it only clears the flag, so two calls leave the frame at the centred
      origin with centring off, not where it started. */
  lemma SetCenterAsymmetric(s: State, maxw: int, maxh: int)
    ensures var t := SetCenter(s, maxw, maxh);
      t.running == s.running && t.geo.width == s.geo.width && t.geo.height == s.geo.height &&
      t.option.center == !s.option.center &&
      t.option == s.option.(center := t.option.center) &&
      (s.option.center ==> t.geo == s.geo) &&
      (!s.option.center ==> t.geo == CenteredOrigin(s.geo, maxw, maxh))
    ensures !s.option.center ==>
      var u := SetCenter(SetCenter(s, maxw, maxh), maxw, maxh);
      u.geo == CenteredOrigin(s.geo, maxw, maxh) && u.option == s.option
  {
  }

  /** Toggling seconds moves the width by exactly 19 columns and flips only the seconds
      option (centring is restored if it was on); toggling twice restores the width and
      the options. */
  lemma ToggleSecondsRoundTrip(s: State, maxw: int, maxh: int)
    ensures var t := ToggleSeconds(s, maxw, maxh);
      t.option == s.option.(second := !s.option.second) && t.running == s.running &&
      t.geo.height == s.geo.height &&
      t.geo.width == s.geo.width + (if s.option.second then -SecondsWidth else SecondsWidth) &&
      (s.option.center ==> t.geo == CenteredOrigin(s.geo.(width := t.geo.width), maxw, maxh)) &&
      (!s.option.center ==> t.geo.x == s.geo.x && t.geo.y == s.geo.y)
    ensures var u := ToggleSeconds(ToggleSeconds(s, maxw, maxh), maxw, maxh);
      u.geo.width == s.geo.width && u.option == s.option &&
      (!s.option.center ==> u.geo == s.geo)
  {
  }

  /** A resize re-centres a centred clock and ignores an uncentred one; interrupt and
      terminate clear the run flag and touch nothing else. */
  lemma SignalEffects(s: State, maxw: int, maxh: int)
    ensures var t := SigStep(s, SigWinch, maxw, maxh);
      (s.option.center ==> t.option == s.option && t.running == s.running &&
                           t.geo == CenteredOrigin(s.geo, maxw, maxh)) &&
      (!s.option.center ==> t == s)
    ensures SigStep(s, SigInt, maxw, maxh) == s.(running := false)
    ensures SigStep(s, SigTerm, maxw, maxh) == s.(running := false)
  {
  }

  /** Nothing sets the run flag again once it is clear, and nothing but the command-line
      `-b` option changes the keyboard flag. */
  lemma {:induction false} RunFlagOneWay(s: State, keylock: bool, key: int, sigs: seq<Signal>, maxw: int, maxh: int)
    ensures var t := KeyStep(s, keylock, key, maxw, maxh);
      (t.running ==> s.running) && t.option.keylock == s.option.keylock
    ensures var t := SigSteps(s, sigs, maxw, maxh);
      (t.running <==> s.running && SigInt !in sigs && SigTerm !in sigs) &&
      t.option.keylock == s.option.keylock
    decreases |sigs|
  {
    if sigs != [] {
      RunFlagOneWay(SigStep(s, sigs[0], maxw, maxh), keylock, key, sigs[1..], maxw, maxh);
      assert sigs == [sigs[0]] + sigs[1..];
    }
  }

  /** Every key and signal keeps the frame as wide as its digits. */
  lemma {:induction false} StepsKeepProportioned(s: State, keylock: bool, key: int, sigs: seq<Signal>, maxw: int, maxh: int)
    requires Proportioned(s)
    ensures Proportioned(KeyStep(s, keylock, key, maxw, maxh))
    ensures Proportioned(SigSteps(s, sigs, maxw, maxh))
    decreases |sigs|
  {
    if sigs != [] {
      StepsKeepProportioned(SigStep(s, sigs[0], maxw, maxh), keylock, key, sigs[1..], maxw, maxh);
    }
  }

  /** As written, `-s` turns seconds on inside a 33-column frame, and the next 's' key
      shrinks the frame to 14 columns with seconds off: width and option stay out of step. */
  lemma SecondsOptionNarrowFrame(maxw: int, maxh: int)
    ensures var s := ApplyOptionAsWritten(Init, OptSecond, maxw, maxh);
      s.option.second && s.geo.width == NarrowWidth && !Proportioned(s) &&
      var t := KeyStep(s, true, 's' as int, maxw, maxh);
      !t.option.second && t.geo.width == 14 && !Proportioned(t)
  {
  }

  /** With `-s` corrected, every command-line option keeps the frame as wide as its digits,
      and `-s` leaves seconds on whatever came before. */
  lemma OptionKeepsProportioned(s: State, o: CliOption, maxw: int, maxh: int)
    requires Proportioned(s)
    ensures Proportioned(ApplyOption(s, o, maxw, maxh))
    ensures o.OptSecond? ==> ApplyOption(s, o, maxw, maxh).option.second
  {
  }

  /** A whole command line keeps the frame as wide as its digits, and a `-s` anywhere on
      it leaves seconds on. */
  lemma {:induction false} OptionsKeepProportioned(s: State, opts: seq<CliOption>, maxw: int, maxh: int)
    requires Proportioned(s)
    ensures Proportioned(ApplyOptions(s, opts, maxw, maxh))
    ensures OptSecond in opts ==> ApplyOptions(s, opts, maxw, maxh).option.second
    decreases |opts|
  {
    if opts != [] {
      var init, last := opts[..|opts| - 1], opts[|opts| - 1];
      OptionsKeepProportioned(s, init, maxw, maxh);
      OptionKeepsProportioned(ApplyOptions(s, init, maxw, maxh), last, maxw, maxh);
      assert opts == init + [last];
    }
  }
}
