/** The arrow-key menu: a scrolling window over the options, redrawn in place. */
module Menu {
  import opened Basics
  import opened Terminal

  // ---- Keys -----------------------------------------------------------------------------------

  /** One byte of input; `late` when it arrives only after a timed read would have given up. */
  datatype Input = Input(c: char, late: bool)

  datatype Key = Up | Down | Accept | Cancel | Other

  const ESC := '\U{1b}'

  /** The next key, and the input after it.  A read at the end of the input yields an empty byte,
      which is what the Enter key yields too. */
  function ReadKey(input: seq<Input>): (r: (Key, seq<Input>))
    ensures |r.1| < |input| || (input == [] && r == (Accept, []))
  {
    if input == [] then (Accept, [])
    else
      var rest := input[1..];
      match input[0].c
      case 'k' => (Up, rest)
      case 'j' => (Down, rest)
      case 'q' => (Cancel, rest)
      case '\r' => (Accept, rest)
      case '\n' => (Accept, rest)
      case c =>
        if c != ESC then (Other, rest)
        else if rest == [] || rest[0].late then (Cancel, rest)
        else if rest[0].c != '[' then (Cancel, rest[1..])
        else if |rest| == 1 || rest[1].late then (Other, rest[1..])
        else if rest[1].c == 'A' then (Up, rest[2..])
        else if rest[1].c == 'B' then (Down, rest[2..])
        else (Other, rest[2..])
  }

  /** Everything up to the key that ends the menu: how far down the user asked to go, on balance,
      and whether the last key accepts. */
  function Intent(input: seq<Input>): (int, bool)
    decreases |input|
  {
    var (key, rest) := ReadKey(input);
    match key
    case Accept => (0, true)
    case Cancel => (0, false)
    case Up => var (n, accepted) := Intent(rest); (n - 1, accepted)
    case Down => var (n, accepted) := Intent(rest); (n + 1, accepted)
    case Other => Intent(rest)
  }

  // ---- The frame ------------------------------------------------------------------------------

  const FOOTER := "  Up/Down or j/k: move   Enter: select   q: cancel"

  function Above(n: nat): string { "  ... " + Digits(n) + " more above ..." }
  function Below(n: nat): string { "  ... " + Digits(n) + " more below ..." }

  function OptionLine(options: seq<string>, i: nat, idx: nat): string
    requires i < |options|
  {
    (if i == idx then "  > " else "    ") + options[i]
  }

  function OptionRows(options: seq<string>, idx: nat, lo: nat, hi: nat, width: nat): seq<string>
    requires lo <= hi <= |options| && width > 0
  {
    if lo == hi then []
    else OptionRows(options, idx, lo, hi - 1, width) + Wrap(OptionLine(options, hi - 1, idx), width)
  }

  /** What the user should see: header, window, indicators for what is hidden, footer. */
  function Frame(header: string, options: seq<string>, idx: nat, start: nat, size: nat, width: nat): seq<string>
    requires start + size <= |options| && width > 0
  {
    var below := |options| - (start + size);
    Wrap(header, width)
    + (if start > 0 then Wrap(Above(start), width) else [])
    + OptionRows(options, idx, start, start + size, width)
    + (if below > 0 then Wrap(Below(below), width) else [])
    + Wrap(FOOTER, width)
  }

  /** Every option, indicator and footer line fits one row. */
  ghost predicate OneRowEach(options: seq<string>, width: nat) {
    && (forall i | 0 <= i < |options| :: |options[i]| + 4 <= width)
    && (forall n | 0 < n < |options| :: |Above(n)| <= width && |Below(n)| <= width)
    && |FOOTER| <= width
  }

  /** Rows counted by the draw routine. */
  function CountedRows(header: string, options: seq<string>, idx: nat, start: nat, size: nat, width: nat): nat
    requires start + size <= |options| && width > 0
  {
    RowSpan(|header|, width) + (if start > 0 then 1 else 0)
    + |OptionRows(options, idx, start, start + size, width)|
    + (if start + size < |options| then 1 else 0) + 1
  }

  lemma {:induction false} OptionRowsCount(options: seq<string>, idx: nat, lo: nat, hi: nat, width: nat)
    requires lo <= hi <= |options| && width > 0
    requires forall i | 0 <= i < |options| :: |options[i]| + 4 <= width
    ensures |OptionRows(options, idx, lo, hi, width)| == hi - lo
  {
    if lo < hi { OptionRowsCount(options, idx, lo, hi - 1, width); }
  }

  /** The count is the number of rows on the screen. */
  lemma {:induction false} CountIsExact(header: string, options: seq<string>, idx: nat, start: nat, size: nat,
                                        width: nat)
    requires 0 < size && start + size <= |options| && width > 0 && OneRowEach(options, width)
    ensures |Frame(header, options, idx, start, size, width)| ==
            CountedRows(header, options, idx, start, size, width) ==
            RowSpan(|header|, width) + size + 1 +
              (if start > 0 then 1 else 0) + (if start + size < |options| then 1 else 0)
  {
    WrapRowSpan(header, width);
    OptionRowsCount(options, idx, start, start + size, width);
    var below := |options| - (start + size);
    assert start > 0 ==> |Wrap(Above(start), width)| == 1;
    assert below > 0 ==> |Wrap(Below(below), width)| == 1;
  }

  // ---- The window -----------------------------------------------------------------------------

  /** How many options fit: header, two indicators, footer and one spare row are set aside. */
  function WindowSize(height: nat, headerRows: nat, count: nat): int {
    var size := height - headerRows - 4;
    var atLeastOne := if size < 1 then 1 else size;
    if atLeastOne > count then count else atLeastOne
  }

  function Wrapped(idx: nat, by': int, count: nat): nat
    requires count > 0 && idx + by' + count >= 0
  {
    (idx + by' + count) % count
  }

  function Scrolled(idx: nat, start: nat, size: nat): int {
    if idx < start then idx
    else if idx > start + size - 1 then idx - size + 1
    else start
  }

  predicate WindowHolds(idx: int, start: int, size: int, count: int) {
    0 <= start <= idx < start + size <= count
  }

  function Distance(a: int, b: int): nat { if a < b then b - a else a - b }

  /** The window scrolls no further than it has to: any other window around the selection is further
      away. */
  lemma {:induction false} ScrollIsMinimal(idx: nat, start: nat, size: nat, count: nat, other: int)
    requires 0 <= start && start + size <= count && idx < count && WindowHolds(idx, other, size, count)
    ensures WindowHolds(idx, Scrolled(idx, start, size), size, count)
    ensures other != Scrolled(idx, start, size) ==> Distance(Scrolled(idx, start, size), start) < Distance(other, start)
  {
  }

  /** Where the window ends up, each key scrolling it as little as its selection demands. */
  function StartAfter(input: seq<Input>, total: int, start: nat, size: nat, count: nat): int
    requires 0 < size <= count && start + size <= count
    decreases |input|
  {
    var (key, rest) := ReadKey(input);
    if key == Accept || key == Cancel then start
    else
      var total' := total + (if key == Up then -1 else if key == Down then 1 else 0);
      StartAfter(rest, total', Scrolled(total' % count, start, size), size, count)
  }

  /** The tallest frame that navigation can reach. */
  function TallestFrame(height: nat, headerRows: nat, count: nat): int
    requires count > 0
  {
    var size := WindowSize(height, headerRows, count);
    headerRows + size + 1 + (if count - size > 1 then 2 else count - size)
  }

  /** The window leaves room for every reachable frame exactly when the terminal has this many
      rows; five rows more than the header are always enough. */
  lemma {:induction false} AlwaysFits(height: nat, headerRows: nat, count: nat)
    requires count > 0
    ensures TallestFrame(height, headerRows, count) <= height - 1 <==>
              height >= headerRows + 3 + (if count > 2 then 2 else count - 1)
    ensures height >= headerRows + 5 ==> TallestFrame(height, headerRows, count) <= height - 1
  {
  }

  /** The Down key, n times. */
  function Downs(n: nat): seq<Input> {
    if n == 0 then [] else [Input('j', false)] + Downs(n - 1)
  }

  lemma {:induction false} DownsFrom(n: nat, total: nat, size: nat, count: nat)
    requires 0 < size <= count && total + n < count
    ensures Intent(Downs(n)) == (n, true)
    ensures StartAfter(Downs(n), total, TopFor(total, size), size, count) == TopFor(total + n, size)
  {
    if n > 0 {
      assert Downs(n)[1..] == Downs(n - 1);
      assert ReadKey(Downs(n)) == (Down, Downs(n - 1));
      DivideUnique(total + 1, count, 0, total + 1);
      DownsFrom(n - 1, total + 1, size, count);
      hide Downs, ReadKey;
      assert Scrolled(total + 1, TopFor(total, size), size) == TopFor(total + 1, size);
    }
  }

  /** The first window from the top that reaches an option. */
  function TopFor(idx: nat, size: nat): nat { if idx < size then 0 else idx - size + 1 }

  /** n Down keys select option n, and scroll only as far as needed. */
  lemma {:induction false} DownReaches(n: nat, size: nat, count: nat)
    requires 0 < size <= count && n < count
    ensures Intent(Downs(n)) == (n, true) && Intent(Downs(n)).0 % count == n
    ensures StartAfter(Downs(n), 0, 0, size, count) == TopFor(n, size)
  {
    DownsFrom(n, 0, size, count);
    DivideUnique(n, count, 0, n);
  }

  lemma {:induction false} StartHolds(input: seq<Input>, total: int, start: nat, size: nat, count: nat)
    requires 0 < size <= count && WindowHolds(total % count, start, size, count)
    ensures WindowHolds((total + Intent(input).0) % count, StartAfter(input, total, start, size, count), size, count)
    decreases |input|
  {
    var (key, rest) := ReadKey(input);
    if key != Accept && key != Cancel {
      var total' := total + (if key == Up then -1 else if key == Down then 1 else 0);
      StartHolds(rest, total', Scrolled(total' % count, start, size), size, count);
    }
  }

  /** Rows of the frame that these keys lead to. */
  function RowsAfter(input: seq<Input>, header: string, options: seq<string>, height: nat, width: nat): nat
    requires width > 0 && options != []
  {
    var count := |options|;
    var size := WindowSize(height, RowSpan(|header|, width), count);
    StartHoldsAtFirst(input, size, count);
    |Frame(header, options, Intent(input).0 % count, StartAfter(input, 0, 0, size, count), size, width)|
  }

  lemma {:induction false} StartHoldsAtFirst(input: seq<Input>, size: nat, count: nat)
    requires 0 < size <= count
    ensures WindowHolds(Intent(input).0 % count, StartAfter(input, 0, 0, size, count), size, count)
  {
    DivideUnique(0, count, 0, 0);
    StartHolds(input, 0, 0, size, count);
  }

  /** The menu stays on the screen, whatever the keys, if and only if the terminal is taller than the
      tallest frame; if it is not, some number of Down keys leads to a frame that loses its header. */
  lemma {:induction false} TallestReached(header: string, options: seq<string>, height: nat, width: nat)
    requires width > 0 && options != [] && OneRowEach(options, width)
    ensures (forall input :: RowsAfter(input, header, options, height, width) <= height - 1) <==>
              TallestFrame(height, RowSpan(|header|, width), |options|) <= height - 1
    ensures TallestFrame(height, RowSpan(|header|, width), |options|) > height - 1 ==>
              exists n: nat :: n < |options| && height <= RowsAfter(Downs(n), header, options, height, width)
  {
    var count, headerRows := |options|, RowSpan(|header|, width);
    var size := WindowSize(height, headerRows, count);
    hide Frame, OneRowEach, RowSpan, WindowSize, Intent;
    forall input ensures RowsAfter(input, header, options, height, width) <= TallestFrame(height, headerRows, count) {
      StartHoldsAtFirst(input, size, count);
      CountIsExact(header, options, Intent(input).0 % count, StartAfter(input, 0, 0, size, count), size, width);
    }
    var n := if count - size > 1 then size else 0;
    DownReaches(n, size, count);
    CountIsExact(header, options, n, TopFor(n, size), size, width);
    assert RowsAfter(Downs(n), header, options, height, width) == TallestFrame(height, headerRows, count);
  }

  // ---- The menu -------------------------------------------------------------------------------

  /** Prints one line of a frame of which `printed` is out already. */
  method Emit(tty: Tty, text: string, ghost was: Screen, ghost printed: seq<string>) returns (ghost all: seq<string>)
    requires tty.Valid() && ValidScreen(was) && tty.screen == PutAll(was, printed)
    modifies tty`screen
    ensures tty.Valid() && all == printed + Wrap(text, tty.width) && tty.screen == PutAll(was, all)
  {
    hide PutAll, Wrap;
    PutAllConcat(was, printed, Wrap(text, tty.width));
    tty.PrintLine(text);
    all := printed + Wrap(text, tty.width);
  }

  lemma {:induction false} NextRow(options: seq<string>, idx: nat, lo: nat, i: nat, width: nat)
    requires lo <= i < |options| && width > 0
    ensures OptionRows(options, idx, lo, lo, width) == []
    ensures var line := OptionLine(options, i, idx);
            && OptionRows(options, idx, lo, i + 1, width) == OptionRows(options, idx, lo, i, width) + Wrap(line, width)
            && |Wrap(line, width)| == RowSpan(|line|, width)
  {
    WrapRowSpan(OptionLine(options, i, idx), width);
    hide Wrap, RowSpan, OptionLine;
  }

  /** The window's options, one after the other. */
  method DrawOptions(tty: Tty, options: seq<string>, idx: nat, lo: nat, hi: nat,
                     ghost was: Screen, ghost top: seq<string>)
    returns (rows: nat, ghost printed: seq<string>)
    requires tty.Valid() && ValidScreen(was) && tty.screen == PutAll(was, top) && lo < hi <= |options|
    modifies tty`screen
    ensures tty.Valid() && printed == top + OptionRows(options, idx, lo, hi, tty.width)
    ensures tty.screen == PutAll(was, printed) && rows == |OptionRows(options, idx, lo, hi, tty.width)|
  {
    hide PutAll, Wrap, RowSpan, OptionLine, OptionRows;
    ghost var w := tty.width;
    rows, printed := 0, top;
    NextRow(options, idx, lo, lo, w);
    for i := lo to hi
      invariant tty.Valid() && tty.screen == PutAll(was, printed)
      invariant printed == top + OptionRows(options, idx, lo, i, w)
      invariant rows == |OptionRows(options, idx, lo, i, w)|
    {
      var line := OptionLine(options, i, idx);
      NextRow(options, idx, lo, i, w);
      Regroup(top, OptionRows(options, idx, lo, i, w), Wrap(line, w));
      printed := Emit(tty, line, was, printed);
      rows := rows + RowSpan(|line|, tty.width);
    }
  }

  method Draw(tty: Tty, header: string, options: seq<string>, idx: nat, start: nat, size: nat)
    returns (total: nat)
    requires tty.Valid() && start + size <= |options| && size > 0
    modifies tty
    ensures tty.Valid()
    ensures var drawn := PutAll(old(tty.screen), Frame(header, options, idx, start, size, tty.width));
            tty.screen == Screen(drawn.rows[..drawn.cursor] + Blanks(tty.height - drawn.cursor), drawn.cursor)
    ensures total == CountedRows(header, options, idx, start, size, tty.width)
  {
    hide PutAll, Wrap, RowSpan, OptionRows, Above, Below, FOOTER;
    ghost var was, w := tty.screen, tty.width;
    NothingPut(was);
    var count := |options|;
    var windowEnd := start + size - 1;
    if windowEnd >= count {
      windowEnd := count - 1;
    }
    ghost var printed := Emit(tty, header, was, []);
    total := RowSpan(|header|, tty.width);
    if start > 0 {
      printed := Emit(tty, Above(start), was, printed);
      total := total + 1;
    }
    var rows;
    rows, printed := DrawOptions(tty, options, idx, start, windowEnd + 1, was, printed);
    total := total + rows;
    if windowEnd < count - 1 {
      printed := Emit(tty, Below(count - 1 - windowEnd), was, printed);
      total := total + 1;
    }
    printed := Emit(tty, FOOTER, was, printed);
    total := total + 1;
    assert printed == Frame(header, options, idx, start, size, w);
    tty.ClearBelow();
  }

  /** The screen shows the frame and nothing else, and the cursor is right below it. */
  ghost predicate Shows(s: Screen, frame: seq<string>) {
    && |frame| < |s.rows| && s.cursor == |frame|
    && s.rows == frame + Blanks(|s.rows| - |frame|)
  }

  /** The screen shows all of the frame that fits: the whole, or else its last rows above a blank one. */
  ghost predicate ShowsWhatFits(s: Screen, frame: seq<string>) {
    if |frame| < |s.rows| then Shows(s, frame)
    else |s.rows| > 0 && s == Screen(frame[|frame| - |s.rows| + 1..] + [""], |s.rows| - 1)
  }

  /** Redrawing from the first row, whatever was there, shows exactly what fits of the frame. */
  lemma {:induction false} RedrawShows(s: Screen, frame: seq<string>)
    requires ValidScreen(s) && s.cursor == 0
    ensures var drawn := PutAll(s, frame);
            ShowsWhatFits(Screen(drawn.rows[..drawn.cursor] + Blanks(|s.rows| - drawn.cursor), drawn.cursor), frame)
  {
    var drawn := PutAll(s, frame);
    if |frame| < |s.rows| {
      PutAllFits(s, frame);
      assert drawn.rows[..drawn.cursor] == frame;
    } else {
      PutAllScrolls(s, frame);
      assert Blanks(1) == [""];
    }
  }

  /** Modular steps add up. */
  lemma {:induction false} StepAddsUp(total: int, step: int, idx: nat, count: nat)
    requires count > 0 && idx == total % count && -1 <= step <= 1
    ensures Wrapped(idx, step, count) == (total + step) % count
  {
    var q := total / count;
    assert total == q * count + idx;
    var m := idx + step + count;
    var q', r' := m / count, m % count;
    assert m == q' * count + r';
    assert total + step == (q + q' - 1) * count + r';
    DivideUnique(total + step, count, q + q' - 1, r');
  }

  /** Runs the menu; `picked` is the chosen option.  At the end the screen shows the frame of the last
      selection, or what fits of it. */
  method HostArrowMenu(tty: Tty, header: string, options: seq<string>, input: seq<Input>)
    returns (picked: seq<string>, ghost idx: nat, ghost start: int, ghost size: int)
    requires tty.Valid()
    modifies tty
    ensures tty.Valid()
    ensures options == [] ==> picked == [] && tty.screen == old(tty.screen)
    ensures options != [] ==>
      var (moved, accepted) := Intent(input);
      && idx == moved % |options|
      && picked == (if accepted then [options[idx]] else [])
      && size == WindowSize(tty.height, RowSpan(|header|, tty.width), |options|)
      && WindowHolds(idx, start, size, |options|)
      && start == StartAfter(input, 0, 0, size, |options|)
      && (OneRowEach(options, tty.width) ==>
            ShowsWhatFits(tty.screen, Frame(header, options, idx, start, size, tty.width)))
  {
    hide ReadKey, Frame, ShowsWhatFits, OneRowEach, RowSpan, Wrapped;
    picked, idx, start, size := [], 0, 0, 0;
    var count := |options|;
    if count == 0 {
      return;
    }
    var i, left := 0, input;
    tty.Clear();
    var headerRows := RowSpan(|header|, tty.width);
    var windowSize := WindowSize(tty.height, headerRows, count);
    var windowStart := 0;
    ghost var total := 0;
    ghost var moved, accepted := Intent(input).0, Intent(input).1;
    DivideUnique(0, count, 0, 0);
    var rowsPrinted: nat := DrawFrame(tty, header, options, i, windowStart, windowSize);
    while true
      invariant tty.Valid()
      invariant WindowHolds(i, windowStart, windowSize, count)
      invariant i == total % count
      invariant StartAfter(left, total, windowStart, windowSize, count) == StartAfter(input, 0, 0, windowSize, count)
      invariant total + Intent(left).0 == moved && Intent(left).1 == accepted
      invariant OneRowEach(options, tty.width) ==>
        && ShowsWhatFits(tty.screen, Frame(header, options, i, windowStart, windowSize, tty.width))
        && rowsPrinted >= tty.screen.cursor
      decreases |left|
    {
      var (key, rest) := ReadKey(left);
      left := rest;
      match key {
        case Cancel =>
          break;
        case Accept =>
          picked := [options[i]];
          break;
        case Up =>
          StepAddsUp(total, -1, i, count);
          i, total := Wrapped(i, -1, count), total - 1;
        case Down =>
          StepAddsUp(total, 1, i, count);
          i, total := Wrapped(i, 1, count), total + 1;
        case Other =>
      }
      windowStart := Scrolled(i, windowStart, windowSize);
      tty.CursorUp(rowsPrinted);
      rowsPrinted := DrawFrame(tty, header, options, i, windowStart, windowSize);
    }
    idx, start, size := i, windowStart, windowSize;
  }

  /** One draw from the first row, and what it means for the screen: going up by the rows counted leads
      back to the first row. */
  method DrawFrame(tty: Tty, header: string, options: seq<string>, idx: nat, start: nat, size: nat)
    returns (total: nat)
    requires tty.Valid() && WindowHolds(idx, start, size, |options|)
    requires OneRowEach(options, tty.width) ==> tty.screen.cursor == 0
    modifies tty
    ensures tty.Valid()
    ensures OneRowEach(options, tty.width) ==>
      && ShowsWhatFits(tty.screen, Frame(header, options, idx, start, size, tty.width))
      && total >= tty.screen.cursor
  {
    hide Frame, PutAll, OneRowEach, CountedRows, RowSpan;
    ghost var was := tty.screen;
    total := Draw(tty, header, options, idx, start, size);
    if OneRowEach(options, tty.width) {
      CountIsExact(header, options, idx, start, size, tty.width);
      RedrawShows(was, Frame(header, options, idx, start, size, tty.width));
    }
  }
}
