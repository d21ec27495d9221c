/** A terminal screen: rows of text and a cursor that stays in the first column between writes. */
module Terminal {
  import opened Basics

  datatype Screen = Screen(rows: seq<string>, cursor: nat)

  predicate ValidScreen(s: Screen) {
    s.cursor < |s.rows|
  }

  function Blanks(n: nat): seq<string> {
    seq(n, _ => "")
  }

  /** Fill the cursor's row and go to the next one, scrolling at the bottom. */
  function Put(s: Screen, row: string): (r: Screen)
    requires ValidScreen(s)
    ensures ValidScreen(r) && |r.rows| == |s.rows|
  {
    var rows := s.rows[s.cursor := row];
    if s.cursor + 1 < |rows| then Screen(rows, s.cursor + 1)
    else Screen(rows[1..] + [""], s.cursor)
  }

  function PutAll(s: Screen, text: seq<string>): (r: Screen)
    requires ValidScreen(s)
    ensures ValidScreen(r) && |r.rows| == |s.rows|
  {
    if text == [] then s else Put(PutAll(s, text[..|text| - 1]), text[|text| - 1])
  }

  /** Text that leaves the cursor on the screen does not scroll: it replaces exactly its rows. */
  lemma {:induction false} PutAllFits(s: Screen, text: seq<string>)
    requires ValidScreen(s) && s.cursor + |text| < |s.rows|
    ensures PutAll(s, text) ==
            Screen(s.rows[..s.cursor] + text + s.rows[s.cursor + |text|..], s.cursor + |text|)
  {
    if text == [] {
      assert s.rows == s.rows[..s.cursor] + [] + s.rows[s.cursor..];
    } else {
      var init := text[..|text| - 1];
      PutAllFits(s, init);
      assert text == init + [text[|text| - 1]];
    }
  }

  lemma {:induction false} PutAtBottom(s: Screen, row: string)
    requires ValidScreen(s) && s.cursor == |s.rows| - 1
    ensures Put(s, row) == Screen((s.rows[..s.cursor] + [row])[1..] + [""], s.cursor)
  {
    assert s.rows[s.cursor := row] == s.rows[..s.cursor] + [row];
  }

  /** Text that does not: its last rows stay, above one blank row. */
  lemma {:induction false} PutAllScrolls(s: Screen, text: seq<string>)
    requires ValidScreen(s) && s.cursor == 0 && |text| >= |s.rows|
    ensures PutAll(s, text) == Screen(text[|text| - |s.rows| + 1..] + [""], |s.rows| - 1)
    decreases |text|, 1
  {
    hide PutAll, Put;
    BeforeLast(s, text);
    LastPut(s, text);
    var before, last := PutAll(s, text[..|text| - 1]), text[|text| - 1];
    PutAtBottom(before, last);
    var from := |text| - |s.rows|;
    assert text[from..|text| - 1] + [last] == text[from..];
    assert text[from..][1..] == text[from + 1..];
  }

  lemma {:induction false} BeforeLast(s: Screen, text: seq<string>)
    requires ValidScreen(s) && s.cursor == 0 && |text| >= |s.rows|
    ensures var before := PutAll(s, text[..|text| - 1]);
            before.cursor == |s.rows| - 1 && before.rows[..before.cursor] == text[|text| - |s.rows|..|text| - 1]
    decreases |text|, 0
  {
    hide PutAll, Put;
    var n, init := |s.rows|, text[..|text| - 1];
    var from := |text| - n;
    if |init| >= n {
      PutAllScrolls(s, init);
      assert init[|init| - n + 1..] == text[from..|text| - 1];
    } else {
      PutAllFits(s, init);
      assert s.rows[..0] + init + s.rows[n - 1..] == init + s.rows[n - 1..];
      assert text[from..|text| - 1] == init;
    }
  }

  lemma {:induction false} NothingPut(s: Screen)
    requires ValidScreen(s)
    ensures PutAll(s, []) == s
  {
  }

  lemma {:induction false} LastPut(s: Screen, text: seq<string>)
    requires ValidScreen(s) && text != []
    ensures PutAll(s, text) == Put(PutAll(s, text[..|text| - 1]), text[|text| - 1])
  {
  }

  lemma {:induction false} PutAllConcat(s: Screen, a: seq<string>, b: seq<string>)
    requires ValidScreen(s)
    ensures PutAll(s, a + b) == PutAll(PutAll(s, a), b)
  {
    if b == [] {
      assert a + b == a;
    } else {
      var init := b[..|b| - 1];
      assert (a + b)[..|a + b| - 1] == a + init;
      PutAllConcat(s, a, init);
    }
  }

  /** The physical rows a line of text takes. */
  function Wrap(text: string, width: nat): seq<string>
    requires width > 0
  {
    if |text| <= width then [text] else [text[..width]] + Wrap(text[width..], width)
  }

  /** The row count the menu code computes for a text. */
  function RowSpan(length: nat, width: nat): nat
    requires width > 0
  {
    var rows := (length + width - 1) / width;
    if rows < 1 then 1 else rows
  }

  lemma {:induction false} WrapRowSpan(text: string, width: nat)
    requires width > 0
    ensures |Wrap(text, width)| == RowSpan(|text|, width)
  {
    if |text| > width {
      WrapRowSpan(text[width..], width);
      DivideStep(|text| - 1, width);
    } else {
      DivideSmall(|text|, width);
    }
  }

  lemma {:induction false} DivideStep(a: int, n: nat)
    requires n > 0
    ensures (a + n) / n == a / n + 1
  {
    var q, r := a / n, a % n;
    assert a + n == (q + 1) * n + r;
    DivideUnique(a + n, n, q + 1, r);
  }

  lemma {:induction false} DivideSmall(length: nat, n: nat)
    requires n > 0 && length <= n
    ensures RowSpan(length, n) == 1
  {
    if length > 0 { DivideUnique(length + n - 1, n, 1, length - 1); }
    else { DivideUnique(n - 1, n, 0, n - 1); }
  }

  class Tty {
    const width: nat
    const height: nat
    var screen: Screen

    constructor (width: nat, height: nat)
      requires width > 0 && height > 0
      ensures Valid() && this.width == width && this.height == height
    {
      this.width, this.height := width, height;
      screen := Screen(Blanks(height), 0);
    }

    ghost predicate Valid() reads this {
      width > 0 && |screen.rows| == height && ValidScreen(screen)
    }

    method PrintLine(text: string)
      requires Valid()
      modifies `screen
      ensures Valid() && screen == PutAll(old(screen), Wrap(text, width))
    {
      var left := text;
      assert PutAll(screen, []) == screen;
      ghost var printed: seq<string> := [];
      while |left| > width
        invariant Valid()
        invariant printed + Wrap(left, width) == Wrap(text, width)
        invariant screen == PutAll(old(screen), printed)
      {
        assert Wrap(left, width) == [left[..width]] + Wrap(left[width..], width);
        var row := left[..width];
        assert (printed + [row])[..|printed|] == printed;
        assert printed + ([row] + Wrap(left[width..], width)) == (printed + [row]) + Wrap(left[width..], width);
        screen := Put(screen, row);
        printed := printed + [row];
        left := left[width..];
      }
      assert (printed + [left])[..|printed|] == printed;
      screen := Put(screen, left);
    }

    method Clear()
      requires Valid()
      modifies `screen
      ensures Valid() && screen == Screen(Blanks(height), 0)
    {
      screen := Screen(Blanks(height), 0);
    }

    method ClearBelow()
      requires Valid()
      modifies `screen
      ensures Valid()
      ensures var was := old(screen);
              screen == Screen(was.rows[..was.cursor] + Blanks(height - was.cursor), was.cursor)
    {
      screen := screen.(rows := screen.rows[..screen.cursor] + Blanks(height - screen.cursor));
    }

    /** Cursor-up stops at the first row of the screen. */
    method CursorUp(n: nat)
      requires Valid()
      modifies `screen
      ensures Valid() && screen == old(screen).(cursor := if n < old(screen.cursor) then old(screen.cursor) - n else 0)
    {
      screen := screen.(cursor := if n < screen.cursor then screen.cursor - n else 0);
    }
  }
}
