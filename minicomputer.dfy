/** The text side of the mini-computer of src/game/minicomputer.cpp: the
    twelve screen lines (ten text lines and two button lines), the layout
    of a screen from its marked-up string, selection movement, the
    accept/cancel buttons, the status lines, the price of the selection and
    the build bar. Drawing, mouse hit-testing, sounds and resource loading
    are not modelled; key names, the font width and the formatting of
    numbers come in as parameters. */
module MiniComputer {
  import opened Bits

  const CharWidth: nat := 25          // kMiniScreenCharWidth
  const CharHeight: nat := 10         // kMiniScreenCharHeight
  const TrueLineNum: nat := 12        // kMiniScreenTrueLineNum
  const NoLineSelected: int := -1     // kMiniScreenNoLineSelected
  const ScreenLeft: int := 12         // kMiniScreenLeft
  const ScreenRight: int := 121       // kMiniScreenRight
  const ButBoxLeft: int := 16         // kButBoxLeft
  const ButBoxRight: int := 114       // kButBoxRight
  const LeftBuffer: int := 3          // kMiniScreenLeftBuffer
  const MainMiniScreen: int := 1      // kMainMiniScreen
  const BuildMiniScreen: int := 2     // kBuildMiniScreen
  const StatusFirstLine: nat := 1     // kStatusMiniScreenFirstLine
  const PollTime: int := 60           // kMiniComputerPollTime, in ticks

  // The status types.
  const NoStatusData: int := -1
  const PlainTextStatus: int := 0
  const TrueFalseCondition: int := 1
  const IntegerValue: int := 2
  const SmallFixedValue: int := 3
  const IntegerMinusValue: int := 4
  const SmallFixedMinusValue: int := 5
  const MaxStatusTypeValue: int := 5

  datatype Selectable = CannotSelect | Selectable | SelectDim
  datatype LineKind = PlainLineKind | ButtonOffLineKind | ButtonOnLineKind
  /** kNoLineButton, kInLineButton (accept) and kOutLineButton (cancel). */
  datatype Button = NoLineButton | InLineButton | OutLineButton

  /** miniScreenLineType. `sourceData` is a base-object number, -1 for
      none. */
  datatype Line = Line(
    text: string, hiliteLeft: int, hiliteRight: int, whichButton: Button, selectable: Selectable,
    underline: bool, lineKind: LineKind, sourceData: int, value: int,
    statusType: int, whichStatus: int, statusPlayer: int, negativeValue: int,
    statusFalse: string, statusTrue: string, statusString: string, postString: string)

  /** A line before it was first cleared. */
  const BlankLine := Line("", 0, 0, NoLineButton, CannotSelect, false, PlainLineKind, -1, 0,
                          NoStatusData, 0, 0, 0, "", "", "", "")

  // ---------------------------------------------------------------------
  // Strings

  function Spaces(n: nat): (s: string)
    ensures |s| == n && forall i :: 0 <= i < n ==> s[i] == ' '
  {
    seq(n, _ => ' ')
  }

  /** pad_to: a string shorter than `width` is centred in exactly `width`
      runes, the odd space going to the right; a longer one is left as
      it is. */
  function PadTo(s: string, width: nat): (r: string)
    ensures |s| >= width ==> r == s
    ensures |s| < width ==>
              var lead := (width - |s|) / 2;
              |r| == width && r[lead..lead + |s|] == s
              && (forall i :: 0 <= i < lead ==> r[i] == ' ')
              && (forall i :: lead + |s| <= i < width ==> r[i] == ' ')
              && lead <= width - |s| - lead <= lead + 1
  {
    if |s| < width then Spaces((width - |s|) / 2) + s + Spaces((1 + width - |s|) / 2) else s
  }

  /** mCopyBlankLineString: a prefix of the text of at most 25 runes, the
      whole text when it fits. */
  function CopyBlankLine(s: string): (r: string)
    ensures |r| <= CharWidth && r <= s
    ensures |s| <= CharWidth ==> r == s
    ensures |s| > CharWidth ==> |r| == CharWidth
  {
    if |s| > CharWidth then s[..CharWidth] else s
  }

  /** What ClearMiniScreenLines does to one line; the status fields and
      the value are left alone. */
  function Cleared(l: Line): Line {
    l.(text := "", hiliteLeft := 0, hiliteRight := 0, whichButton := NoLineButton,
       selectable := CannotSelect, underline := false, lineKind := PlainLineKind, sourceData := -1)
  }

  /** Clearing blanks every line: no text, no highlight, no button,
      nothing selectable, no underline, a plain line about no object;
      every status field and the value stay as they were. */
  function ClearedAll(s: seq<Line>): (c: seq<Line>)
    ensures |c| == |s|
    ensures forall i :: 0 <= i < |s| ==>
              c[i].text == "" && c[i].hiliteLeft == 0 && c[i].hiliteRight == 0 && c[i].whichButton == NoLineButton
              && c[i].selectable == CannotSelect && !c[i].underline && c[i].lineKind == PlainLineKind
              && c[i].sourceData == -1
    ensures forall i :: 0 <= i < |s| ==>
              c[i].(text := s[i].text, hiliteLeft := s[i].hiliteLeft, hiliteRight := s[i].hiliteRight,
                    whichButton := s[i].whichButton, selectable := s[i].selectable, underline := s[i].underline,
                    lineKind := s[i].lineKind, sourceData := s[i].sourceData) == s[i]
  {
    seq(|s|, i requires 0 <= i < |s| => Cleared(s[i]))
  }

  /** Clearing cleared lines changes nothing more. */
  lemma ClearedAllIdempotent(s: seq<Line>)
    ensures ClearedAll(ClearedAll(s)) == ClearedAll(s)
  {
    var c := ClearedAll(s);
    assert forall i :: 0 <= i < |s| ==> ClearedAll(c)[i] == c[i];
  }

  // ---------------------------------------------------------------------
  // Layout of a screen

  /** The key names the buttons show, kKeyNameLength, and the width of a
      rune of the computer font. */
  datatype Keys = Keys(acceptName: string, cancelName: string, keyNameLength: nat, fontWidth: int)

  /** The layout loop's state: the lines, the current line, the escape
      flag and the selected line. Line 12 means the layout has stopped. */
  datatype LState = LState(lines: seq<Line>, line: nat, escape: bool, select: int)

  predicate LOk(st: LState) {
    |st.lines| == TrueLineNum && st.line <= TrueLineNum
  }

  /** The left and right edges of the rectangle in force on a line: the
      screen for the ten text lines, the button box from line 10 on. */
  function RectLeft(line: nat): int {
    if line < CharHeight then ScreenLeft else ButBoxLeft
  }

  function RectRight(line: nat): int {
    if line < CharHeight then ScreenRight else ButBoxRight
  }

  function Cur(st: LState): Line
    requires LOk(st) && st.line < TrueLineNum
  {
    st.lines[st.line]
  }

  function SetCur(st: LState, l: Line): (st': LState)
    requires LOk(st) && st.line < TrueLineNum
    ensures LOk(st') && st'.line == st.line && st'.escape == st.escape && st'.select == st.select
  {
    st.(lines := st.lines[st.line := l])
  }

  function Append(st: LState, s: string): LState
    requires LOk(st) && st.line < TrueLineNum
  {
    SetCur(st, Cur(st).(text := Cur(st).text + s))
  }

  /** \I and \O: the line becomes a button showing the padded key name,
      highlighted over that name. */
  function AddButton(st: LState, keys: Keys, b: Button, name: string): LState
    requires LOk(st) && st.line < TrueLineNum
  {
    var l := Cur(st);
    var left := RectLeft(st.line) + LeftBuffer;
    var t := l.text + PadTo(name, keys.keyNameLength);
    SetCur(st, l.(lineKind := ButtonOffLineKind, whichButton := b,
                  hiliteLeft := left + keys.fontWidth * |l.text|, text := t,
                  hiliteRight := left + keys.fontWidth * |t| - 1))
  }

  /** The rune after a backslash. */
  function Escaped(st: LState, keys: Keys, r: char): (st': LState)
    requires LOk(st) && st.line < TrueLineNum
    ensures LOk(st') && st'.escape == st.escape
  {
    if r == 'u' then SetCur(st, Cur(st).(underline := true)).(line := st.line + 1)
    else if r == 'x' then st.(line := st.line + 1)
    else if r == 'S' then
      var l := Cur(st).(selectable := Selectable);
      if st.select == NoLineSelected
      then SetCur(st, l.(hiliteLeft := RectLeft(st.line), hiliteRight := RectRight(st.line))).(select := st.line)
      else SetCur(st, l)
    else if r == 'I' then AddButton(st, keys, InLineButton, keys.acceptName)
    else if r == 'O' then AddButton(st, keys, OutLineButton, keys.cancelName)
    else if r == '\\' then Append(st, "\\")
    else st
  }

  /** One rune of the screen string, before the overflow is wrapped. */
  function RuneStep(st: LState, keys: Keys, r: char): (st': LState)
    requires LOk(st) && st.line < TrueLineNum
    ensures LOk(st')
  {
    if st.escape then Escaped(st.(escape := false), keys, r)
    else if r == '\\' then st.(escape := true)
    else Append(st, [r])
  }

  /** The overflow loop: runes past the 25th move to the next line,
      replacing its text, until the line fits or the layout stops. */
  function Wrap(st: LState): (st': LState)
    requires LOk(st)
    ensures LOk(st') && st'.escape == st.escape && st'.select == st.select && st.line <= st'.line
    decreases TrueLineNum - st.line
  {
    if st.line < TrueLineNum && |Cur(st).text| > CharWidth then
      var t := Cur(st).text;
      var s1 := SetCur(st, Cur(st).(text := t[..CharWidth])).(line := st.line + 1);
      if s1.line == TrueLineNum then s1
      else Wrap(SetCur(s1, Cur(s1).(text := t[CharWidth..])))
    else st
  }

  /** The layout of the runes of `s` from index `k` on. */
  function LayoutFrom(st: LState, keys: Keys, s: string, k: nat): (st': LState)
    requires LOk(st) && k <= |s|
    ensures LOk(st')
    decreases |s| - k
  {
    if st.line == TrueLineNum || k == |s| then st
    else LayoutFrom(Wrap(RuneStep(st, keys, s[k])), keys, s, k + 1)
  }

  /** MakeMiniScreenFromIndString on the lines, from cleared lines and no
      selection. */
  function Layout(lines: seq<Line>, keys: Keys, s: string): LState
    requires |lines| == TrueLineNum
  {
    LayoutFrom(LState(ClearedAll(lines), 0, false, NoLineSelected), keys, s, 0)
  }

  /** Every line holds at most 25 runes. */
  predicate Fits(lines: seq<Line>) {
    forall j :: 0 <= j < |lines| ==> |lines[j].text| <= CharWidth
  }

  /** Every line but the current one fits. */
  predicate FitsBut(st: LState) {
    forall j :: 0 <= j < |st.lines| && j != st.line ==> |st.lines[j].text| <= CharWidth
  }

  lemma {:induction false} WrapFits(st: LState)
    requires LOk(st) && FitsBut(st)
    ensures Fits(Wrap(st).lines) || Wrap(st).line == TrueLineNum
    ensures Fits(Wrap(st).lines) || FitsBut(Wrap(st))
    decreases TrueLineNum - st.line
  {
    if st.line < TrueLineNum && |Cur(st).text| > CharWidth {
      var t := Cur(st).text;
      var s1 := SetCur(st, Cur(st).(text := t[..CharWidth])).(line := st.line + 1);
      if s1.line < TrueLineNum {
        var s2 := SetCur(s1, Cur(s1).(text := t[CharWidth..]));
        assert FitsBut(s2);
        WrapFits(s2);
      } else {
        assert Fits(s1.lines);
      }
    } else if st.line < TrueLineNum {
      assert Fits(st.lines);
    }
  }

  /** A rune changes only the current line. */
  lemma RuneStepFrame(st: LState, keys: Keys, r: char)
    requires LOk(st) && st.line < TrueLineNum
    ensures var st' := RuneStep(st, keys, r);
            (st'.line == st.line || st'.line == st.line + 1)
            && forall j :: 0 <= j < TrueLineNum && j != st.line ==> st'.lines[j] == st.lines[j]
  {
  }

  /** After every rune the current line holds at most 25 runes, so the
      laid-out screen has no line longer than 25 runes. */
  lemma {:induction false} LayoutFromFits(st: LState, keys: Keys, s: string, k: nat)
    requires LOk(st) && k <= |s| && Fits(st.lines)
    ensures Fits(LayoutFrom(st, keys, s, k).lines)
    decreases |s| - k
  {
    if st.line < TrueLineNum && k < |s| {
      var st1 := RuneStep(st, keys, s[k]);
      RuneStepFrame(st, keys, s[k]);
      if st1.line == TrueLineNum {
        assert Fits(st1.lines);
        assert Wrap(st1) == st1;
      } else {
        assert FitsBut(st1);
        WrapFits(st1);
        var st2 := Wrap(st1);
        if !Fits(st2.lines) {
          assert st2.line == TrueLineNum && FitsBut(st2);
          assert Fits(st2.lines);
        }
      }
      LayoutFromFits(Wrap(st1), keys, s, k + 1);
    }
  }

  lemma LayoutFits(lines: seq<Line>, keys: Keys, s: string)
    requires |lines| == TrueLineNum
    ensures Fits(Layout(lines, keys, s).lines)
  {
    LayoutFromFits(LState(ClearedAll(lines), 0, false, NoLineSelected), keys, s, 0);
  }

  /** The selection rule as an invariant of the layout: with no selection
      no line is selectable yet; otherwise the selected line is marked
      selectable, lies at or before the current line, and no line before
      it is selectable. */
  predicate SelectionOk(st: LState) {
    |st.lines| == TrueLineNum
    && (st.select == NoLineSelected ==> forall j :: 0 <= j < TrueLineNum ==> st.lines[j].selectable == CannotSelect)
    && (st.select != NoLineSelected ==>
          0 <= st.select <= st.line && st.select < TrueLineNum && st.lines[st.select].selectable == Selectable
          && forall j :: 0 <= j < st.select ==> st.lines[j].selectable == CannotSelect)
  }

  lemma RuneStepSelection(st: LState, keys: Keys, r: char)
    requires LOk(st) && st.line < TrueLineNum && SelectionOk(st)
    requires forall j :: st.line < j < TrueLineNum ==> st.lines[j].selectable == CannotSelect
    ensures var st' := RuneStep(st, keys, r);
            SelectionOk(st') && forall j :: st'.line < j < TrueLineNum ==> st'.lines[j].selectable == CannotSelect
  {
  }

  /** Replacing the text of the current line leaves every line's
      selectability as it was. */
  lemma TextKeepsSelectable(st: LState, t: string)
    requires LOk(st) && st.line < TrueLineNum
    ensures forall j :: 0 <= j < TrueLineNum ==>
              SetCur(st, Cur(st).(text := t)).lines[j].selectable == st.lines[j].selectable
  {
  }

  lemma {:induction false} WrapSelection(st: LState)
    requires LOk(st) && SelectionOk(st)
    requires forall j :: st.line < j < TrueLineNum ==> st.lines[j].selectable == CannotSelect
    ensures var st' := Wrap(st);
            SelectionOk(st') && forall j :: st'.line < j < TrueLineNum ==> st'.lines[j].selectable == CannotSelect
    decreases TrueLineNum - st.line
  {
    if st.line < TrueLineNum && |Cur(st).text| > CharWidth {
      var t := Cur(st).text;
      var s1 := SetCur(st, Cur(st).(text := t[..CharWidth])).(line := st.line + 1);
      TextKeepsSelectable(st, t[..CharWidth]);
      assert SelectionOk(s1);
      if s1.line < TrueLineNum {
        var s2 := SetCur(s1, Cur(s1).(text := t[CharWidth..]));
        TextKeepsSelectable(s1, t[CharWidth..]);
        assert SelectionOk(s2);
        assert Wrap(st) == Wrap(s2);
        WrapSelection(s2);
      } else {
        assert Wrap(st) == s1;
      }
    }
  }

  lemma {:induction false} LayoutFromSelection(st: LState, keys: Keys, s: string, k: nat)
    requires LOk(st) && k <= |s| && SelectionOk(st)
    requires forall j :: st.line < j < TrueLineNum ==> st.lines[j].selectable == CannotSelect
    ensures SelectionOk(LayoutFrom(st, keys, s, k))
    ensures st.select != NoLineSelected ==> LayoutFrom(st, keys, s, k).select == st.select
    decreases |s| - k
  {
    if st.line < TrueLineNum && k < |s| {
      RuneStepSelection(st, keys, s[k]);
      WrapSelection(RuneStep(st, keys, s[k]));
      LayoutFromSelection(Wrap(RuneStep(st, keys, s[k])), keys, s, k + 1);
    }
  }

  /** Only the first line marked \S becomes the selection: the selection
      is the lowest-numbered selectable line, and there is none exactly
      when no line was marked. */
  lemma LayoutSelection(lines: seq<Line>, keys: Keys, s: string)
    requires |lines| == TrueLineNum
    ensures var st := Layout(lines, keys, s);
            (st.select == NoLineSelected <==> forall j :: 0 <= j < TrueLineNum ==> st.lines[j].selectable == CannotSelect)
            && (st.select != NoLineSelected ==>
                  0 <= st.select < TrueLineNum && st.lines[st.select].selectable == Selectable
                  && forall j :: 0 <= j < st.select ==> st.lines[j].selectable == CannotSelect)
  {
    LayoutFromSelection(LState(ClearedAll(lines), 0, false, NoLineSelected), keys, s, 0);
  }

  /** An escaped rune other than u, x, S, I, O and the backslash is
      dropped; an escaped backslash is kept as one backslash. */
  lemma EscapeRules(st: LState, keys: Keys, r: char)
    requires LOk(st) && st.line < TrueLineNum && st.escape
    ensures r !in "uxSIO\\" ==> RuneStep(st, keys, r) == st.(escape := false)
    ensures r == '\\' ==> RuneStep(st, keys, r).lines[st.line].text == st.lines[st.line].text + "\\"
    ensures r == 'x' ==> RuneStep(st, keys, r) == st.(escape := false, line := st.line + 1)
  {
  }

  /** A line that fits is not wrapped. */
  lemma WrapFitting(st: LState)
    requires LOk(st) && (st.line < TrueLineNum ==> |Cur(st).text| <= CharWidth)
    ensures Wrap(st) == st
  {
  }

  /** The rune of one step of a worked layout, its wrap doing nothing. */
  lemma ExampleStep(st: LState, keys: Keys, r: char)
    requires LOk(st) && st.line < TrueLineNum
    requires var st' := RuneStep(st, keys, r); st'.line < TrueLineNum ==> |Cur(st').text| <= CharWidth
    ensures Wrap(RuneStep(st, keys, r)) == RuneStep(st, keys, r)
  {
    WrapFitting(RuneStep(st, keys, r));
  }

  /** A worked layout: the escaped q vanishes and the doubled backslash
      leaves one. */
  lemma EscapeExample(lines: seq<Line>, keys: Keys)
    requires |lines| == TrueLineNum
    ensures var st := Layout(lines, keys, "a\\q\\\\");
            st.lines[0].text == "a\\" && st.line == 0 && st.select == NoLineSelected
  {
    var s := "a\\q\\\\";
    var st0 := LState(ClearedAll(lines), 0, false, NoLineSelected);
    var st1 := RuneStep(st0, keys, s[0]);
    ExampleStep(st0, keys, s[0]);
    var st2 := RuneStep(st1, keys, s[1]);
    ExampleStep(st1, keys, s[1]);
    var st3 := RuneStep(st2, keys, s[2]);
    ExampleStep(st2, keys, s[2]);
    assert st3.lines[0].text == "a" && st3.line == 0 && !st3.escape && st3.select == -1;
    var st4 := RuneStep(st3, keys, s[3]);
    ExampleStep(st3, keys, s[3]);
    var st5 := RuneStep(st4, keys, s[4]);
    ExampleStep(st4, keys, s[4]);
    assert st5.lines[0].text == "a\\" && st5.line == 0 && st5.select == -1;
    assert |s| == 5;
    assert LayoutFrom(st4, keys, s, 4) == LayoutFrom(st5, keys, s, 5) == st5;
    assert LayoutFrom(st3, keys, s, 3) == LayoutFrom(st4, keys, s, 4);
    assert LayoutFrom(st2, keys, s, 2) == LayoutFrom(st3, keys, s, 3);
    assert LayoutFrom(st1, keys, s, 1) == LayoutFrom(st2, keys, s, 2);
    assert LayoutFrom(st0, keys, s, 0) == LayoutFrom(st1, keys, s, 1);
  }

  /** A worked layout: \x ends the first line and \S selects the
      second. */
  lemma SelectExample(lines: seq<Line>, keys: Keys)
    requires |lines| == TrueLineNum
    ensures var st := Layout(lines, keys, "\\xc\\S");
            st.lines[0].text == "" && st.lines[1].text == "c" && st.select == 1
            && st.lines[1].hiliteLeft == ScreenLeft && st.lines[1].hiliteRight == ScreenRight
  {
    var s := "\\xc\\S";
    var st0 := LState(ClearedAll(lines), 0, false, NoLineSelected);
    var st1 := RuneStep(st0, keys, s[0]);
    ExampleStep(st0, keys, s[0]);
    var st2 := RuneStep(st1, keys, s[1]);
    ExampleStep(st1, keys, s[1]);
    assert st2.lines[0].text == "" && st2.lines[1].text == "" && st2.line == 1 && !st2.escape && st2.select == -1;
    var st3 := RuneStep(st2, keys, s[2]);
    ExampleStep(st2, keys, s[2]);
    var st4 := RuneStep(st3, keys, s[3]);
    ExampleStep(st3, keys, s[3]);
    var st5 := RuneStep(st4, keys, s[4]);
    ExampleStep(st4, keys, s[4]);
    assert |s| == 5;
    assert LayoutFrom(st4, keys, s, 4) == LayoutFrom(st5, keys, s, 5) == st5;
    assert LayoutFrom(st3, keys, s, 3) == LayoutFrom(st4, keys, s, 4);
    assert LayoutFrom(st2, keys, s, 2) == LayoutFrom(st3, keys, s, 3);
    assert LayoutFrom(st1, keys, s, 1) == LayoutFrom(st2, keys, s, 2);
    assert LayoutFrom(st0, keys, s, 0) == LayoutFrom(st1, keys, s, 1);
  }

  // ---------------------------------------------------------------------
  // Selection movement

  /** The wrap of minicomputer_handle_move: one step stays within the ten
      text lines. */
  function Wrap10(n: int): int {
    if n < 0 then n + CharHeight as int else if n >= CharHeight as int then n - CharHeight as int else n
  }

  /** The number of steps of `d` that lead from text line `a` to text
      line `b`. */
  function Dist(a: int, b: int, d: int): int {
    var k := if d == 1 then b - a else a - b;
    if k < 0 then k + 10 else k
  }

  lemma DistStep(first: int, cur: int, d: int)
    requires 0 <= first < 10 && 0 <= cur < 10 && (d == -1 || d == 1) && Dist(first, cur, d) < 9
    ensures 0 <= Wrap10(cur + d) < 10 && Dist(first, Wrap10(cur + d), d) == Dist(first, cur, d) + 1
  {
  }

  lemma DistUnique(first: int, a: int, b: int, d: int)
    requires 0 <= first < 10 && 0 <= a < 10 && 0 <= b < 10 && (d == -1 || d == 1)
    requires Dist(first, a, d) == Dist(first, b, d)
    ensures a == b
  {
  }

  /** One step of the search from `first`: a line that cannot be selected,
      with a selectable line `t` no closer, passes the search on to the next
      line, which is still no further than `t`. */
  lemma SearchStep(s: seq<Line>, first: int, cur: int, t: int, d: int)
    requires |s| == TrueLineNum && 0 <= first < CharHeight && 0 <= cur < CharHeight && 0 <= t < CharHeight
    requires d == -1 || d == 1
    requires s[cur].selectable == CannotSelect && s[t].selectable != CannotSelect
    requires Dist(first, cur, d) <= Dist(first, t, d)
    ensures var next := Wrap10(cur + d);
            0 <= next < CharHeight && Dist(first, cur, d) < Dist(first, next, d) <= Dist(first, t, d)
            && Nearest(s, cur, d, CharHeight - 1 - Dist(first, cur, d)) == Nearest(s, next, d, CharHeight - 1 - Dist(first, next, d))
  {
    if Dist(first, cur, d) == Dist(first, t, d) {
      DistUnique(first, cur, t, d);
      assert false;
    }
    DistStep(first, cur, d);
  }

  /** The do-while of minicomputer_handle_move from text line `cur`: the
      first line in `d` steps that can be selected, looking at most `fuel`
      steps further. */
  function Nearest(lines: seq<Line>, cur: int, d: int, fuel: nat): (r: int)
    requires |lines| == TrueLineNum && 0 <= cur < CharHeight && (d == -1 || d == 1)
    ensures 0 <= r < CharHeight
    decreases fuel
  {
    if lines[cur].selectable != CannotSelect || fuel == 0 then cur
    else Nearest(lines, Wrap10(cur + d), d, fuel - 1)
  }

  /** minicomputer_handle_move on the lines and the selection: nothing
      without a selection; otherwise the old line loses its highlight and
      the nearest selectable text line in `d` is selected and highlighted
      across the screen. */
  function Moved(lines: seq<Line>, select: int, d: int): (r: (seq<Line>, int))
    requires |lines| == TrueLineNum && (select == NoLineSelected || 0 <= select < TrueLineNum)
    requires d == -1 || d == 1
    ensures |r.0| == TrueLineNum && (r.1 == NoLineSelected || 0 <= r.1 < CharHeight)
  {
    if select == NoLineSelected then (lines, select)
    else
      var cur := Nearest(lines, Wrap10(select + d), d, CharHeight - 1);
      var dark := lines[select := lines[select].(hiliteLeft := 0, hiliteRight := 0)];
      (dark[cur := dark[cur].(hiliteLeft := ScreenLeft, hiliteRight := ScreenRight)], cur)
  }

  /** minicomputer_handle_move from a selected line, when some text line
      can be selected: the nearest selectable line in `d` is highlighted,
      the line left behind is darkened, and no other line changes. */
  lemma MovedMeaning(lines: seq<Line>, select: int, d: int)
    requires |lines| == TrueLineNum && 0 <= select < TrueLineNum && (d == -1 || d == 1)
    requires exists j :: 0 <= j < CharHeight && lines[j].selectable != CannotSelect
    ensures var r := Moved(lines, select, d);
            var first := Wrap10(select + d);
            var c := r.1;
            0 <= c < CharHeight && lines[c].selectable != CannotSelect
            && (forall m :: 0 <= m < CharHeight && Dist(first, m, d) < Dist(first, c, d)
                  ==> lines[m].selectable == CannotSelect)
            && r.0[c] == lines[c].(hiliteLeft := ScreenLeft, hiliteRight := ScreenRight)
            && (select != c ==> r.0[select] == lines[select].(hiliteLeft := 0, hiliteRight := 0))
            && forall j :: 0 <= j < TrueLineNum && j != c && j != select ==> r.0[j] == lines[j]
  {
    var t :| 0 <= t < CharHeight && lines[t].selectable != CannotSelect;
    var first := Wrap10(select + d);
    NearestMeaning(lines, first, first, d, t);
  }

  /** When some text line can be selected, the move lands on the nearest
      one: every line passed over on the way cannot be selected. */
  lemma {:induction false} NearestMeaning(lines: seq<Line>, first: int, cur: int, d: int, t: int)
    requires |lines| == TrueLineNum && 0 <= first < CharHeight && 0 <= cur < CharHeight && (d == -1 || d == 1)
    requires 0 <= t < CharHeight && lines[t].selectable != CannotSelect && Dist(first, cur, d) <= Dist(first, t, d)
    requires forall m :: 0 <= m < CharHeight && Dist(first, m, d) < Dist(first, cur, d) ==> lines[m].selectable == CannotSelect
    ensures var r := Nearest(lines, cur, d, CharHeight - 1 - Dist(first, cur, d));
            lines[r].selectable != CannotSelect
            && forall m :: 0 <= m < CharHeight && Dist(first, m, d) < Dist(first, r, d) ==> lines[m].selectable == CannotSelect
    decreases CharHeight - Dist(first, cur, d)
  {
    if lines[cur].selectable == CannotSelect {
      if Dist(first, cur, d) == Dist(first, t, d) {
        DistUnique(first, cur, t, d);
      }
      DistStep(first, cur, d);
      var next := Wrap10(cur + d);
      forall m | 0 <= m < CharHeight && Dist(first, m, d) < Dist(first, next, d)
        ensures lines[m].selectable == CannotSelect
      {
        if Dist(first, m, d) == Dist(first, cur, d) {
          DistUnique(first, m, cur, d);
        }
      }
      NearestMeaning(lines, first, next, d, t);
    }
  }

  // ---------------------------------------------------------------------
  // Buttons and keys

  /** minicomputer_handle_action on one line: a line showing `button`
      lights up on a press and goes dark on a release. */
  function Pressed(l: Line, button: Button, down: bool): Line {
    if l.whichButton != button then l
    else if down then (if l.lineKind != ButtonOnLineKind then l.(lineKind := ButtonOnLineKind) else l)
    else (if l.lineKind != ButtonOffLineKind then l.(lineKind := ButtonOffLineKind) else l)
  }

  /** Whether the button's action runs for this line: on a release of a
      line that was not already dark. */
  function Fires(l: Line, button: Button, down: bool): bool {
    l.whichButton == button && !down && l.lineKind != ButtonOffLineKind
  }

  /** minicomputer_handle_action on every line. */
  function PressedAll(s: seq<Line>, button: Button, down: bool): (r: seq<Line>)
    ensures |r| == |s| && forall j :: 0 <= j < |s| ==> r[j] == Pressed(s[j], button, down)
  {
    seq(|s|, j requires 0 <= j < |s| => Pressed(s[j], button, down))
  }

  function FireCount(s: seq<Line>, button: Button, down: bool): nat {
    if |s| == 0 then 0
    else FireCount(s[..|s| - 1], button, down) + (if Fires(s[|s| - 1], button, down) then 1 else 0)
  }

  /** A press followed by a release runs the action once; a second
      release does not run it again, and a press never does. */
  lemma PressThenRelease(l: Line, button: Button)
    requires l.whichButton == button
    ensures Fires(Pressed(l, button, true), button, false)
    ensures !Fires(Pressed(Pressed(l, button, true), button, false), button, false)
    ensures !Fires(l, button, true)
  {
  }

  /** The key bits kCompAcceptKey, kCompCancelKey, kCompUpKey and
      kCompDownKey. */
  datatype KeyBits = KeyBits(accept: bv32, cancel: bv32, up: bv32, down: bv32)

  /** The buttons react to any change of their key. */
  predicate Changed(newKeys: bv32, oldKeys: bv32, key: bv32) {
    (newKeys ^ oldKeys) & key != 0
  }

  /** The arrows react only to a key that is newly pressed. */
  predicate NewlyPressed(newKeys: bv32, oldKeys: bv32, key: bv32) {
    (newKeys & !oldKeys) & key != 0
  }

  /** A change is detected exactly when the key's bits differ. */
  lemma KeyChange(newKeys: bv32, oldKeys: bv32, key: bv32)
    ensures Changed(newKeys, oldKeys, key) <==> newKeys & key != oldKeys & key
  {
    XorAnd(newKeys, oldKeys, key);
    XorZero(newKeys & key, oldKeys & key);
  }

  /** A newly pressed key is down now and was not fully down before. */
  lemma KeyPress(newKeys: bv32, oldKeys: bv32, key: bv32)
    ensures NewlyPressed(newKeys, oldKeys, key) ==> newKeys & key != 0 && oldKeys & key != key
  {
  }

  /** What minicomputer_handle_keys leaves: the lines, the selection, and
      how often the accept and cancel actions run. */
  datatype KeysOutcome = KeysOutcome(lines: seq<Line>, select: int, accepted: nat, cancelled: nat)

  /** One minicomputer_handle_action call of minicomputer_handle_keys,
      made only when the button's key changed: the new lines and how often
      the action runs. */
  function ButtonPass(lines: seq<Line>, button: Button, changed: bool, down: bool): (seq<Line>, nat) {
    if changed then (PressedAll(lines, button, down), FireCount(lines, button, down)) else (lines, 0)
  }

  /** One minicomputer_handle_move call of minicomputer_handle_keys, made
      only on a new press of its arrow. */
  function MovePass(lines: seq<Line>, select: int, pressed: bool, d: int): (r: (seq<Line>, int))
    requires |lines| == TrueLineNum && (select == NoLineSelected || 0 <= select < TrueLineNum)
    requires d == -1 || d == 1
    ensures |r.0| == TrueLineNum && (r.1 == NoLineSelected || 0 <= r.1 < TrueLineNum)
  {
    if pressed then Moved(lines, select, d) else (lines, select)
  }

  /** What minicomputer_handle_keys reads from one poll of the keys: which
      buttons' keys changed and whether each is down now, and which arrows
      were newly pressed. */
  datatype KeyEdges = KeyEdges(acceptChanged: bool, acceptDown: bool, cancelChanged: bool, cancelDown: bool,
                               up: bool, down: bool)

  function Edges(newKeys: bv32, oldKeys: bv32, bits: KeyBits): KeyEdges {
    KeyEdges(Changed(newKeys, oldKeys, bits.accept), newKeys & bits.accept != 0,
             Changed(newKeys, oldKeys, bits.cancel), newKeys & bits.cancel != 0,
             NewlyPressed(newKeys, oldKeys, bits.up), NewlyPressed(newKeys, oldKeys, bits.down))
  }

  /** The four passes of minicomputer_handle_keys in their order: accept,
      cancel, up (the selection moves back), down (it moves on). */
  function Passes(lines: seq<Line>, select: int, e: KeyEdges): KeysOutcome
    requires |lines| == TrueLineNum && (select == NoLineSelected || 0 <= select < TrueLineNum)
  {
    var a := ButtonPass(lines, InLineButton, e.acceptChanged, e.acceptDown);
    var c := ButtonPass(a.0, OutLineButton, e.cancelChanged, e.cancelDown);
    var u := MovePass(c.0, select, e.up, -1);
    var v := MovePass(u.0, u.1, e.down, 1);
    KeysOutcome(v.0, v.1, a.1, c.1)
  }

  /** minicomputer_handle_keys as a whole. */
  function KeysSpec(lines: seq<Line>, select: int, newKeys: bv32, oldKeys: bv32, bits: KeyBits): KeysOutcome
    requires |lines| == TrueLineNum && (select == NoLineSelected || 0 <= select < TrueLineNum)
  {
    Passes(lines, select, Edges(newKeys, oldKeys, bits))
  }

  /** The passes run one after the other. */
  lemma PassesInOrder(lines: seq<Line>, select: int, e: KeyEdges,
                      a: (seq<Line>, nat), c: (seq<Line>, nat), u: (seq<Line>, int), v: (seq<Line>, int))
    requires |lines| == TrueLineNum && (select == NoLineSelected || 0 <= select < TrueLineNum)
    requires a == ButtonPass(lines, InLineButton, e.acceptChanged, e.acceptDown)
    requires c == ButtonPass(a.0, OutLineButton, e.cancelChanged, e.cancelDown)
    requires u == MovePass(c.0, select, e.up, -1)
    requires v == MovePass(u.0, u.1, e.down, 1)
    ensures Passes(lines, select, e) == KeysOutcome(v.0, v.1, a.1, c.1)
  {
  }

  /** A button's action runs only when its key changed, then once for each
      of its lines that changes state; without a new arrow press the
      selection stays. */
  lemma PassesCounts(lines: seq<Line>, select: int, e: KeyEdges)
    requires |lines| == TrueLineNum && (select == NoLineSelected || 0 <= select < TrueLineNum)
    ensures var r := Passes(lines, select, e);
            (e.acceptChanged ==> r.accepted == FireCount(lines, InLineButton, e.acceptDown))
            && (!e.acceptChanged ==> r.accepted == 0)
            && (!e.cancelChanged ==> r.cancelled == 0)
            && (!e.up && !e.down ==> r.select == select)
  {
  }

  /** Keys that have not changed since the last poll do nothing. */
  lemma KeysIdle(lines: seq<Line>, select: int, keys: bv32, bits: KeyBits)
    requires |lines| == TrueLineNum && (select == NoLineSelected || 0 <= select < TrueLineNum)
    ensures KeysSpec(lines, select, keys, keys, bits) == KeysOutcome(lines, select, 0, 0)
  {
    XorZero(keys, keys);
    assert keys & !keys == 0;
  }

  /** Pressing accept alone lights the accept buttons, runs nothing and
      moves nothing. */
  lemma AcceptPress(lines: seq<Line>, select: int, bits: KeyBits)
    requires |lines| == TrueLineNum && (select == NoLineSelected || 0 <= select < TrueLineNum)
    requires bits.accept != 0 && bits.accept & bits.cancel == 0
             && bits.accept & bits.up == 0 && bits.accept & bits.down == 0
    ensures KeysSpec(lines, select, bits.accept, 0, bits) == KeysOutcome(PressedAll(lines, InLineButton, true), select, 0, 0)
  {
    PressAlone(bits.accept, bits.cancel, bits.up, bits.down);
    NoPressFires(lines, InLineButton);
  }

  /** The key edges seen when key k alone goes down, against keys c, u and
      d that share no bit with it. */
  lemma PressAlone(k: bv32, c: bv32, u: bv32, d: bv32)
    requires k != 0 && k & c == 0 && k & u == 0 && k & d == 0
    ensures Changed(k, 0, k) && !Changed(k, 0, c) && k & k != 0
            && !NewlyPressed(k, 0, u) && !NewlyPressed(k, 0, d)
  {
  }

  /** Releasing accept alone darkens the accept buttons and runs the accept
      action once for every one that was not already dark; nothing moves. */
  lemma AcceptRelease(lines: seq<Line>, select: int, bits: KeyBits)
    requires |lines| == TrueLineNum && (select == NoLineSelected || 0 <= select < TrueLineNum)
    requires bits.accept != 0 && bits.accept & bits.cancel == 0
    ensures KeysSpec(lines, select, 0, bits.accept, bits)
            == KeysOutcome(PressedAll(lines, InLineButton, false), select, FireCount(lines, InLineButton, false), 0)
  {
    ReleaseAlone(bits.accept, bits.cancel, bits.up, bits.down);
  }

  /** The key edges seen when key k alone goes up, against a key c that
      shares no bit with it: nothing is newly pressed. */
  lemma ReleaseAlone(k: bv32, c: bv32, u: bv32, d: bv32)
    requires k != 0 && k & c == 0
    ensures Changed(0, k, k) && !Changed(0, k, c) && (0 as bv32) & k == 0
            && !NewlyPressed(0, k, u) && !NewlyPressed(0, k, d)
  {
  }

  /** A press runs no action. */
  lemma {:induction false} NoPressFires(s: seq<Line>, button: Button)
    ensures FireCount(s, button, true) == 0
    decreases |s|
  {
    if |s| > 0 {
      NoPressFires(s[..|s| - 1], button);
    }
  }

  // ---------------------------------------------------------------------
  // Status lines

  /** The game's answers: whether a condition is true yet, and an
      admiral's score. */
  datatype Oracles = Oracles(conditionTrue: int -> bool, score: (int, int) -> int)

  /** MiniComputerGetStatusValue. */
  function StatusValue(l: Line, o: Oracles): (v: int)
    ensures l.statusType == NoStatusData ==> v == -1
    ensures l.statusType == PlainTextStatus ==> v == 0
    ensures l.statusType == TrueFalseCondition ==> (v == 1 <==> o.conditionTrue(l.whichStatus)) && (v == 0 || v == 1)
    ensures l.statusType == IntegerValue || l.statusType == SmallFixedValue ==> v == o.score(l.statusPlayer, l.whichStatus)
    ensures l.statusType == IntegerMinusValue || l.statusType == SmallFixedMinusValue ==>
              v == l.negativeValue - o.score(l.statusPlayer, l.whichStatus)
    ensures !(NoStatusData <= l.statusType <= MaxStatusTypeValue) ==> v == 0
  {
    if l.statusType == NoStatusData then -1
    else if l.statusType == PlainTextStatus then 0
    else if l.statusType == TrueFalseCondition then (if o.conditionTrue(l.whichStatus) then 1 else 0)
    else if l.statusType == IntegerValue || l.statusType == SmallFixedValue then o.score(l.statusPlayer, l.whichStatus)
    else if l.statusType == IntegerMinusValue || l.statusType == SmallFixedMinusValue
    then l.negativeValue - o.score(l.statusPlayer, l.whichStatus)
    else 0
  }

  /** A "minus" line shows the negative value less what the plain line
      of the same score shows. */
  lemma MinusComplementsPlain(l: Line, o: Oracles)
    requires l.statusType == IntegerValue || l.statusType == SmallFixedValue
    ensures StatusValue(l.(statusType := l.statusType + 2), o) == l.negativeValue - StatusValue(l, o)
  {
  }

  /** How numbers print: an integer, and a fixed-point raw value. */
  datatype Formats = Formats(integer: int -> string, fixed: int -> string)

  function StatusMiddle(l: Line, f: Formats): string {
    if l.statusType == TrueFalseCondition then (if l.value == 1 then l.statusTrue else l.statusFalse)
    else if l.statusType == IntegerValue || l.statusType == IntegerMinusValue then f.integer(l.value)
    else if l.statusType == SmallFixedValue || l.statusType == SmallFixedMinusValue then f.fixed(l.value)
    else ""
  }

  /** MiniComputerMakeStatusString: empty without status data; otherwise
      the status string, the true/false text or the value, and the
      post-string except on a plain-text line. */
  function MakeStatusString(l: Line, f: Formats): (r: string)
    ensures l.statusType == NoStatusData ==> r == ""
    ensures l.statusType == PlainTextStatus ==> r == l.statusString
    ensures l.statusType != NoStatusData ==> l.statusString <= r
    ensures l.statusType != NoStatusData && l.statusType != PlainTextStatus ==>
              r == l.statusString + StatusMiddle(l, f) + l.postString
    ensures l.statusType == TrueFalseCondition ==>
              r == l.statusString + (if l.value == 1 then l.statusTrue else l.statusFalse) + l.postString
  {
    if l.statusType == NoStatusData then ""
    else
      var head := l.statusString + StatusMiddle(l, f);
      if l.statusType != PlainTextStatus then head + l.postString else head
  }

  /** sfz's `partition` on a backslash (success, the part before it, the
      rest) and `string_to_int`. */
  datatype Parsers = Parsers(partition: string -> (bool, string, string), toInt: string -> Option<int>)

  datatype Option<T> = None | Some(value: T)

  /** A status source string the reader can index: not empty, and not
      empty after a leading underscore. */
  predicate Readable(src: string) {
    |src| > 0 && (src[0] == '_' ==> |src| > 1)
  }

  /** The fields a status source string sets, each only when its part
      reads; the rest is the post-string. */
  function ParseStatus(l: Line, src: string, p: Parsers): Line {
    var (ok1, f1, s1) := p.partition(src);
    var t := p.toInt(f1);
    var l1 := if ok1 && t.Some? && 0 <= t.value <= MaxStatusTypeValue then l.(statusType := t.value) else l;
    var (ok2, f2, s2) := p.partition(s1);
    var l2 := if ok2 && p.toInt(f2).Some? then l1.(whichStatus := p.toInt(f2).value) else l1;
    var (ok3, f3, s3) := p.partition(s2);
    var l3 := if ok3 && p.toInt(f3).Some? then l2.(statusPlayer := p.toInt(f3).value) else l2;
    var (ok4, f4, s4) := p.partition(s3);
    var l4 := if ok4 && p.toInt(f4).Some? then l3.(negativeValue := p.toInt(f4).value) else l3;
    var (ok5, f5, s5) := p.partition(s4);
    var l5 := if ok5 then l4.(statusFalse := f5) else l4;
    var (ok6, f6, s6) := p.partition(s5);
    var l6 := if ok6 then l5.(statusTrue := f6) else l5;
    var (ok7, f7, s7) := p.partition(s6);
    var l7 := if ok7 then l6.(statusString := f7) else l6;
    l7.(postString := s7)
  }

  /** One status line of MiniComputerSetStatusStrings, from its source
      string. */
  function StatusLine(l: Line, src0: string, p: Parsers, o: Oracles, f: Formats): (r: Line)
    requires Readable(src0)
    ensures src0[0] == '_' ==> r.underline
    ensures src0[0] != '_' ==> r.underline == l.underline
    ensures r.selectable == l.selectable
  {
    var l0 := if src0[0] == '_' then l.(underline := true) else l;
    var src := if src0[0] == '_' then src0[1..] else src0;
    if src[0] == '-' then l0.(statusType := PlainTextStatus, value := 0, text := src[1..])
    else
      var l8 := ParseStatus(l0, src, p);
      var l9 := l8.(value := StatusValue(l8, o));
      l9.(text := MakeStatusString(l9, f))
  }

  /** A line without status data. */
  function NoStatus(l: Line): Line {
    l.(statusType := NoStatusData, value := -1, text := "")
  }

  /** A '-' string is plain text shown as it is; otherwise the line's
      value is the status value of the parsed line and its text the status
      string of that value. */
  lemma StatusLineMeaning(l: Line, src: string, p: Parsers, o: Oracles, f: Formats)
    requires Readable(src) && src[0] != '_'
    ensures src[0] == '-' ==>
              var r := StatusLine(l, src, p, o, f);
              r.statusType == PlainTextStatus && r.value == 0 && r.text == src[1..]
    ensures src[0] != '-' ==>
              var r := StatusLine(l, src, p, o, f);
              var parsed := ParseStatus(l, src, p);
              r.value == StatusValue(parsed, o) && r.text == MakeStatusString(parsed.(value := r.value), f)
              && r.statusType == parsed.statusType
  {
  }

  /** A leading underscore underlines the line and is otherwise ignored. */
  lemma UnderscoreUnderlines(l: Line, src: string, p: Parsers, o: Oracles, f: Formats)
    requires Readable(src) && src[0] != '_'
    ensures Readable("_" + src)
    ensures StatusLine(l, "_" + src, p, o, f) == StatusLine(l.(underline := true), src, p, o, f)
  {
    assert ("_" + src)[1..] == src;
  }

  /** What MiniComputerSetStatusStrings makes of line `count`: the status
      line of its source string when the list has one, no status data
      otherwise (including when there is no list). */
  function StatusOf(l: Line, count: nat, list: Option<seq<string>>, p: Parsers, o: Oracles, f: Formats): Line
    requires list.Some? ==> forall i :: 0 <= i < |list.value| ==> Readable(list.value[i])
  {
    if list.Some? && StatusFirstLine <= count && count - StatusFirstLine < |list.value|
    then StatusLine(l, list.value[count - StatusFirstLine], p, o, f)
    else NoStatus(l)
  }

  // ---------------------------------------------------------------------
  // Price and build bar

  /** MiniComputerGetPriceOfCurrentSelection: the fixed-point price of the
      base object on the selected line of the build screen; 0 when another
      screen is up, nothing is selected, the line names no object, or the
      price is negative. */
  function PriceOfCurrentSelection(currentScreen: int, selectLine: int, lines: seq<Line>,
                                   price: int -> int, longToFixed: int -> int): (p: int)
    requires selectLine == NoLineSelected || 0 <= selectLine < |lines|
    ensures currentScreen == BuildMiniScreen && selectLine != NoLineSelected
            && lines[selectLine].value >= 0 && price(lines[selectLine].value) >= 0
            ==> p == longToFixed(price(lines[selectLine].value))
    ensures !(currentScreen == BuildMiniScreen && selectLine != NoLineSelected
              && lines[selectLine].value >= 0 && price(lines[selectLine].value) >= 0)
            ==> p == 0
  {
    if currentScreen != BuildMiniScreen || selectLine == NoLineSelected then 0
    else
      var line := lines[selectLine];
      if line.value < 0 then 0
      else if price(line.value) < 0 then 0
      else longToFixed(price(line.value))
  }

  /** Division truncating toward zero, as C++ divides. */
  function TruncDiv(a: int, b: int): int
    requires b > 0
  {
    if a >= 0 then a / b else -((-a) / b)
  }

  /** The build site's progress: built time and total time. */
  datatype BuildSite = BuildSite(buildTime: int, totalBuildTime: int)

  /** The build bar of MiniComputerHandleNull: -1 without a build site, 0
      when the total time is not positive, otherwise the built share of
      the bar's height. */
  function BuildBarValue(site: Option<BuildSite>, height: int): (v: int)
    ensures site.None? ==> v == -1
    ensures site.Some? && site.value.totalBuildTime <= 0 ==> v == 0
    ensures site.Some? && site.value.totalBuildTime > 0 ==>
              v == TruncDiv(site.value.buildTime * height, site.value.totalBuildTime)
  {
    match site
    case None => -1
    case Some(s) => if s.totalBuildTime > 0 then TruncDiv(s.buildTime * height, s.totalBuildTime) else 0
  }

  lemma MulLe(a: int, b: int, h: int)
    requires a <= b && h >= 0
    ensures a * h <= b * h
  {
  }

  /** With the build time between 0 and the total and a non-negative
      height, the bar lies between 0 and the full height, is full exactly
      at completion, and grows with the build time. */
  lemma BuildBarBounds(buildTime: int, buildTime2: int, total: int, height: int)
    requires 0 <= buildTime <= buildTime2 <= total && total > 0 && height >= 0
    ensures 0 <= BuildBarValue(Some(BuildSite(buildTime, total)), height) <= height
    ensures BuildBarValue(Some(BuildSite(total, total)), height) == height
    ensures BuildBarValue(Some(BuildSite(buildTime, total)), height)
            <= BuildBarValue(Some(BuildSite(buildTime2, total)), height)
  {
    var a, b, c := buildTime * height, buildTime2 * height, total * height;
    assert 0 <= a <= b <= c by {
      MulLe(0, buildTime, height);
      MulLe(buildTime, buildTime2, height);
      MulLe(buildTime2, total, height);
    }
    assert BuildBarValue(Some(BuildSite(buildTime, total)), height) == a / total;
    assert BuildBarValue(Some(BuildSite(buildTime2, total)), height) == b / total;
    assert BuildBarValue(Some(BuildSite(total, total)), height) == c / total;
    assert c / total == height by {
      MulDivCancel(height, total);
      assert c == height * total;
    }
    assert 0 <= a / total by {
      DivMonotone(0, a, total);
    }
    assert a / total <= b / total by {
      DivMonotone(a, b, total);
    }
    assert b / total <= c / total by {
      DivMonotone(b, c, total);
    }
  }

  lemma DivMonotone(a: int, b: int, d: int)
    requires 0 <= a <= b && d > 0
    ensures a / d <= b / d
  {
    var qa, qb := a / d, b / d;
    assert a == qa * d + a % d && b == qb * d + b % d;
    if qa > qb {
      MulLe(qb + 1, qa, d);
    }
  }

  lemma MulDivCancel(h: int, t: int)
    requires t > 0
    ensures (h * t) / t == h
  {
    var q, r := (h * t) / t, (h * t) % t;
    assert h * t == q * t + r && 0 <= r < t;
    if q < h {
      MulLe(q + 1, h, t);
    } else if q > h {
      MulLe(h + 1, q, t);
    }
  }

  // ---------------------------------------------------------------------
  // The mini-screen in place

  class MiniScreen {
    var lines: array<Line>
    var selectLine: int
    var currentScreen: int
    var pollTime: int
    var buildTimeBarValue: int

    /** Twelve lines, and a selection (if any) on a line marked
        selectable. */
    ghost predicate Valid()
      reads this, lines
    {
      lines.Length == TrueLineNum
      && (selectLine == NoLineSelected
          || (0 <= selectLine < TrueLineNum && lines[selectLine].selectable != CannotSelect))
    }

    /** The selection can move: there is none, or some text line is
        selectable. Without one, minicomputer_handle_move never stops. */
    ghost predicate CanMove()
      reads this, lines
    {
      selectLine == NoLineSelected
      || exists j :: 0 <= j < CharHeight && j < lines.Length && lines[j].selectable != CannotSelect
    }

    /** MiniScreenInit. */
    constructor()
      ensures Valid() && CanMove() && selectLine == NoLineSelected && currentScreen == MainMiniScreen
      ensures pollTime == 0 && buildTimeBarValue == -1
      ensures lines[..] == ClearedAll(seq(TrueLineNum, _ => BlankLine))
    {
      selectLine := NoLineSelected;
      currentScreen := MainMiniScreen;
      pollTime := 0;
      buildTimeBarValue := -1;
      lines := new Line[TrueLineNum](_ => BlankLine);
      new;
      ClearMiniScreenLines();
    }

    /** ClearMiniScreenLines. */
    method ClearMiniScreenLines()
      requires lines.Length == TrueLineNum
      modifies lines
      ensures lines[..] == ClearedAll(old(lines[..]))
    {
      for b := 0 to lines.Length
        invariant forall j :: 0 <= j < b ==> lines[j] == Cleared(old(lines[j]))
        invariant forall j :: b <= j < lines.Length ==> lines[j] == old(lines[j])
      {
        lines[b] := Cleared(lines[b]);
      }
    }

    /** The escape switch of MakeMiniScreenFromIndString on line `line`. */
    method EscapedRune(line: nat, r: char, keys: Keys) returns (line': nat)
      requires lines.Length == TrueLineNum && line < TrueLineNum
      modifies lines, this`selectLine
      ensures var st := Escaped(LState(old(lines[..]), line, false, old(selectLine)), keys, r);
              lines[..] == st.lines && line' == st.line && selectLine == st.select
    {
      line' := line;
      if r == 'u' {
        lines[line] := lines[line].(underline := true);
        line' := line + 1;
      } else if r == 'x' {
        line' := line + 1;
      } else if r == 'S' {
        lines[line] := lines[line].(selectable := Selectable);
        if selectLine == NoLineSelected {
          selectLine := line;
          lines[line] := lines[line].(hiliteLeft := RectLeft(line), hiliteRight := RectRight(line));
        }
      } else if r == 'I' || r == 'O' {
        var l := lines[line];
        var left := RectLeft(line) + LeftBuffer;
        var name := if r == 'I' then keys.acceptName else keys.cancelName;
        var t := l.text + PadTo(name, keys.keyNameLength);
        lines[line] := l.(lineKind := ButtonOffLineKind, whichButton := if r == 'I' then InLineButton else OutLineButton,
                          hiliteLeft := left + keys.fontWidth * |l.text|, text := t,
                          hiliteRight := left + keys.fontWidth * |t| - 1);
      } else if r == '\\' {
        lines[line] := lines[line].(text := lines[line].text + "\\");
      }
    }

    /** The overflow loop of MakeMiniScreenFromIndString. */
    method WrapLines(line: nat, ghost escape: bool) returns (line': nat)
      requires lines.Length == TrueLineNum && line < TrueLineNum
      modifies lines
      ensures var st := Wrap(LState(old(lines[..]), line, escape, selectLine));
              lines[..] == st.lines && line' == st.line
    {
      line' := line;
      while |lines[line'].text| > CharWidth
        invariant line' < TrueLineNum
        invariant Wrap(LState(lines[..], line', escape, selectLine)) == Wrap(LState(old(lines[..]), line, escape, selectLine))
        decreases TrueLineNum - line'
      {
        var excess := lines[line'].text[CharWidth..];
        lines[line'] := lines[line'].(text := lines[line'].text[..CharWidth]);
        line' := line' + 1;
        if line' == TrueLineNum {
          return;
        }
        lines[line'] := lines[line'].(text := excess);
      }
    }

    /** One rune of MakeMiniScreenFromIndString's loop, with the overflow
        wrap that follows it. */
    method LayoutRune(line: nat, escape: bool, r: char, keys: Keys) returns (line': nat, escape': bool)
      requires lines.Length == TrueLineNum && line < TrueLineNum
      modifies lines, this`selectLine
      ensures LState(lines[..], line', escape', selectLine)
              == Wrap(RuneStep(LState(old(lines[..]), line, escape, old(selectLine)), keys, r))
    {
      ghost var st := LState(lines[..], line, escape, selectLine);
      line', escape' := line, escape;
      if escape {
        escape' := false;
        line' := EscapedRune(line, r, keys);
        if line' == TrueLineNum {
          assert LState(lines[..], line', escape', selectLine) == RuneStep(st, keys, r);
          return;
        }
      } else if r == '\\' {
        escape' := true;
      } else {
        lines[line] := lines[line].(text := lines[line].text + [r]);
      }
      assert LState(lines[..], line', escape', selectLine) == RuneStep(st, keys, r);
      line' := WrapLines(line', escape');
    }

    /** MakeMiniScreenFromIndString, given the screen's string: the lines
        are cleared and laid out from it, and the first line marked \S is
        selected. */
    method MakeMiniScreen(whichString: int, s: string, keys: Keys)
      requires Valid()
      modifies this, lines
      ensures Valid() && currentScreen == whichString
      ensures selectLine < CharHeight ==> CanMove()
      ensures var st := Layout(old(lines[..]), keys, s);
              lines[..] == st.lines && selectLine == st.select
    {
      ClearMiniScreenLines();
      currentScreen := whichString;
      selectLine := NoLineSelected;
      LayoutSelection(old(lines[..]), keys, s);
      ghost var goal := Layout(old(lines[..]), keys, s);
      var line: nat := 0;
      var escape := false;
      var k := 0;
      while k < |s|
        invariant 0 <= k <= |s| && line < TrueLineNum && lines == old(lines) && currentScreen == whichString
        invariant LOk(LState(lines[..], line, escape, selectLine))
        invariant LayoutFrom(LState(lines[..], line, escape, selectLine), keys, s, k) == goal
        decreases |s| - k
      {
        ghost var st := LState(lines[..], line, escape, selectLine);
        line, escape := LayoutRune(line, escape, s[k], keys);
        assert LayoutFrom(st, keys, s, k) == LayoutFrom(LState(lines[..], line, escape, selectLine), keys, s, k + 1);
        if line == TrueLineNum {
          return;
        }
        k := k + 1;
      }
    }

    /** minicomputer_handle_move: the selection steps in `direction`,
        wrapping within the ten text lines, to the nearest selectable line;
        the old line loses its highlight and the new one is highlighted
        across the screen. */
    method HandleMove(direction: int)
      requires Valid() && CanMove() && (direction == -1 || direction == 1)
      modifies lines, this`selectLine
      ensures Valid() && CanMove()
      ensures old(selectLine) == NoLineSelected ==> selectLine == NoLineSelected && lines[..] == old(lines[..])
      ensures old(selectLine) != NoLineSelected ==>
                var first, now, was := Wrap10(old(selectLine) + direction), lines[..], old(lines[..]);
                0 <= selectLine < CharHeight && was[selectLine].selectable != CannotSelect
                && (forall m :: 0 <= m < CharHeight && Dist(first, m, direction) < Dist(first, selectLine, direction)
                      ==> was[m].selectable == CannotSelect)
                && now[selectLine] == was[selectLine].(hiliteLeft := ScreenLeft, hiliteRight := ScreenRight)
                && (old(selectLine) != selectLine ==>
                      now[old(selectLine)] == was[old(selectLine)].(hiliteLeft := 0, hiliteRight := 0))
                && forall j :: 0 <= j < TrueLineNum && j != selectLine && j != old(selectLine) ==> now[j] == was[j]
      ensures (lines[..], selectLine) == Moved(old(lines[..]), old(selectLine), direction)
    {
      if selectLine == NoLineSelected {
        return;
      }
      ghost var before := lines[..];
      var from := selectLine;
      var cur := NextSelectable(from, direction);
      Rehighlight(from, cur);
      assert Moved(before, from, direction) == (lines[..], cur);
      MovedMeaning(before, from, direction);
      assert lines[..][cur] == before[cur].(hiliteLeft := ScreenLeft, hiliteRight := ScreenRight);
      assert 0 <= cur < CharHeight && lines[cur].selectable != CannotSelect;
    }

    /** The end of minicomputer_handle_move: the line left behind goes dark,
        then the new line is selected and highlighted. */
    method Rehighlight(from: int, cur: int)
      requires lines.Length == TrueLineNum && 0 <= from < TrueLineNum && 0 <= cur < TrueLineNum
      modifies lines, this`selectLine
      ensures selectLine == cur
      ensures var dark := old(lines[..])[from := old(lines[from]).(hiliteLeft := 0, hiliteRight := 0)];
              lines[..] == dark[cur := dark[cur].(hiliteLeft := ScreenLeft, hiliteRight := ScreenRight)]
    {
      lines[from] := lines[from].(hiliteLeft := 0, hiliteRight := 0);
      selectLine := cur;
      lines[cur] := lines[cur].(hiliteLeft := ScreenLeft, hiliteRight := ScreenRight);
    }

    /** The search loop of minicomputer_handle_move: from the line after
        `from` in `direction`, wrapping within the ten text lines, the
        nearest line that can be selected. */
    method NextSelectable(from: int, direction: int) returns (cur: int)
      requires lines.Length == TrueLineNum && 0 <= from < TrueLineNum && (direction == -1 || direction == 1)
      requires exists j :: 0 <= j < CharHeight && lines[j].selectable != CannotSelect
      ensures var first, now := Wrap10(from + direction), lines[..];
              0 <= cur < CharHeight && now[cur].selectable != CannotSelect
              && forall m :: 0 <= m < CharHeight && Dist(first, m, direction) < Dist(first, cur, direction)
                   ==> now[m].selectable == CannotSelect
      ensures cur == Nearest(lines[..], Wrap10(from + direction), direction, CharHeight - 1)
    {
      ghost var s := lines[..];
      ghost var t :| 0 <= t < CharHeight && s[t].selectable != CannotSelect;
      cur := Wrap10(from + direction);
      ghost var first := cur;
      ghost var fuel: nat := CharHeight - 1;
      while lines[cur].selectable == CannotSelect
        invariant 0 <= cur < CharHeight && Dist(first, cur, direction) <= Dist(first, t, direction)
        invariant fuel == CharHeight - 1 - Dist(first, cur, direction)
        invariant Nearest(s, first, direction, CharHeight - 1) == Nearest(s, cur, direction, fuel)
        decreases fuel
      {
        SearchStep(s, first, cur, t, direction);
        cur, fuel := Wrap10(cur + direction), fuel - 1;
      }
      NearestMeaning(s, first, first, direction, t);
    }

    /** minicomputer_handle_action: every line showing `button` lights up
        or goes dark; the result is how often the action runs. */
    method HandleAction(button: Button, down: bool) returns (fired: nat)
      requires Valid()
      modifies lines
      ensures Valid() && (old(CanMove()) ==> CanMove())
      ensures fired == FireCount(old(lines[..]), button, down)
      ensures lines[..] == PressedAll(old(lines[..]), button, down)
    {
      ghost var before := lines[..];
      fired := 0;
      for i := 0 to lines.Length
        invariant forall j :: 0 <= j < i ==> lines[j] == Pressed(before[j], button, down)
        invariant forall j :: i <= j < lines.Length ==> lines[j] == before[j]
        invariant fired == FireCount(before[..i], button, down)
      {
        assert before[..i + 1][..i] == before[..i];
        var fires := PressLine(i, button, down);
        if fires {
          fired := fired + 1;
        }
      }
      assert before[..lines.Length] == before;
      SelectionKept(before);
      assert lines[..] == PressedAll(before, button, down);
    }

    /** The body of the loop in minicomputer_handle_action, on line `i`. */
    method PressLine(i: int, button: Button, down: bool) returns (fires: bool)
      requires 0 <= i < lines.Length
      modifies lines
      ensures fires == Fires(old(lines[i]), button, down)
      ensures lines[i] == Pressed(old(lines[i]), button, down)
      ensures forall j :: 0 <= j < lines.Length && j != i ==> lines[j] == old(lines[j])
    {
      fires := false;
      if lines[i].whichButton == button {
        if down {
          if lines[i].lineKind != ButtonOnLineKind {
            lines[i] := lines[i].(lineKind := ButtonOnLineKind);
          }
        } else {
          if lines[i].lineKind != ButtonOffLineKind {
            lines[i] := lines[i].(lineKind := ButtonOffLineKind);
            fires := true;
          }
        }
      }
    }

    /** The lines changed only in their button state. */
    ghost method SelectionKept(before: seq<Line>)
      requires |before| == lines.Length == TrueLineNum
      requires selectLine == NoLineSelected
               || (0 <= selectLine < TrueLineNum && before[selectLine].selectable != CannotSelect)
      requires forall j :: 0 <= j < TrueLineNum ==> lines[j].selectable == before[j].selectable
      ensures Valid()
      ensures (selectLine == NoLineSelected || exists j :: 0 <= j < CharHeight && before[j].selectable != CannotSelect)
              ==> CanMove()
    {
      if selectLine != NoLineSelected && exists j :: 0 <= j < CharHeight && before[j].selectable != CannotSelect {
        var t :| 0 <= t < CharHeight && before[t].selectable != CannotSelect;
        assert lines[t].selectable != CannotSelect;
      }
    }

    /** minicomputer_handle_keys: accept and cancel follow any change of
        their key, up and down move the selection on a new press. The
        results are how often the accept and cancel actions run. */
    method HandleKeys(newKeys: bv32, oldKeys: bv32, bits: KeyBits) returns (accepted: nat, cancelled: nat)
      requires Valid()
      requires Edges(newKeys, oldKeys, bits).up || Edges(newKeys, oldKeys, bits).down ==> CanMove()
      modifies lines, this`selectLine
      ensures Valid() && (old(CanMove()) ==> CanMove())
      ensures KeysOutcome(lines[..], selectLine, accepted, cancelled)
              == KeysSpec(old(lines[..]), old(selectLine), newKeys, oldKeys, bits)
      ensures var e := Edges(newKeys, oldKeys, bits);
              (e.acceptChanged ==> accepted == FireCount(old(lines[..]), InLineButton, e.acceptDown))
              && (!e.acceptChanged ==> accepted == 0)
              && (!e.cancelChanged ==> cancelled == 0)
              && (!e.up && !e.down ==> selectLine == old(selectLine))
    {
      ghost var l0, s0 := lines[..], selectLine;
      var e := Edges(newKeys, oldKeys, bits);
      accepted, cancelled := PressButtons(e);
      ghost var a := ButtonPass(l0, InLineButton, e.acceptChanged, e.acceptDown);
      ghost var c := ButtonPass(a.0, OutLineButton, e.cancelChanged, e.cancelDown);
      if e.up {
        HandleMove(-1);
      }
      ghost var u := MovePass(c.0, s0, e.up, -1);
      assert (lines[..], selectLine) == u;
      if e.down {
        HandleMove(1);
      }
      ghost var v := MovePass(u.0, u.1, e.down, 1);
      assert (lines[..], selectLine) == v;
      PassesInOrder(l0, s0, e, a, c, u, v);
      PassesCounts(l0, s0, e);
    }

    /** The accept and cancel half of minicomputer_handle_keys: each button
        follows a change of its key; the selection stays where it is. */
    method PressButtons(e: KeyEdges) returns (accepted: nat, cancelled: nat)
      requires Valid()
      modifies lines
      ensures Valid() && (old(CanMove()) ==> CanMove())
      ensures var a := ButtonPass(old(lines[..]), InLineButton, e.acceptChanged, e.acceptDown);
              var c := ButtonPass(a.0, OutLineButton, e.cancelChanged, e.cancelDown);
              lines[..] == c.0 && accepted == a.1 && cancelled == c.1
    {
      ghost var l0 := lines[..];
      accepted, cancelled := 0, 0;
      if e.acceptChanged {
        accepted := HandleAction(InLineButton, e.acceptDown);
      }
      ghost var a := ButtonPass(l0, InLineButton, e.acceptChanged, e.acceptDown);
      assert lines[..] == a.0 && accepted == a.1;
      if e.cancelChanged {
        cancelled := HandleAction(OutLineButton, e.cancelDown);
      }
      assert lines[..] == ButtonPass(a.0, OutLineButton, e.cancelChanged, e.cancelDown).0;
    }

    /** minicomputer_cancel: both buttons go dark and no action runs. */
    method Cancel()
      requires Valid()
      modifies lines
      ensures Valid() && (old(CanMove()) ==> CanMove())
      ensures lines[..] == PressedAll(PressedAll(old(lines[..]), InLineButton, false), OutLineButton, false)
    {
      var _ := HandleAction(InLineButton, false);
      var _ := HandleAction(OutLineButton, false);
    }

    /** MiniComputerSetStatusStrings: status lines 1 to 9 from the mission's
        status list; without a list, or past its end, a line shows no
        status. */
    method SetStatusStrings(list: Option<seq<string>>, p: Parsers, o: Oracles, f: Formats)
      requires Valid()
      requires list.Some? ==> forall i :: 0 <= i < |list.value| ==> Readable(list.value[i])
      modifies lines
      ensures Valid()
      ensures forall j :: StatusFirstLine <= j < CharHeight ==> lines[j] == StatusOf(old(lines[j]), j, list, p, o, f)
      ensures lines[0] == old(lines[0]) && lines[10] == old(lines[10]) && lines[11] == old(lines[11])
    {
      for count := StatusFirstLine to CharHeight
        invariant forall j :: StatusFirstLine <= j < count ==> lines[j] == StatusOf(old(lines[j]), j, list, p, o, f)
        invariant forall j :: 0 <= j < lines.Length && !(StatusFirstLine <= j < count) ==> lines[j] == old(lines[j])
      {
        if list.Some? && count - StatusFirstLine < |list.value| {
          lines[count] := StatusLine(lines[count], list.value[count - StatusFirstLine], p, o, f);
        } else {
          lines[count] := lines[count].(statusType := NoStatusData, value := -1, text := "");
        }
      }
    }

    /** The build bar part of MiniComputerHandleNull: the poll time
        accumulates, and once it passes kMiniComputerPollTime it restarts
        and the bar is recomputed from the build site. */
    method HandleNull(units: int, site: Option<BuildSite>, height: int)
      modifies this`pollTime, this`buildTimeBarValue
      ensures old(pollTime) + units > PollTime ==> pollTime == 0 && buildTimeBarValue == BuildBarValue(site, height)
      ensures old(pollTime) + units <= PollTime ==>
                pollTime == old(pollTime) + units && buildTimeBarValue == old(buildTimeBarValue)
    {
      pollTime := pollTime + units;
      if pollTime > PollTime {
        pollTime := 0;
        if site.Some? {
          if site.value.totalBuildTime > 0 {
            var progress := site.value.buildTime * height;
            progress := TruncDiv(progress, site.value.totalBuildTime);
            buildTimeBarValue := progress;
          } else {
            buildTimeBarValue := 0;
          }
        } else {
          buildTimeBarValue := -1;
        }
      }
    }
  }
}
