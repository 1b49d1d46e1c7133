/**
 * The PDF export's layout. The drawing library is replaced by a log of
 * abstract commands (font changes, strings drawn at a position, page
 * breaks); the layout itself is first computed as a sequence of elements
 * (the title, a machine's header block, a data row, a page break) that the
 * commands are then rendered from.
 */
module Pdf {
  import opened Keys
  import opened Orders
  import opened Wrappers

  /** Longest description printed in a row; longer ones are cut, without a marker. */
  const MaxDescription: nat := 70
  /** A cursor below this starts a new page. */
  const BottomMargin: int := 50

  /** `description[:70]`: the longest prefix of at most 70 characters. */
  function Truncate(s: string): (r: string)
    ensures r <= s
    ensures |r| == if |s| <= MaxDescription then |s| else MaxDescription
  {
    if |s| <= MaxDescription then s else s[..MaxDescription]
  }

  // ---------------------------------------------------------------------
  // Decimal rendering of quantities (`str` of a non-negative int)
  // ---------------------------------------------------------------------

  predicate IsDigit(c: char)
  {
    '0' <= c <= '9'
  }

  function DigitChar(d: nat): (c: char)
    requires d < 10
    ensures IsDigit(c) && c as int - '0' as int == d
  {
    ('0' as int + d) as char
  }

  /** The decimal digits of `n`, without leading zeros. */
  function NatToDecimal(n: nat): (r: string)
    ensures |r| >= 1
    ensures forall i :: 0 <= i < |r| ==> IsDigit(r[i])
    ensures r[0] == '0' ==> n == 0 && r == "0"
    decreases n
  {
    if n < 10 then [DigitChar(n)] else NatToDecimal(n / 10) + [DigitChar(n % 10)]
  }

  /** The number a string of decimal digits denotes. */
  function DecimalValue(s: string): nat
    requires forall i :: 0 <= i < |s| ==> IsDigit(s[i])
    decreases |s|
  {
    if s == [] then 0
    else DecimalValue(s[..|s| - 1]) * 10 + DigitValue(s[|s| - 1])
  }

  function DigitValue(c: char): nat
    requires IsDigit(c)
  {
    c as int - '0' as int
  }

  /** Reading the printed quantity back gives the quantity. */
  lemma {:induction false} DecimalRoundTrip(n: nat)
    ensures DecimalValue(NatToDecimal(n)) == n
    decreases n
  {
    if n >= 10 {
      var r := NatToDecimal(n);
      assert r[..|r| - 1] == NatToDecimal(n / 10);
      DecimalRoundTrip(n / 10);
    }
  }

  // ---------------------------------------------------------------------
  // Layout elements and the cursor
  // ---------------------------------------------------------------------

  datatype Element =
    | Title(y: int)
    | MachineBlock(machine: string, headingY: int, columnsY: int)
    | Row(code: string, description: string, quantity: string, y: int)
    | PageBreak

  /** The layout state between rows: the vertical cursor and the machine of the last block. */
  datatype Pen = Pen(y: int, current: Option<string>)

  /**
   * One cart line: a header block when its machine differs from the current
   * one (heading 30 below the cursor, column titles 20 further down, the row
   * 15 further down), then the row; the cursor then moves down 15 and, if it
   * is below the bottom margin, the page ends and the cursor returns to 50
   * below the top.
   */
  function Step(pen: Pen, item: (Key, Line), height: int): (r: (seq<Element>, Pen))
    ensures var k := if pen.current != Some(item.0.machine) then 1 else 0;
            && k < |r.0| <= k + 2
            && r.0[k].Row? && r.0[k].code == item.0.code
            && r.0[k].description == Truncate(item.1.description) && r.0[k].quantity == NatToDecimal(item.1.quantity)
            && (k == 1 ==> r.0[0] == MachineBlock(item.0.machine, pen.y - 30, pen.y - 50) && r.0[k].y == pen.y - 65)
            && (k == 0 ==> r.0[k].y == pen.y)
            && (|r.0| == k + 2 <==> r.0[k].y - 15 < BottomMargin)
            && (|r.0| == k + 2 ==> r.0[k + 1] == PageBreak && r.1.y == height - 50)
            && (|r.0| == k + 1 ==> r.1.y == r.0[k].y - 15)
    ensures r.1.current == Some(item.0.machine)
  {
    var key := item.0;
    var line := item.1;
    var isNew := pen.current != Some(key.machine);
    var block := if isNew then [MachineBlock(key.machine, pen.y - 30, pen.y - 50)] else [];
    var rowY := if isNew then pen.y - 65 else pen.y;
    var row := Row(key.code, Truncate(line.description), NatToDecimal(line.quantity), rowY);
    if rowY - 15 < BottomMargin then
      (block + [row, PageBreak], Pen(height - 50, Some(key.machine)))
    else
      (block + [row], Pen(rowY - 15, Some(key.machine)))
  }

  /** The layout of the lines from position `i` on. */
  function LayoutFrom(items: seq<(Key, Line)>, i: nat, pen: Pen, height: int): seq<Element>
    requires i <= |items|
    decreases |items| - i
  {
    if i == |items| then []
    else
      var step := Step(pen, items[i], height);
      step.0 + LayoutFrom(items, i + 1, step.1, height)
  }

  /** The pen once the first `n` lines have been laid out from `pen`. */
  function PenAfter(items: seq<(Key, Line)>, n: nat, pen: Pen, height: int): Pen
    requires n <= |items|
    decreases n
  {
    if n == 0 then pen else Step(PenAfter(items, n - 1, pen, height), items[n - 1], height).1
  }

  /** The elements of the first `n` lines, each laid out from the pen the previous ones left. */
  function LayoutUpTo(items: seq<(Key, Line)>, n: nat, pen: Pen, height: int): seq<Element>
    requires n <= |items|
    decreases n
  {
    if n == 0 then [] else LayoutUpTo(items, n - 1, pen, height) + Step(PenAfter(items, n - 1, pen, height), items[n - 1], height).0
  }

  /**
   * The layout splits after any line: the first `n` lines, then the rest
   * laid out from the pen the first `n` left, so `PenAfter` is the state
   * of the layout between lines.
   */
  lemma {:induction false} LayoutSplit(items: seq<(Key, Line)>, n: nat, pen: Pen, height: int)
    requires n <= |items|
    ensures LayoutFrom(items, 0, pen, height) ==
              LayoutUpTo(items, n, pen, height) + LayoutFrom(items, n, PenAfter(items, n, pen, height), height)
    decreases n
  {
    if n > 0 {
      LayoutSplit(items, n - 1, pen, height);
      SplitNext(items, n, pen, height);
    }
  }

  /** One more line moves from the rest of the layout to the laid-out part. */
  lemma SplitNext(items: seq<(Key, Line)>, n: nat, pen: Pen, height: int)
    requires 0 < n <= |items|
    ensures LayoutUpTo(items, n - 1, pen, height) + LayoutFrom(items, n - 1, PenAfter(items, n - 1, pen, height), height) ==
              LayoutUpTo(items, n, pen, height) + LayoutFrom(items, n, PenAfter(items, n, pen, height), height)
  {
    var p := PenAfter(items, n - 1, pen, height);
    var step := Step(p, items[n - 1], height);
    var rest := LayoutFrom(items, n, step.1, height);
    Regroup(LayoutUpTo(items, n - 1, pen, height), step.0, rest);
  }

  lemma Regroup(a: seq<Element>, b: seq<Element>, c: seq<Element>)
    ensures a + (b + c) == (a + b) + c
  {
  }

  /**
   * From a cursor at or above the bottom margin, on a page at least 100
   * high, the cursor after every line is again at or above the margin: on
   * the same page, or 50 below the top of a new one.
   */
  lemma {:induction false} CursorAfterEveryLine(items: seq<(Key, Line)>, n: nat, pen: Pen, height: int)
    requires n <= |items|
    requires height - 50 >= BottomMargin && pen.y >= BottomMargin
    ensures PenAfter(items, n, pen, height).y >= BottomMargin
    decreases n
  {
    if n > 0 {
      CursorAfterEveryLine(items, n - 1, pen, height);
      StepCursor(PenAfter(items, n - 1, pen, height), items[n - 1], height);
    }
  }

  /** The whole document: the title, then the cart's lines in key order. */
  function Layout(cart: CartMap, height: int): seq<Element>
  {
    [Title(height - 50)] + LayoutFrom(SortedItems(cart), 0, Pen(height - 90, None), height)
  }

  // ---------------------------------------------------------------------
  // Drawing commands
  // ---------------------------------------------------------------------

  datatype Font = Helvetica | HelveticaBold

  datatype Command =
    | SetFont(font: Font, size: nat)
    | DrawString(x: int, y: int, text: string)
    | ShowPage

  /** The commands that draw one element, at the fixed columns and fonts of `generate_pdf_bytes`. */
  function Render(e: Element): seq<Command>
  {
    match e
    case Title(y) => [SetFont(Helvetica, 16), DrawString(50, y, "Spare Parts Order"), SetFont(Helvetica, 12)]
    case MachineBlock(m, hy, cy) =>
      [SetFont(HelveticaBold, 14), DrawString(50, hy, "Machine: " + m),
       SetFont(HelveticaBold, 10), DrawString(60, cy, "Code"), DrawString(160, cy, "Description"),
       DrawString(460, cy, "Quantity")]
    case Row(c, d, q, y) => [SetFont(Helvetica, 10), DrawString(60, y, c), DrawString(160, y, d), DrawString(460, y, q)]
    case PageBreak => [ShowPage]
  }

  /** The commands of each element, in order. */
  function Pieces(es: seq<Element>): (r: seq<seq<Command>>)
    ensures |r| == |es|
    ensures forall i :: 0 <= i < |es| ==> r[i] == Render(es[i])
  {
    seq(|es|, i requires 0 <= i < |es| => Render(es[i]))
  }

  /** All pieces, one after the other. */
  function Concat(ps: seq<seq<Command>>): seq<Command>
    decreases |ps|
  {
    if ps == [] then [] else Concat(ps[..|ps| - 1]) + ps[|ps| - 1]
  }

  lemma {:induction false} ConcatAppend(p: seq<seq<Command>>, q: seq<seq<Command>>)
    ensures Concat(p + q) == Concat(p) + Concat(q)
    decreases |q|
  {
    if q == [] {
      assert p + q == p;
    } else {
      var init, last := q[..|q| - 1], q[|q| - 1];
      assert (p + q)[..|p + q| - 1] == p + init;
      assert (p + q)[|p + q| - 1] == last;
      ConcatAppend(p, init);
      assert Concat(p + q) == Concat(p + init) + last;
      assert Concat(q) == Concat(init) + last;
    }
  }

  /** The commands of a sequence of elements, in order. */
  function Draw(es: seq<Element>): seq<Command>
  {
    Concat(Pieces(es))
  }

  lemma DrawAppend(a: seq<Element>, b: seq<Element>)
    ensures Draw(a + b) == Draw(a) + Draw(b)
  {
    assert Pieces(a + b) == Pieces(a) + Pieces(b);
    ConcatAppend(Pieces(a), Pieces(b));
  }

  lemma DrawOne(e: Element)
    ensures Draw([e]) == Render(e)
  {
    DrawSnoc([], e);
    assert [] + [e] == [e];
  }

  lemma DrawParts(b: seq<Element>, r: Element, t: seq<Element>)
    ensures Draw(b + [r] + t) == Draw(b) + Render(r) + Draw(t)
  {
    DrawAppend(b + [r], t);
    DrawSnoc(b, r);
  }

  lemma DrawSnoc(es: seq<Element>, e: Element)
    ensures Draw(es + [e]) == Draw(es) + Render(e)
  {
    DrawAppend(es, [e]);
    assert Pieces([e]) == [Render(e)];
    assert Concat([Render(e)]) == Render(e) by {
      assert [Render(e)][..0] == [];
    }
  }

  /** The elements one step lays out, written out, and the pen it leaves. */
  lemma StepElements(pen: Pen, item: (Key, Line), height: int)
    ensures var isNew := pen.current != Some(item.0.machine);
            var rowY := if isNew then pen.y - 65 else pen.y;
            var step := Step(pen, item, height);
            step.0 ==
              (if isNew then [MachineBlock(item.0.machine, pen.y - 30, pen.y - 50)] else []) +
              [Row(item.0.code, Truncate(item.1.description), NatToDecimal(item.1.quantity), rowY)] +
              (if rowY - 15 < BottomMargin then [PageBreak] else []) &&
            step.1 == Pen(if rowY - 15 < BottomMargin then height - 50 else rowY - 15, Some(item.0.machine))
  {
  }

  /** Drawing line `i` on top of what came before leaves the lines after it to draw. */
  lemma LoopStep(items: seq<(Key, Line)>, i: nat, pen: Pen, height: int,
                 before: seq<Command>, drawn: seq<Command>, commands: seq<Command>, all: seq<Command>)
    requires i < |items|
    requires before + Draw(LayoutFrom(items, i, pen, height)) == all
    requires drawn == Draw(Step(pen, items[i], height).0)
    requires commands == before + drawn
    ensures commands + Draw(LayoutFrom(items, i + 1, Step(pen, items[i], height).1, height)) == all
  {
    var step := Step(pen, items[i], height);
    var rest := LayoutFrom(items, i + 1, step.1, height);
    assert LayoutFrom(items, i, pen, height) == step.0 + rest;
    DrawPrefix(before, step.0, rest, all);
  }

  /** Drawing `es` after `before` leaves the drawing of `rest` to complete `before + Draw(es + rest)`. */
  lemma DrawPrefix(before: seq<Command>, es: seq<Element>, rest: seq<Element>, all: seq<Command>)
    requires before + Draw(es + rest) == all
    ensures (before + Draw(es)) + Draw(rest) == all
  {
    DrawAppend(es, rest);
    assert before + (Draw(es) + Draw(rest)) == (before + Draw(es)) + Draw(rest);
  }

  /** The three groups of commands of one step are the drawing of its elements. */
  lemma StepDrawn(pen: Pen, item: (Key, Line), height: int,
                  header: seq<Command>, row: seq<Command>, brk: seq<Command>)
    requires var isNew := pen.current != Some(item.0.machine);
             header == (if isNew then Render(MachineBlock(item.0.machine, pen.y - 30, pen.y - 50)) else [])
    requires var rowY := if pen.current != Some(item.0.machine) then pen.y - 65 else pen.y;
             row == Render(Row(item.0.code, Truncate(item.1.description), NatToDecimal(item.1.quantity), rowY)) &&
             brk == (if rowY - 15 < BottomMargin then [ShowPage] else [])
    ensures header + row + brk == Draw(Step(pen, item, height).0)
  {
    var isNew := pen.current != Some(item.0.machine);
    var rowY := if isNew then pen.y - 65 else pen.y;
    var r := Row(item.0.code, Truncate(item.1.description), NatToDecimal(item.1.quantity), rowY);
    StepElements(pen, item, height);
    var b: seq<Element>, t: seq<Element>;
    if isNew {
      b := [MachineBlock(item.0.machine, pen.y - 30, pen.y - 50)];
      DrawOne(b[0]);
    } else {
      b := [];
    }
    if rowY - 15 < BottomMargin {
      t := [PageBreak];
      DrawOne(PageBreak);
    } else {
      t := [];
    }
    DrawnParts(Step(pen, item, height).0, b, r, t, header, row, brk);
  }

  /** Commands drawn part by part are the drawing of the whole run. */
  lemma DrawnParts(es: seq<Element>, b: seq<Element>, r: Element, t: seq<Element>,
                   header: seq<Command>, row: seq<Command>, brk: seq<Command>)
    requires es == b + [r] + t
    requires header == Draw(b) && row == Render(r) && brk == Draw(t)
    ensures header + row + brk == Draw(es)
  {
    DrawParts(b, r, t);
  }

  /**
   * The body of the loop in `generate_pdf_bytes` for one cart line: the
   * header block when the machine changes, the row, and the page break
   * when the cursor falls below the bottom margin.
   */
  method PlaceLine(key: Key, line: Line, y0: int, current0: Option<string>, height: int)
    returns (commands: seq<Command>, y: int, current: Option<string>)
    ensures commands == Draw(Step(Pen(y0, current0), (key, line), height).0)
    ensures Pen(y, current) == Step(Pen(y0, current0), (key, line), height).1
  {
    commands := [];
    y := y0;
    current := current0;
    if current != Some(key.machine) {
      y := y - 30;
      commands := commands + [SetFont(HelveticaBold, 14), DrawString(50, y, "Machine: " + key.machine)];
      y := y - 20;
      commands := commands + [SetFont(HelveticaBold, 10), DrawString(60, y, "Code"),
                              DrawString(160, y, "Description"), DrawString(460, y, "Quantity")];
      y := y - 15;
      current := Some(key.machine);
    }
    ghost var header := commands;
    var rowCommands := [SetFont(Helvetica, 10), DrawString(60, y, key.code),
                        DrawString(160, y, Truncate(line.description)),
                        DrawString(460, y, NatToDecimal(line.quantity))];
    commands := commands + rowCommands;
    y := y - 15;
    ghost var brk: seq<Command> := [];
    if y < BottomMargin {
      commands := commands + [ShowPage];
      brk := [ShowPage];
      y := height - 50;
    }
    StepDrawn(Pen(y0, current0), (key, line), height, header, rowCommands, brk);
    StepElements(Pen(y0, current0), (key, line), height);
  }

  /**
   * `generate_pdf_bytes`: walks the cart's lines in key order, keeping the
   * cursor and the current machine, and issues the drawing commands; the
   * command log is exactly the rendering of the layout.
   */
  method GeneratePdf(cart: CartMap, height: int) returns (commands: seq<Command>)
    ensures commands == Draw(Layout(cart, height))
  {
    var items := SortedItems(cart);
    commands := [SetFont(Helvetica, 16), DrawString(50, height - 50, "Spare Parts Order"), SetFont(Helvetica, 12)];
    var y := height - 90;
    var current: Option<string> := None;
    DrawOne(Title(height - 50));
    DrawAppend([Title(height - 50)], LayoutFrom(items, 0, Pen(y, current), height));
    var i := 0;
    while i < |items|
      invariant 0 <= i <= |items|
      invariant commands + Draw(LayoutFrom(items, i, Pen(y, current), height)) == Draw(Layout(cart, height))
    {
      ghost var pen := Pen(y, current);
      ghost var before := commands;
      var drawn;
      drawn, y, current := PlaceLine(items[i].0, items[i].1, y, current, height);
      commands := commands + drawn;
      LoopStep(items, i, pen, height, before, drawn, commands, Draw(Layout(cart, height)));
      i := i + 1;
    }
  }

  // ---------------------------------------------------------------------
  // What the layout contains
  // ---------------------------------------------------------------------

  /** The printed content of the document, without positions, title or page breaks. */
  datatype OutlineLine = Heading(machine: string) | Entry(code: string, description: string, quantity: string)

  function OutlineOf(e: Element): seq<OutlineLine>
  {
    match e
    case MachineBlock(m, _, _) => [Heading(m)]
    case Row(c, d, q, _) => [Entry(c, d, q)]
    case _ => []
  }

  function Outline(es: seq<Element>): seq<OutlineLine>
    decreases |es|
  {
    if es == [] then [] else OutlineOf(es[0]) + Outline(es[1..])
  }

  lemma {:induction false} OutlineAppend(a: seq<Element>, b: seq<Element>)
    ensures Outline(a + b) == Outline(a) + Outline(b)
    decreases |a|
  {
    if a != [] {
      assert (a + b)[0] == a[0];
      assert (a + b)[1..] == a[1..] + b;
      OutlineAppend(a[1..], b);
      calc {
        Outline(a + b);
        OutlineOf(a[0]) + Outline(a[1..] + b);
        OutlineOf(a[0]) + (Outline(a[1..]) + Outline(b));
        (OutlineOf(a[0]) + Outline(a[1..])) + Outline(b);
      }
    } else {
      assert a + b == b;
    }
  }

  /** Line `i` is the first of a run of lines of the same machine. */
  predicate NewMachine(items: seq<(Key, Line)>, i: nat)
    requires i < |items|
  {
    i == 0 || items[i - 1].0.machine != items[i].0.machine
  }

  /** The printed row of a cart line. */
  function EntryFor(item: (Key, Line)): OutlineLine
  {
    Entry(item.0.code, Truncate(item.1.description), NatToDecimal(item.1.quantity))
  }

  /**
   * The reference content, independent of the cursor and of pages: for each
   * line in order, a machine heading if it starts a new machine, then its row.
   */
  function Expected(items: seq<(Key, Line)>, i: nat): seq<OutlineLine>
    requires i <= |items|
    decreases |items| - i
  {
    if i == |items| then []
    else (if NewMachine(items, i) then [Heading(items[i].0.machine)] else []) + [EntryFor(items[i])] + Expected(items, i + 1)
  }

  /** What one step prints: the machine heading when the machine changes, then the row. */
  lemma StepOutline(pen: Pen, item: (Key, Line), height: int)
    ensures Outline(Step(pen, item, height).0) ==
              (if pen.current != Some(item.0.machine) then [Heading(item.0.machine)] else []) + [EntryFor(item)]
  {
    var es := Step(pen, item, height).0;
    var k := if pen.current != Some(item.0.machine) then 1 else 0;
    OutlineAppend(es[..k], es[k..]);
    assert es == es[..k] + es[k..];
    OutlineAppend([es[k]], es[k + 1..]);
    assert es[k..] == [es[k]] + es[k + 1..];
    assert Outline([es[k]]) == OutlineOf(es[k]) by {
      assert [es[k]][1..] == [];
    }
    if k == 1 {
      assert Outline(es[..1]) == OutlineOf(es[0]) by {
        assert es[..1][1..] == [];
      }
    }
    if |es| == k + 2 {
      assert Outline(es[k + 1..]) == OutlineOf(es[k + 1]) by {
        assert es[k + 1..][1..] == [];
      }
    }
  }

  lemma {:induction false} OutlineFrom(items: seq<(Key, Line)>, i: nat, pen: Pen, height: int)
    requires i <= |items|
    requires pen.current == if i == 0 then None else Some(items[i - 1].0.machine)
    ensures Outline(LayoutFrom(items, i, pen, height)) == Expected(items, i)
    decreases |items| - i
  {
    if i < |items| {
      var step := Step(pen, items[i], height);
      OutlineFrom(items, i + 1, step.1, height);
      OutlineAppend(step.0, LayoutFrom(items, i + 1, step.1, height));
      StepOutline(pen, items[i], height);
      StepElements(pen, items[i], height);
      assert (pen.current != Some(items[i].0.machine)) == NewMachine(items, i);
    }
  }

  /**
   * The document prints, in ascending key order, every cart line's row (code,
   * description cut to 70 characters, quantity), each preceded by its
   * machine's heading exactly when it is the first line of that machine.
   */
  lemma LayoutContent(cart: CartMap, height: int)
    ensures Outline(Layout(cart, height)) == Expected(SortedItems(cart), 0)
  {
    var rest := LayoutFrom(SortedItems(cart), 0, Pen(height - 90, None), height);
    OutlineAppend([Title(height - 50)], rest);
    OutlineFrom(SortedItems(cart), 0, Pen(height - 90, None), height);
    assert Outline([Title(height - 50)]) == [] by {
      assert [Title(height - 50)][1..] == [];
    }
  }

  /**
   * Because lines come in key order, a machine's lines are contiguous: a line
   * gets a heading exactly when no earlier line has its machine, so every
   * machine's heading is printed once, right before its first row.
   */
  lemma HeadingOncePerMachine(cart: CartMap, i: nat)
    requires i < |SortedItems(cart)|
    ensures NewMachine(SortedItems(cart), i) <==>
              forall j :: 0 <= j < i ==> SortedItems(cart)[j].0.machine != SortedItems(cart)[i].0.machine
  {
    var items := SortedItems(cart);
    if i > 0 && NewMachine(items, i) {
      forall j | 0 <= j < i
        ensures items[j].0.machine != items[i].0.machine
      {
        if j < i - 1 && items[j].0.machine == items[i].0.machine {
          SortedItemsAscending(cart);
          var a, b, c := items[j].0, items[i - 1].0, items[i].0;
          assert KeyLt(a, b) && KeyLt(b, c);
          assert StrLt(a.machine, b.machine) by {
            if a.machine == b.machine {
              assert false;
            }
          }
          assert StrLt(b.machine, c.machine);
          StrLtAsymmetric(a.machine, b.machine);
        }
      }
    }
  }

  /** A page break never starts a run and always comes right after a row. */
  ghost predicate BreaksAfterRows(es: seq<Element>)
  {
    && (es != [] ==> !es[0].PageBreak?)
    && (forall h, j :: 0 <= h < j < |es| && j == h + 1 && es[j].PageBreak? ==> es[h].Row?)
  }

  /** A header block never ends a run and is always followed right away by a row. */
  ghost predicate HeadersBeforeRows(es: seq<Element>)
  {
    && (es != [] ==> !es[|es| - 1].MachineBlock?)
    && (forall h, j :: 0 <= h < j < |es| && j == h + 1 && es[h].MachineBlock? ==> es[j].Row?)
  }

  lemma BreaksAppend(a: seq<Element>, b: seq<Element>)
    requires BreaksAfterRows(a) && BreaksAfterRows(b)
    ensures BreaksAfterRows(a + b)
  {
    var es := a + b;
    forall h, j | 0 <= h < j < |es| && j == h + 1 && es[j].PageBreak?
      ensures es[h].Row?
    {
      if j > |a| {
        assert es[j] == b[j - |a|] && es[h] == b[h - |a|];
      } else if j < |a| {
        assert es[j] == a[j] && es[h] == a[h];
      }
    }
    if a == [] {
      assert es == b;
    } else {
      assert es[0] == a[0];
    }
  }

  lemma HeadersAppend(a: seq<Element>, b: seq<Element>)
    requires HeadersBeforeRows(a) && HeadersBeforeRows(b)
    ensures HeadersBeforeRows(a + b)
  {
    var es := a + b;
    forall h, j | 0 <= h < j < |es| && j == h + 1 && es[h].MachineBlock?
      ensures es[j].Row?
    {
      if j > |a| {
        assert es[j] == b[j - |a|] && es[h] == b[h - |a|];
      } else if j < |a| {
        assert es[j] == a[j] && es[h] == a[h];
      }
    }
    if b == [] {
      assert es == a;
    } else {
      assert es[|es| - 1] == b[|b| - 1];
    }
  }

  lemma StepAdjacency(pen: Pen, item: (Key, Line), height: int)
    ensures BreaksAfterRows(Step(pen, item, height).0) && HeadersBeforeRows(Step(pen, item, height).0)
  {
    StepElements(pen, item, height);
  }

  /**
   * Pagination has no look-ahead but never separates a header block from its
   * first row: a header block is always followed directly by a row, and a page
   * break always comes directly after a row.
   */
  lemma {:induction false} LayoutAdjacency(items: seq<(Key, Line)>, i: nat, pen: Pen, height: int)
    requires i <= |items|
    ensures BreaksAfterRows(LayoutFrom(items, i, pen, height))
    ensures HeadersBeforeRows(LayoutFrom(items, i, pen, height))
    decreases |items| - i
  {
    if i < |items| {
      var step := Step(pen, items[i], height);
      var rest := LayoutFrom(items, i + 1, step.1, height);
      StepAdjacency(pen, items[i], height);
      LayoutAdjacency(items, i + 1, step.1, height);
      BreaksAppend(step.0, rest);
      HeadersAppend(step.0, rest);
    }
  }

  /** The same for the whole document, title included. */
  lemma DocumentAdjacency(cart: CartMap, height: int)
    ensures BreaksAfterRows(Layout(cart, height)) && HeadersBeforeRows(Layout(cart, height))
  {
    var rest := LayoutFrom(SortedItems(cart), 0, Pen(height - 90, None), height);
    LayoutAdjacency(SortedItems(cart), 0, Pen(height - 90, None), height);
    BreaksAppend([Title(height - 50)], rest);
    HeadersAppend([Title(height - 50)], rest);
  }

  /** No row is drawn lower than 65 points below the bottom margin. */
  ghost predicate RowsAboveFloor(es: seq<Element>)
  {
    forall j :: 0 <= j < |es| && es[j].Row? ==> es[j].y >= BottomMargin - 65
  }

  /** A row that does not come right after a header block is at or above the bottom margin. */
  ghost predicate FollowersAboveMargin(es: seq<Element>)
  {
    && (es != [] && es[0].Row? ==> es[0].y >= BottomMargin)
    && (forall h, j :: 0 <= h < j < |es| && j == h + 1 && es[j].Row? && !es[h].MachineBlock? ==> es[j].y >= BottomMargin)
  }

  /**
   * The cursor property of a run of elements: every row is drawn at or above
   * the bottom margin, except the first row under a machine header, which
   * has no look-ahead and may fall up to 65 points below it.
   */
  ghost predicate CursorOk(es: seq<Element>)
  {
    RowsAboveFloor(es) && FollowersAboveMargin(es)
  }

  /** One step from a cursor at or above the margin keeps the property and leaves the cursor there. */
  lemma StepCursor(pen: Pen, item: (Key, Line), height: int)
    requires height - 50 >= BottomMargin && pen.y >= BottomMargin
    ensures var step := Step(pen, item, height);
              CursorOk(step.0) && step.0 != [] && !step.0[|step.0| - 1].MachineBlock? && step.1.y >= BottomMargin
  {
    StepElements(pen, item, height);
  }

  lemma FloorAppend(a: seq<Element>, b: seq<Element>)
    requires RowsAboveFloor(a) && RowsAboveFloor(b)
    ensures RowsAboveFloor(a + b)
  {
    var es := a + b;
    forall j | 0 <= j < |es| && es[j].Row?
      ensures es[j].y >= BottomMargin - 65
    {
      if j >= |a| {
        assert es[j] == b[j - |a|];
      } else {
        assert es[j] == a[j];
      }
    }
  }

  lemma FollowersAppend(a: seq<Element>, b: seq<Element>)
    requires FollowersAboveMargin(a) && FollowersAboveMargin(b)
    requires a != [] ==> !a[|a| - 1].MachineBlock?
    ensures FollowersAboveMargin(a + b)
  {
    var es := a + b;
    forall h, j | 0 <= h < j < |es| && j == h + 1 && es[j].Row? && !es[h].MachineBlock?
      ensures es[j].y >= BottomMargin
    {
      if j > |a| {
        assert es[j] == b[j - |a|] && es[h] == b[h - |a|];
      } else if j == |a| {
        assert es[j] == b[0];
      } else {
        assert es[j] == a[j] && es[h] == a[h];
      }
    }
    if a == [] {
      assert es == b;
    }
  }

  lemma CursorAppend(a: seq<Element>, b: seq<Element>)
    requires CursorOk(a) && CursorOk(b)
    requires a != [] ==> !a[|a| - 1].MachineBlock?
    ensures CursorOk(a + b)
  {
    FloorAppend(a, b);
    FollowersAppend(a, b);
  }

  /** From a cursor at or above the margin, the rest of the layout keeps the cursor property. */
  lemma {:induction false} LayoutCursor(items: seq<(Key, Line)>, i: nat, pen: Pen, height: int)
    requires i <= |items|
    requires height - 50 >= BottomMargin && pen.y >= BottomMargin
    ensures CursorOk(LayoutFrom(items, i, pen, height))
    decreases |items| - i
  {
    if i < |items| {
      var step := Step(pen, items[i], height);
      StepCursor(pen, items[i], height);
      LayoutCursor(items, i + 1, step.1, height);
      CursorAppend(step.0, LayoutFrom(items, i + 1, step.1, height));
    }
  }

  /**
   * On a page of height at least 140 points (an A4 page is 842), the whole
   * document has the cursor property `CursorOk`; the cursor between lines is
   * covered by `CursorAfterEveryLine`.
   */
  lemma LayoutCursorAll(cart: CartMap, height: int)
    requires height >= 140
    ensures CursorOk(Layout(cart, height))
  {
    var rest := LayoutFrom(SortedItems(cart), 0, Pen(height - 90, None), height);
    LayoutCursor(SortedItems(cart), 0, Pen(height - 90, None), height);
    CursorAppend([Title(height - 50)], rest);
  }
}
