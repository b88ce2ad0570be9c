/**
 The text input of the terminal interface (crates/cli/src/tui_app.rs): a text with a cursor counted
 in UTF-8 bytes, and its layout on lines of a given width.
 */
module InputBuffer {
  import opened Wrappers

  // ----- Byte offsets -----

  /** Octets of a character in UTF-8. */
  function Width(c: char): nat {
    var v := c as int;
    if v < 0x80 then 1 else if v < 0x800 then 2 else if v < 0x10000 then 3 else 4
  }

  function ByteLen(s: string): nat {
    if s == [] then 0 else ByteLen(s[..|s| - 1]) + Width(s[|s| - 1])
  }

  /** How many characters fit into the first `offset` bytes. */
  function CharsIn(text: string, offset: nat): (k: nat)
    ensures k <= |text|
  {
    if ByteLen(text) <= offset then |text| else CharsIn(text[..|text| - 1], offset)
  }

  /** The offset does not cut a character in two or lie behind the text. */
  ghost predicate OnBoundary(text: string, offset: nat) {
    ByteLen(text[..CharsIn(text, offset)]) == offset
  }

  lemma {:induction false} ByteLenConcat(x: string, y: string)
    ensures ByteLen(x + y) == ByteLen(x) + ByteLen(y)
  {
    if y == [] {
      assert x + y == x;
    } else {
      assert (x + y)[..|x + y| - 1] == x + y[..|y| - 1];
      ByteLenConcat(x, y[..|y| - 1]);
    }
  }

  lemma {:induction false} Longer(text: string, k: nat)
    requires k < |text|
    ensures ByteLen(text[..k]) < ByteLen(text)
  {
    if k < |text| - 1 {
      Longer(text[..|text| - 1], k);
      assert text[..|text| - 1][..k] == text[..k];
    }
  }

  /** Byte offsets of boundaries and character positions determine each other. */
  lemma {:induction false} BoundaryUnique(text: string, k: nat)
    requires k <= |text|
    ensures CharsIn(text, ByteLen(text[..k])) == k && OnBoundary(text, ByteLen(text[..k]))
  {
    if k == |text| {
      assert text[..k] == text;
    } else {
      Longer(text, k);
      BoundaryUnique(text[..|text| - 1], k);
      assert text[..|text| - 1][..k] == text[..k];
    }
  }

  // ----- UTF-8 -----

  /** The octets of a character, section 3 of RFC 3629. */
  function Encode(c: char): seq<int> {
    var v := c as int;
    if v < 0x80 then [v]
    else if v < 0x800 then [0xC0 + v / 0x40, 0x80 + v % 0x40]
    else if v < 0x10000 then [0xE0 + v / 0x1000, 0x80 + v / 0x40 % 0x40, 0x80 + v % 0x40]
    else [0xF0 + v / 0x40000, 0x80 + v / 0x1000 % 0x40, 0x80 + v / 0x40 % 0x40, 0x80 + v % 0x40]
  }

  predicate Continuation(octet: int) { 0x80 <= octet < 0xC0 }

  /** The code point of a character's octets. */
  function Decode(s: seq<int>): int
    requires 1 <= |s| <= 4
  {
    match |s|
    case 1 => s[0]
    case 2 => (s[0] - 0xC0) * 0x40 + (s[1] - 0x80)
    case 3 => ((s[0] - 0xE0) * 0x40 + (s[1] - 0x80)) * 0x40 + (s[2] - 0x80)
    case _ => (((s[0] - 0xF0) * 0x40 + (s[1] - 0x80)) * 0x40 + (s[2] - 0x80)) * 0x40 + (s[3] - 0x80)
  }

  lemma {:induction false} EncodeShape(c: char)
    ensures |Encode(c)| == Width(c) && !Continuation(Encode(c)[0])
    ensures forall i :: 1 <= i < Width(c) ==> Continuation(Encode(c)[i])
  {
  }

  /** The octets give the character back, and there are as many as the width says. */
  lemma {:induction false} DecodeEncode(c: char)
    ensures |Encode(c)| == Width(c) && Decode(Encode(c)) == c as int
  {
    var v := c as int;
    assert v / 0x1000 == v / 0x40 / 0x40 && v / 0x40000 == v / 0x1000 / 0x40;
  }

  function Octets(text: string): seq<int> {
    if text == "" then [] else Octets(text[..|text| - 1]) + Encode(text[|text| - 1])
  }

  lemma {:induction false} OctetCount(text: string)
    ensures |Octets(text)| == ByteLen(text)
  {
    if text != "" {
      OctetCount(text[..|text| - 1]);
      EncodeShape(text[|text| - 1]);
    }
  }

  /** An offset is on a boundary exactly when it ends the octets or a character begins there. */
  lemma {:induction false} BoundaryExactly(text: string, offset: nat)
    ensures OnBoundary(text, offset) <==>
      offset == |Octets(text)| || (offset < |Octets(text)| && !Continuation(Octets(text)[offset]))
  {
    OctetCount(text);
    if ByteLen(text) <= offset {
      assert text[..|text|] == text;
    } else {
      var init, c := text[..|text| - 1], text[|text| - 1];
      BoundaryExactly(init, offset);
      OctetCount(init);
      EncodeShape(c);
      assert init[..CharsIn(init, offset)] == text[..CharsIn(text, offset)];
    }
  }

  // ----- Editing -----

  /** The text before and after the cursor. */
  datatype Zipper = Zipper(before: string, after: string) {
    function Insert(s: string): Zipper { Zipper(before + s, after) }
    function Start(): Zipper { Zipper("", before + after) }
    function End(): Zipper { Zipper(before + after, "") }
    function Left(): Zipper {
      if before == "" then this else Zipper(before[..|before| - 1], [before[|before| - 1]] + after)
    }
    function Right(): Zipper { if after == "" then this else Zipper(before + [after[0]], after[1..]) }
    function DeleteBefore(): Zipper { if before == "" then this else Zipper(before[..|before| - 1], after) }
    function DeleteAt(): Zipper { if after == "" then this else Zipper(before, after[1..]) }
  }

  function Backspaces(z: Zipper, n: nat): Zipper
    decreases n
  {
    if n == 0 then z else Backspaces(z.DeleteBefore(), n - 1)
  }

  /** As many backspaces as characters undo an insertion. */
  lemma {:induction false} BackspacesUndoInsert(z: Zipper, s: string)
    ensures Backspaces(z.Insert(s), |s|) == z
  {
    if s == "" {
      assert z.before + "" == z.before;
    } else {
      var init := s[..|s| - 1];
      BackspacesUndoInsert(z, init);
      assert (z.before + s)[..|z.before + s| - 1] == z.before + init;
    }
  }

  /** Moving never changes the text, and a step in one direction undoes a step in the other. */
  lemma {:induction false} MovesKeepText(z: Zipper)
    ensures z.Left().before + z.Left().after == z.before + z.after
    ensures z.Right().before + z.Right().after == z.before + z.after
    ensures z.before != "" ==> z.Left().Right() == z
    ensures z.after != "" ==> z.Right().Left() == z
  {
    if z.before != "" {
      assert z.before == z.before[..|z.before| - 1] + [z.before[|z.before| - 1]];
    }
    if z.after != "" {
      assert z.after == [z.after[0]] + z.after[1..];
      assert (z.before + [z.after[0]])[..|z.before|] == z.before;
    }
  }

  function TextOf(z: Zipper): string { z.before + z.after }

  /** Every edit, told by the text and the position of the cursor in it. */
  lemma {:induction false} EditsByPosition(z: Zipper, s: string)
    ensures var text, k := TextOf(z), |z.before|;
      && TextOf(z.Insert(s)) == text[..k] + s + text[k..] && |z.Insert(s).before| == k + |s|
      && TextOf(z.Start()) == text && |z.Start().before| == 0
      && TextOf(z.End()) == text && |z.End().before| == |text|
      && TextOf(z.Left()) == text && |z.Left().before| == (if k > 0 then k - 1 else 0)
      && TextOf(z.Right()) == text && |z.Right().before| == (if k < |text| then k + 1 else |text|)
      && (k > 0 ==> TextOf(z.DeleteBefore()) == text[..k - 1] + text[k..] && |z.DeleteBefore().before| == k - 1)
      && (k == 0 ==> z.DeleteBefore() == z)
      && (k < |text| ==> TextOf(z.DeleteAt()) == text[..k] + text[k + 1..] && |z.DeleteAt().before| == k)
      && (k == |text| ==> z.DeleteAt() == z)
  {
    MovesKeepText(z);
    var text, k := TextOf(z), |z.before|;
    assert text[..k] == z.before && text[k..] == z.after;
    assert k > 0 ==> text[..k - 1] == z.before[..k - 1];
    assert k < |text| ==> text[k + 1..] == z.after[1..];
  }

  lemma {:induction false} ZipperAt(z: Zipper)
    ensures CharsIn(z.before + z.after, ByteLen(z.before)) == |z.before|
    ensures OnBoundary(z.before + z.after, ByteLen(z.before))
    ensures (z.before + z.after)[..|z.before|] == z.before && (z.before + z.after)[|z.before|..] == z.after
  {
    var text := z.before + z.after;
    assert text[..|z.before|] == z.before;
    BoundaryUnique(text, |z.before|);
  }

  /** Every edit keeps the cursor on a boundary and acts as the same edit of the two halves. */
  class Buffer {
    var text: string
    var cursor: nat

    ghost predicate Valid()
      reads this
    {
      OnBoundary(text, cursor)
    }

    ghost function View(): (z: Zipper)
      reads this
    {
      Zipper(text[..CharsIn(text, cursor)], text[CharsIn(text, cursor)..])
    }

    constructor ()
      ensures Valid() && View() == Zipper("", "")
    {
      text, cursor := "", 0;
    }

    /** The state is the one that shows these two halves. */
    lemma Shows(z: Zipper)
      requires text == z.before + z.after && cursor == ByteLen(z.before)
      ensures Valid() && View() == z
    {
      ZipperAt(z);
    }

    method Clear()
      modifies this
      ensures Valid() && View() == Zipper("", "")
    {
      text, cursor := "", 0;
    }

    method Replace(s: string)
      modifies this
      ensures Valid() && View() == Zipper(s, "")
    {
      text, cursor := s, ByteLen(s);
      Shows(Zipper(s, ""));
    }

    method Take() returns (s: string)
      requires Valid()
      modifies this
      ensures Valid() && View() == Zipper("", "") && s == old(View()).before + old(View()).after
    {
      s := text;
      text, cursor := "", 0;
    }

    method InsertChar(c: char)
      requires Valid()
      modifies this
      ensures Valid() && View() == old(View()).Insert([c])
    {
      InsertStr([c]);
    }

    method InsertStr(s: string)
      requires Valid()
      modifies this
      ensures Valid() && View() == old(View()).Insert(s)
    {
      var k := CharsIn(text, cursor);
      ByteLenConcat(text[..k], s);
      text, cursor := text[..k] + s + text[k..], cursor + ByteLen(s);
      Shows(old(View()).Insert(s));
    }

    method MoveStart()
      requires Valid()
      modifies this`cursor
      ensures Valid() && View() == old(View()).Start()
    {
      cursor := 0;
      Shows(old(View()).Start());
    }

    method MoveEnd()
      requires Valid()
      modifies this`cursor
      ensures Valid() && View() == old(View()).End()
    {
      cursor := ByteLen(text);
      assert text == View().before + View().after && text == old(View()).End().before;
      Shows(old(View()).End());
    }

    method MoveLeft()
      requires Valid()
      modifies this`cursor
      ensures Valid() && View() == old(View()).Left()
    {
      var k := CharsIn(text, cursor);
      if k > 0 {
        cursor := ByteLen(text[..k - 1]);
        assert text[..k][..k - 1] == text[..k - 1];
        Shows(old(View()).Left());
      }
    }

    method MoveRight()
      requires Valid()
      modifies this`cursor
      ensures Valid() && View() == old(View()).Right()
    {
      var k := CharsIn(text, cursor);
      if k < |text| {
        cursor := cursor + Width(text[k]);
        assert (text[..k] + [text[k]])[..k] == text[..k];
        Shows(old(View()).Right());
      }
    }

    method DeleteBefore()
      requires Valid()
      modifies this
      ensures Valid() && View() == old(View()).DeleteBefore()
    {
      var k := CharsIn(text, cursor);
      if k == 0 { return; }
      text, cursor := text[..k - 1] + text[k..], ByteLen(text[..k - 1]);
      assert old(text)[..k][..k - 1] == old(text)[..k - 1];
      Shows(old(View()).DeleteBefore());
    }

    method DeleteAt()
      requires Valid()
      modifies this`text
      ensures Valid() && View() == old(View()).DeleteAt()
    {
      var k := CharsIn(text, cursor);
      if k == |text| { return; }
      text := text[..k] + text[k + 1..];
      assert old(text)[k..][1..] == old(text)[k + 1..];
      Shows(old(View()).DeleteAt());
    }

    method KillToStart()
      requires Valid()
      modifies this
      ensures Valid() && View() == Zipper("", old(View()).after)
    {
      text, cursor := text[CharsIn(text, cursor)..], 0;
      Shows(Zipper("", old(View()).after));
    }

    method KillToEnd()
      requires Valid()
      modifies this`text
      ensures Valid() && View() == Zipper(old(View()).before, "")
    {
      text := text[..CharsIn(text, cursor)];
      Shows(Zipper(old(View()).before, ""));
    }
  }

  // ----- Wrapping -----

  type Lines = lines: seq<string> | lines != [] witness [""]

  function Last(lines: Lines): string { lines[|lines| - 1] }

  function Place(lines: Lines, c: char, width: nat): Lines {
    if c == '\n' then lines + [""]
    else if |Last(lines)| == width then lines + [[c]]
    else lines[|lines| - 1 := Last(lines) + [c]]
  }

  function Flow(input: string, width: nat): Lines {
    if input == "" then [""] else Place(Flow(input[..|input| - 1], width), input[|input| - 1], width)
  }

  /** The layout: a text that fills its last line is followed by an empty one. */
  function Layout(input: string, width: nat): Lines {
    var lines := Flow(input, width);
    if |Last(lines)| == width then lines + [""] else lines
  }

  datatype Cell = Cell(row: nat, column: nat)

  /** The cell behind a text: the end of its own layout. */
  function EndCell(input: string, width: nat): Cell {
    var lines := Layout(input, width);
    Cell(|lines| - 1, |Last(lines)|)
  }

  /** Where the cursor is: behind the text before it. An offset inside a character counts as the end. */
  ghost function CursorCell(input: string, cursor: nat, width: nat): Cell {
    EndCell(if OnBoundary(input, cursor) then input[..CharsIn(input, cursor)] else input, width)
  }

  /** On a boundary the cell ends the layout of the text before the cursor; elsewhere that of the whole text. */
  lemma {:induction false} CursorCellAt(input: string, cursor: nat, width: nat)
    ensures forall k :: 0 <= k <= |input| && ByteLen(input[..k]) == cursor ==>
      CursorCell(input, cursor, width) == EndCell(input[..k], width)
    ensures (forall k :: 0 <= k <= |input| ==> ByteLen(input[..k]) != cursor) ==>
      CursorCell(input, cursor, width) == EndCell(input, width)
  {
    forall k | 0 <= k <= |input| && ByteLen(input[..k]) == cursor
      ensures CursorCell(input, cursor, width) == EndCell(input[..k], width)
    {
      BoundaryUnique(input, k);
    }
  }

  function CellAfter(lines: Lines, width: nat): Cell {
    if |Last(lines)| == width then Cell(|lines|, 0) else Cell(|lines| - 1, |Last(lines)|)
  }

  /** One more character: its place, the offset behind it, and whether the cursor is before it. */
  lemma {:induction false} NextChar(input: string, cursor: nat, i: nat, width: nat)
    requires i < |input|
    ensures Flow(input[..i + 1], width) == Place(Flow(input[..i], width), input[i], width)
    ensures ByteLen(input[..i + 1]) == ByteLen(input[..i]) + Width(input[i])
    ensures ByteLen(input[..i]) == cursor <==> CursorIndex(input, cursor) == Some(i)
  {
    assert input[..i + 1][..i] == input[..i];
    BoundaryUnique(input, i);
  }

  /** The number of characters before the cursor, if it is on a boundary. */
  ghost function CursorIndex(input: string, cursor: nat): (k: Option<nat>)
    ensures k.Some? ==> k.value <= |input|
  {
    if OnBoundary(input, cursor) then Some(CharsIn(input, cursor)) else None
  }

  /** Opening a line and putting a character on it adds a line that holds the character. */
  lemma {:induction false} OnNewLine(lines: Lines, c: char)
    ensures (lines + [""])[|lines| := Last(lines + [""]) + [c]] == lines + [[c]]
  {
    assert "" + [c] == [c];
  }

  /** The body of the loop over the characters. */
  method PlaceChar(lines: Lines, column: nat, ch: char, width: nat, here: bool, position: Option<Cell>)
    returns (lines': Lines, column': nat, position': Option<Cell>)
    requires column == |Last(lines)|
    ensures lines' == Place(lines, ch, width) && column' == |Last(lines')|
    ensures position' == if here then Some(CellAfter(lines, width)) else position
  {
    lines', column', position' := lines, column, position;
    var wraps := column == width;
    OnNewLine(lines, ch);
    if ch == '\n' || wraps {
      if here {
        position' := Some(if wraps then Cell(|lines|, 0) else Cell(|lines| - 1, column));
      }
      lines' := lines + [""];
      column' := 0;
      if ch == '\n' { return; }
    }
    if here {
      position' := Some(Cell(|lines'| - 1, column'));
    }
    lines' := lines'[|lines'| - 1 := Last(lines') + [ch]];
    column' := column' + 1;
  }

  /** The lines do not depend on the cursor, and the cursor's cell depends only on the text before it. */
  method WrapInputChars(input: string, cursor: nat, width: nat) returns (lines: seq<string>, row: nat, column: nat)
    ensures lines == Layout(input, width)
    ensures Cell(row, column) == CursorCell(input, cursor, width)
  {
    var position: Option<Cell> := None;
    var rows: Lines := [""];
    column := 0;
    var index := 0;
    ghost var k := CursorIndex(input, cursor);
    for i := 0 to |input|
      invariant rows == Flow(input[..i], width) && column == |Last(rows)| && index == ByteLen(input[..i])
      invariant position ==
        if k.Some? && k.value < i then Some(CellAfter(Flow(input[..k.value], width), width)) else None
    {
      NextChar(input, cursor, i, width);
      rows, column, position := PlaceChar(rows, column, input[i], width, index == cursor, position);
      index := index + Width(input[i]);
    }
    assert input[..|input|] == input;
    lines := rows;
    if column == width {
      lines := lines + [""];
      column := 0;
    }
    var cell := if position.Some? then position.value else Cell(|lines| - 1, column);
    row, column := cell.row, cell.column;
  }

  function Joined(lines: seq<string>): string {
    if lines == [] then "" else Joined(lines[..|lines| - 1]) + lines[|lines| - 1]
  }

  function WithoutNewlines(input: string): string {
    if input == "" then ""
    else WithoutNewlines(input[..|input| - 1]) + if input[|input| - 1] == '\n' then "" else [input[|input| - 1]]
  }

  lemma {:induction false} JoinedPlace(lines: Lines, c: char, width: nat)
    ensures Joined(Place(lines, c, width)) == Joined(lines) + if c == '\n' then "" else [c]
  {
    var placed := Place(lines, c, width);
    if c == '\n' || |Last(lines)| == width {
      assert placed[..|lines|] == lines;
    } else {
      assert placed[..|lines| - 1] == lines[..|lines| - 1];
      assert Joined(lines[..|lines| - 1]) + (Last(lines) + [c]) == Joined(lines) + [c];
    }
  }

  lemma {:induction false} FlowKeepsText(input: string, width: nat)
    ensures Joined(Flow(input, width)) == WithoutNewlines(input)
    ensures width >= 1 ==> forall i :: 0 <= i < |Flow(input, width)| ==> |Flow(input, width)[i]| <= width
  {
    if input == "" {
      assert [""][..0] == [];
    } else {
      FlowKeepsText(input[..|input| - 1], width);
      JoinedPlace(Flow(input[..|input| - 1], width), input[|input| - 1], width);
    }
  }

  /** The lines hold the text without its newlines, and fit the width. */
  lemma {:induction false} LayoutKeepsText(input: string, width: nat)
    ensures Joined(Layout(input, width)) == WithoutNewlines(input)
    ensures width >= 1 ==> forall i :: 0 <= i < |Layout(input, width)| ==> |Layout(input, width)[i]| <= width
  {
    FlowKeepsText(input, width);
    var lines := Flow(input, width);
    if |Last(lines)| == width {
      assert Layout(input, width)[..|lines|] == lines;
      assert Joined(lines) + "" == Joined(lines);
    }
  }

  /** A newline ends its line, and what follows is laid out afresh. */
  lemma {:induction false} NewlineBreaks(x: string, y: string, width: nat)
    ensures Flow(x + "\n" + y, width) == Flow(x, width) + Flow(y, width)
  {
    var all := x + "\n" + y;
    if y == "" {
      assert all[..|all| - 1] == x && all[|all| - 1] == '\n';
    } else {
      var init := y[..|y| - 1];
      NewlineBreaks(x, init, width);
      assert all[..|all| - 1] == x + "\n" + init;
      PlaceBehind(Flow(x, width), Flow(init, width), y[|y| - 1], width);
    }
  }

  lemma {:induction false} PlaceBehind(first: Lines, lines: Lines, c: char, width: nat)
    ensures Place(first + lines, c, width) == first + Place(lines, c, width)
  {
    assert Last(first + lines) == Last(lines);
  }

  /** Without a newline, every line but the last is full, and the last is empty only for the empty text. */
  lemma {:induction false} OnlyFullLinesWrap(input: string, width: nat)
    requires width >= 1 && '\n' !in input
    ensures forall i :: 0 <= i < |Flow(input, width)| - 1 ==> |Flow(input, width)[i]| == width
    ensures Last(Flow(input, width)) == "" <==> input == ""
  {
    if input != "" {
      assert input[|input| - 1] in input && forall c :: c in input[..|input| - 1] ==> c in input;
      OnlyFullLinesWrap(input[..|input| - 1], width);
    }
  }

  /** Later text only adds lines and extends the last one. */
  ghost predicate Continues(lines: Lines, more: Lines) {
    && |lines| <= |more|
    && (forall i :: 0 <= i < |lines| - 1 ==> more[i] == lines[i])
    && Last(lines) <= more[|lines| - 1]
  }

  lemma {:induction false} FlowContinues(input: string, k: nat, width: nat)
    requires k <= |input|
    ensures Continues(Flow(input[..k], width), Flow(input, width))
  {
    if k == |input| {
      assert input[..k] == input;
    } else {
      var init := input[..|input| - 1];
      FlowContinues(init, k, width);
      assert init[..k] == input[..k];
    }
  }

  lemma {:induction false} LayoutContinues(input: string, k: nat, width: nat)
    requires k < |input|
    ensures Continues(Flow(input[..k + 1], width), Layout(input, width))
  {
    FlowContinues(input, k + 1, width);
  }

  /** The cursor's cell is inside the layout, in a column that exists, and shows the character at the cursor. */
  lemma {:induction false} CursorInLayout(input: string, k: nat, width: nat)
    requires k <= |input| && width >= 1
    ensures var lines, cell := Layout(input, width), EndCell(input[..k], width);
      && cell.row < |lines| && cell.column < width && cell.column <= |lines[cell.row]|
      && (k < |input| && input[k] != '\n' ==>
            cell.column < |lines[cell.row]| && lines[cell.row][cell.column] == input[k])
  {
    LayoutKeepsText(input[..k], width);
    if k == |input| {
      assert input[..k] == input;
    } else {
      assert input[..k + 1][..k] == input[..k];
      LayoutContinues(input, k, width);
    }
  }

  predicate Before(a: Cell, b: Cell) { a.row < b.row || (a.row == b.row && a.column < b.column) }

  /** The one place where two cursor positions share a cell: around a newline that ends a full line. */
  predicate SharedCell(input: string, k: nat, width: nat)
    requires k < |input|
  {
    input[k] == '\n' && |Last(Flow(input[..k], width))| == width
  }

  /** Two cursor positions can share a cell: on width 2, before and after the newline of "ab\n". */
  lemma {:induction false} NewlineSharesCell()
    ensures SharedCell("ab\n", 2, 2) && EndCell("ab\n"[..2], 2) == EndCell("ab\n"[..3], 2) == Cell(1, 0)
  {
    var text := "ab\n";
    assert text[..1][..0] == "" && text[..2][..1] == text[..1] && text[..3][..2] == text[..2];
    assert "" + ['a'] == "a" && "a" + ['b'] == "ab";
    assert Place([""], 'a', 2) == ["a"] && Place(["a"], 'b', 2) == ["ab"];
    assert Flow(text[..0], 2) == [""] && text[..1][0] == 'a' && text[..2][1] == 'b';
    assert Flow(text[..1], 2) == ["a"];
    assert Flow(text[..2], 2) == ["ab"];
    assert Flow(text[..3], 2) == ["ab", ""];
  }

  lemma {:induction false} CursorStep(input: string, k: nat, width: nat)
    requires k < |input| && width >= 1
    ensures var here, next := EndCell(input[..k], width), EndCell(input[..k + 1], width);
      if SharedCell(input, k, width)
      then here == next && (k + 1 < |input| ==> !SharedCell(input, k + 1, width))
      else Before(here, next)
  {
    assert input[..k + 1][..k] == input[..k];
    FlowKeepsText(input[..k], width);
    FlowKeepsText(input[..k + 1], width);
  }

  /** The cells from `j` to `k` do not go back, and stay only at a single newline that ends a full line. */
  ghost predicate Forward(a: Cell, b: Cell, shared: bool) { if shared then a == b else Before(a, b) }

  /** Moving the cursor forward never moves its cell back, and keeps it only around such newlines. */
  lemma {:induction false} CursorMonotone(input: string, j: nat, k: nat, width: nat)
    requires j < k <= |input| && width >= 1
    ensures Forward(EndCell(input[..j], width), EndCell(input[..k], width), k == j + 1 && SharedCell(input, j, width))
    decreases k - j
  {
    var cells := seq(|input| + 1, i requires 0 <= i <= |input| => EndCell(input[..i], width));
    var shared := seq(|input|, i requires 0 <= i < |input| => SharedCell(input, i, width));
    forall i | 0 <= i < |input|
      ensures Forward(cells[i], cells[i + 1], shared[i]) && (shared[i] && i + 1 < |input| ==> !shared[i + 1])
    {
      CursorStep(input, i, width);
    }
    ForwardChain(cells, shared, j, k);
  }

  lemma {:induction false} ForwardChain(cells: seq<Cell>, shared: seq<bool>, j: nat, k: nat)
    requires |cells| == |shared| + 1 && j < k < |cells|
    requires forall i :: 0 <= i < |shared| ==> Forward(cells[i], cells[i + 1], shared[i])
    requires forall i :: 0 <= i < |shared| - 1 ==> shared[i] ==> !shared[i + 1]
    ensures Forward(cells[j], cells[k], k == j + 1 && shared[j])
    decreases k - j
  {
    if j < k - 1 {
      ForwardChain(cells, shared, j, k - 1);
      assert Forward(cells[k - 1], cells[k - 1 + 1], shared[k - 1]);
    }
  }
}
