/** The block machine of generate_docs_html.py: one pass over the lines of a document, with at most
    one paragraph, list or table open, against the grouping of lines it amounts to. */
module Markdown {

  // --------------------------------------------------------------------- lines

  datatype ListKind = Unordered | Ordered

  /** What a stripped line is, in the order the machine tries. */
  datatype Kind =
    | Fence(language: string)
    | Blank
    | Row(cells: seq<string>)
    | Heading(level: nat, title: string)
    | Bullet(list: ListKind, item: string)
    | Prose(text: string)

  datatype Line = Line(raw: string, kind: Kind)

  // -------------------------------------------------------------------- output

  datatype Token =
    | Paragraph(lines: seq<string>)
    | Title(level: nat, title: string)
    | Code(language: string, code: seq<string>)
    | OpenList(begun: ListKind)
    | Item(of: ListKind, item: string)
    | CloseList(ended: ListKind)
    | OpenTable
    | HeaderRow(header: seq<string>)
    | OpenBody
    | BodyRow(cells: seq<string>)
    | CloseBody
    | CloseTable

  // ------------------------------------------------------------------- tables

  function WithoutSpaces(s: string): string {
    if s == "" then "" else (if s[0] == ' ' then "" else [s[0]]) + WithoutSpaces(s[1..])
  }

  /** Three or more dashes, with or without a colon at either end. */
  predicate IsRule(cell: string) {
    var u := WithoutColons(WithoutSpaces(cell));
    |u| >= 3 && AllDashes(u)
  }

  predicate AllDashes(s: string) {
    forall i :: 0 <= i < |s| ==> s[i] == '-'
  }

  function WithoutColons(s: string): string {
    var t := if s != "" && s[0] == ':' then s[1..] else s;
    if t != "" && t[|t| - 1] == ':' then t[..|t| - 1] else t
  }

  predicate IsSeparator(cells: seq<string>) {
    cells != [] && forall i :: 0 <= i < |cells| ==> IsRule(cells[i])
  }

  /** A row cut or padded to a width. */
  function Fit(row: seq<string>, width: nat): (r: seq<string>)
    ensures |r| == width
    ensures forall i :: 0 <= i < width ==> r[i] == if i < |row| then row[i] else ""
  {
    if |row| >= width then row[..width] else row + seq(width - |row|, _ => "")
  }

  function BodyRows(rows: seq<seq<string>>, width: nat): seq<Token> {
    if rows == [] then [] else [BodyRow(Fit(rows[0], width))] + BodyRows(rows[1..], width)
  }

  function TableOf(rows: seq<seq<string>>): seq<Token>
    requires rows != []
  {
    var body := if |rows| >= 2 && IsSeparator(rows[1]) then rows[2..] else rows[1..];
    [OpenTable, HeaderRow(rows[0])]
    + (if body == [] then [] else [OpenBody] + BodyRows(body, |rows[0]|) + [CloseBody])
    + [CloseTable]
  }

  function Dashes(n: nat): string {
    seq(n, _ => '-')
  }

  lemma {:induction false} SpacesAppend(a: string, b: string)
    ensures WithoutSpaces(a + b) == WithoutSpaces(a) + WithoutSpaces(b)
    decreases |a|
  {
    if a == "" {
      assert a + b == b;
    } else {
      assert (a + b)[1..] == a[1..] + b;
      SpacesAppend(a[1..], b);
    }
  }

  lemma {:induction false} NoSpacesStay(s: string)
    requires ' ' !in s
    ensures WithoutSpaces(s) == s
    decreases |s|
  {
    if s != "" {
      NoSpacesStay(s[1..]);
    }
  }

  /** A space anywhere makes no difference, and all else stays: this says what is left of any cell. */
  lemma SpacesLeftOut(a: string, b: string)
    ensures WithoutSpaces(a + " " + b) == WithoutSpaces(a + b)
    ensures ' ' !in a + b ==> WithoutSpaces(a + b) == a + b
  {
    SpacesAppend(a + " ", b);
    SpacesAppend(a, " ");
    SpacesAppend(a, b);
    if ' ' !in a + b {
      NoSpacesStay(a + b);
    }
  }

  /** A separator's cell: without spaces three dashes or more, with or without a colon before and after. */
  lemma RuleIff(cell: string)
    ensures IsRule(cell) <==> IsRuleText(WithoutSpaces(cell))
  {
    RuleTextIff(WithoutSpaces(cell));
  }

  lemma RuleTextIff(s: string)
    ensures |WithoutColons(s)| >= 3 && AllDashes(WithoutColons(s)) <==> IsRuleText(s)
  {
    var u := WithoutColons(s);
    if |u| >= 3 && AllDashes(u) {
      assert u == Dashes(|u|);
      ColonsBack(s);
      assert IsRuleOf(s, |u|);
    }
    if n: nat :| IsRuleOf(s, n) {
      RuleParts(s, n);
    }
  }

  ghost predicate IsRuleText(s: string) {
    exists n :: IsRuleOf(s, n)
  }

  ghost predicate IsRuleOf(s: string, n: nat) {
    n >= 3 && (s == Dashes(n) || s == ":" + Dashes(n) || s == Dashes(n) + ":" || s == ":" + Dashes(n) + ":")
  }

  lemma ColonsBack(s: string)
    ensures var u := WithoutColons(s); s == u || s == ":" + u || s == u + ":" || s == ":" + u + ":"
  {
    var t := if s != "" && s[0] == ':' then s[1..] else s;
    var u := WithoutColons(s);
    assert s == t || s == ":" + t;
    assert t == u || t == u + ":";
    assert ":" + (u + ":") == ":" + u + ":";
  }

  lemma RuleParts(s: string, n: nat)
    requires IsRuleOf(s, n)
    ensures WithoutColons(s) == Dashes(n)
  {
    assert Dashes(n)[0] == '-' && Dashes(n)[n - 1] == '-';
    var t := if s[0] == ':' then s[1..] else s;
    assert t == Dashes(n) || t == Dashes(n) + ":";
  }

  lemma {:induction false} BodyRowAt(rows: seq<seq<string>>, width: nat, i: nat)
    requires i < |rows|
    ensures |BodyRows(rows, width)| == |rows| && BodyRows(rows, width)[i] == BodyRow(Fit(rows[i], width))
    decreases |rows|
  {
    if |rows| > 1 {
      BodyRowAt(rows[1..], width, if i == 0 then 0 else i - 1);
    }
  }

  lemma {:induction false} TableOfBody(header: seq<string>, body: seq<seq<string>>)
    requires body != []
    ensures IsTable([OpenTable, HeaderRow(header)] + ([OpenBody] + BodyRows(body, |header|) + [CloseBody]) + [CloseTable], header, body)
  {
    forall i | 0 <= i < |body|
      ensures |BodyRows(body, |header|)| == |body| && BodyRows(body, |header|)[i] == BodyRow(Fit(body[i], |header|))
    {
      BodyRowAt(body, |header|, i);
    }
  }

  /** A table token by token: its first row is the header; the others, without the second if that is
      a separator, are body rows of the header's width, in order, and without any there is no body. */
  lemma {:induction false} TableTold(rows: seq<seq<string>>)
    requires rows != []
    ensures var skip := if |rows| >= 2 && rows[1] != [] && (forall i :: 0 <= i < |rows[1]| ==> IsRule(rows[1][i])) then 2 else 1;
            IsTable(TableOf(rows), rows[0], rows[skip..])
  {
    var skip := if |rows| >= 2 && IsSeparator(rows[1]) then 2 else 1;
    if rows[skip..] != [] {
      TableOfBody(rows[0], rows[skip..]);
    } else {
      assert [OpenTable, HeaderRow(rows[0])] + [] + [CloseTable] == [OpenTable, HeaderRow(rows[0]), CloseTable];
    }
  }

  ghost predicate IsTable(out: seq<Token>, header: seq<string>, body: seq<seq<string>>) {
    if body == [] then out == [OpenTable, HeaderRow(header), CloseTable]
    else
      && |out| == |body| + 5
      && out[..3] == [OpenTable, HeaderRow(header), OpenBody]
      && (forall i :: 0 <= i < |body| ==> out[3 + i] == BodyRow(Fit(body[i], |header|)))
      && out[3 + |body|..] == [CloseBody, CloseTable]
  }

  // ----------------------------------------------------------- documents as groups

  /** The leading lines of a document that continue an open paragraph, table, list or code block. */
  function LeadProse(lines: seq<Line>): (r: seq<string>)
    ensures |r| <= |lines|
  {
    if lines != [] && lines[0].kind.Prose? then [lines[0].kind.text] + LeadProse(lines[1..]) else []
  }

  function LeadRows(lines: seq<Line>): (r: seq<seq<string>>)
    ensures |r| <= |lines|
  {
    if lines != [] && lines[0].kind.Row? then [lines[0].kind.cells] + LeadRows(lines[1..]) else []
  }

  function LeadItems(lines: seq<Line>, list: ListKind): (r: seq<string>)
    ensures |r| <= |lines|
    decreases |lines|
  {
    if lines != [] && lines[0].kind.Bullet? && lines[0].kind.list == list
    then [lines[0].kind.item] + LeadItems(lines[1..], list) else []
  }

  function LeadCode(lines: seq<Line>): (r: seq<string>)
    ensures |r| <= |lines|
  {
    if lines != [] && !lines[0].kind.Fence? then [lines[0].raw] + LeadCode(lines[1..]) else []
  }

  function Items(list: ListKind, items: seq<string>): (tokens: seq<Token>)
    ensures |tokens| == |items| && forall i :: 0 <= i < |items| ==> tokens[i] == Item(list, items[i])
  {
    seq(|items|, i requires 0 <= i < |items| => Item(list, items[i]))
  }

  /** A document by its groups: each maximal run of prose, of rows or of items of one kind is one
      block, each fence opens code up to the next fence, and code without a closing fence is lost. */
  function Blocks(lines: seq<Line>): seq<Token>
    decreases |lines|
  {
    if lines == [] then []
    else
      match lines[0].kind
      case Blank => Blocks(lines[1..])
      case Heading(level, title) => [Title(level, title)] + Blocks(lines[1..])
      case Prose(_) =>
        var run := LeadProse(lines);
        [Paragraph(run)] + Blocks(lines[|run|..])
      case Row(_) =>
        var run := LeadRows(lines);
        TableOf(run) + Blocks(lines[|run|..])
      case Bullet(list, _) =>
        var run := LeadItems(lines, list);
        [OpenList(list)] + Items(list, run) + [CloseList(list)] + Blocks(lines[|run|..])
      case Fence(language) =>
        var code := LeadCode(lines[1..]);
        if 1 + |code| == |lines| then [] else [Code(language, code)] + Blocks(lines[|code| + 2..])
  }

  // ------------------------------------------------------ the output is well nested

  datatype Where = Top | InList(list: ListKind) | InTable | AfterHeader(width: nat) | InBody(bodyWidth: nat) | AfterBody | Broken

  /** What a reader of the output is inside of, token by token. */
  function Read(at: Where, token: Token): Where {
    match token
    case Paragraph(_) => if at.Top? then Top else Broken
    case Title(_, _) => if at.Top? then Top else Broken
    case Code(_, _) => if at.Top? then Top else Broken
    case OpenList(list) => if at.Top? then InList(list) else Broken
    case Item(list, _) => if at == InList(list) then at else Broken
    case CloseList(list) => if at == InList(list) then Top else Broken
    case OpenTable => if at.Top? then InTable else Broken
    case HeaderRow(header) => if at.InTable? then AfterHeader(|header|) else Broken
    case OpenBody => if at.AfterHeader? then InBody(at.width) else Broken
    case BodyRow(cells) => if at == InBody(|cells|) then at else Broken
    case CloseBody => if at.InBody? then AfterBody else Broken
    case CloseTable => if at.AfterHeader? || at.AfterBody? then Top else Broken
  }

  function ReadAll(at: Where, tokens: seq<Token>): Where
    decreases |tokens|
  {
    if tokens == [] then at else ReadAll(Read(at, tokens[0]), tokens[1..])
  }

  lemma {:induction false} ReadAppend(at: Where, a: seq<Token>, b: seq<Token>)
    ensures ReadAll(at, a + b) == ReadAll(ReadAll(at, a), b)
    decreases |a|
  {
    if a == [] {
      assert a + b == b;
    } else {
      assert (a + b)[1..] == a[1..] + b;
      ReadAppend(Read(at, a[0]), a[1..], b);
    }
  }

  lemma {:induction false} ReadOne(at: Where, token: Token)
    ensures ReadAll(at, [token]) == Read(at, token)
  {
  }

  lemma {:induction false} ReadItems(list: ListKind, items: seq<string>)
    ensures ReadAll(InList(list), Items(list, items)) == InList(list)
    decreases |items|
  {
    if items != [] {
      assert Items(list, items)[1..] == Items(list, items[1..]);
      ReadItems(list, items[1..]);
    }
  }

  lemma {:induction false} ReadBody(rows: seq<seq<string>>, width: nat)
    ensures ReadAll(InBody(width), BodyRows(rows, width)) == InBody(width)
    decreases |rows|
  {
    if rows != [] {
      assert BodyRows(rows, width)[1..] == BodyRows(rows[1..], width);
      ReadBody(rows[1..], width);
    }
  }

  lemma {:induction false} ReadTable(rows: seq<seq<string>>)
    requires rows != []
    ensures ReadAll(Top, TableOf(rows)) == Top
  {
    var width := |rows[0]|;
    var body := if |rows| >= 2 && IsSeparator(rows[1]) then rows[2..] else rows[1..];
    var head, middle := [OpenTable, HeaderRow(rows[0])], if body == [] then [] else [OpenBody] + BodyRows(body, width) + [CloseBody];
    ReadHead(rows[0]);
    ReadAppend(Top, head, middle);
    ReadAppend(Top, head + middle, [CloseTable]);
    ReadOne(AfterHeader(width), CloseTable);
    ReadOne(AfterBody, CloseTable);
    if body != [] {
      ReadWholeBody(body, width);
    }
  }

  lemma {:induction false} ReadWholeBody(rows: seq<seq<string>>, width: nat)
    ensures ReadAll(AfterHeader(width), [OpenBody] + BodyRows(rows, width) + [CloseBody]) == AfterBody
  {
    ReadBody(rows, width);
    ReadOne(AfterHeader(width), OpenBody);
    ReadAppend(AfterHeader(width), [OpenBody], BodyRows(rows, width));
    ReadAppend(AfterHeader(width), [OpenBody] + BodyRows(rows, width), [CloseBody]);
    ReadOne(InBody(width), CloseBody);
  }

  lemma {:induction false} ReadHead(header: seq<string>)
    ensures ReadAll(Top, [OpenTable, HeaderRow(header)]) == AfterHeader(|header|)
  {
    assert [OpenTable, HeaderRow(header)][1..] == [HeaderRow(header)];
    ReadOne(InTable, HeaderRow(header));
  }

  lemma {:induction false} ReadList(list: ListKind, items: seq<string>)
    ensures ReadAll(Top, [OpenList(list)] + Items(list, items) + [CloseList(list)]) == Top
  {
    ReadOne(Top, OpenList(list));
    ReadItems(list, items);
    ReadAppend(Top, [OpenList(list)], Items(list, items));
    ReadAppend(Top, [OpenList(list)] + Items(list, items), [CloseList(list)]);
    ReadOne(InList(list), CloseList(list));
  }

  /** Every document's output is well nested: items only inside a list of their kind, every list and
      table closed once, and every body row as wide as its table's header. */
  lemma {:induction false} OutputIsNested(lines: seq<Line>)
    ensures ReadAll(Top, Blocks(lines)) == Top
    decreases |lines|
  {
    if lines != [] {
      match lines[0].kind
      case Blank => OutputIsNested(lines[1..]);
      case Heading(level, title) =>
        OutputIsNested(lines[1..]);
        ReadOne(Top, Title(level, title));
        ReadAppend(Top, [Title(level, title)], Blocks(lines[1..]));
      case Prose(_) =>
        var run := LeadProse(lines);
        OutputIsNested(lines[|run|..]);
        ReadOne(Top, Paragraph(run));
        ReadAppend(Top, [Paragraph(run)], Blocks(lines[|run|..]));
      case Row(_) =>
        var run := LeadRows(lines);
        OutputIsNested(lines[|run|..]);
        ReadTable(run);
        ReadAppend(Top, TableOf(run), Blocks(lines[|run|..]));
      case Bullet(list, _) =>
        var run := LeadItems(lines, list);
        OutputIsNested(lines[|run|..]);
        ReadList(list, run);
        ReadAppend(Top, [OpenList(list)] + Items(list, run) + [CloseList(list)], Blocks(lines[|run|..]));
      case Fence(language) =>
        var code := LeadCode(lines[1..]);
        if 1 + |code| != |lines| {
          OutputIsNested(lines[|code| + 2..]);
          ReadOne(Top, Code(language, code));
          ReadAppend(Top, [Code(language, code)], Blocks(lines[|code| + 2..]));
        }
    }
  }

  // ------------------------------------------------------------------- one pass

  /** What is open between two lines: never more than one block. */
  datatype Open =
    | Nothing
    | InProse(lines: seq<string>)
    | InItems(list: ListKind)
    | InRows(rows: seq<seq<string>>)
    | InCode(language: string, code: seq<string>)

  datatype Moved = Moved(open: Open, out: seq<Token>)

  /** What closing the open block puts out; code is only ever closed by its fence. */
  function Flush(open: Open): seq<Token> {
    match open
    case InProse(lines) => [Paragraph(lines)]
    case InItems(list) => [CloseList(list)]
    case InRows(rows) => if rows == [] then [] else TableOf(rows)
    case _ => []
  }

  /** What one line opens, and what it puts out. */
  function Step(open: Open, line: Line): Moved {
    if open.InCode? then
      if line.kind.Fence? then Moved(Nothing, [Code(open.language, open.code)])
      else Moved(InCode(open.language, open.code + [line.raw]), [])
    else
      match line.kind
      case Fence(language) => Moved(InCode(language, []), Flush(open))
      case Blank => Moved(Nothing, Flush(open))
      case Row(cells) =>
        if open.InRows? then Moved(InRows(open.rows + [cells]), []) else Moved(InRows([cells]), Flush(open))
      case Heading(level, title) => Moved(Nothing, Flush(open) + [Title(level, title)])
      case Bullet(list, item) =>
        if open == InItems(list) then Moved(open, [Item(list, item)])
        else Moved(InItems(list), Flush(open) + [OpenList(list), Item(list, item)])
      case Prose(text) =>
        if open.InProse? then Moved(InProse(open.lines + [text]), []) else Moved(InProse([text]), Flush(open))
  }

  /** What will still be put out, given what is open and the lines to come. */
  function Rest(open: Open, lines: seq<Line>): seq<Token> {
    match open
    case Nothing => Blocks(lines)
    case InProse(begun) => [Paragraph(begun + LeadProse(lines))] + Blocks(lines[|LeadProse(lines)|..])
    case InItems(list) =>
      Items(list, LeadItems(lines, list)) + [CloseList(list)] + Blocks(lines[|LeadItems(lines, list)|..])
    case InRows(begun) =>
      if begun == [] then Blocks(lines) else TableOf(begun + LeadRows(lines)) + Blocks(lines[|LeadRows(lines)|..])
    case InCode(language, begun) =>
      var code := LeadCode(lines);
      if |code| == |lines| then [] else [Code(language, begun + code)] + Blocks(lines[|code| + 1..])
  }

  /** The line goes on with what is open. */
  predicate Continues(open: Open, line: Line) {
    || (open.InProse? && line.kind.Prose?)
    || (open.InRows? && line.kind.Row?)
    || (open.InItems? && line.kind.Bullet? && line.kind.list == open.list)
  }

  lemma {:induction false} ClosesFirst(open: Open, lines: seq<Line>)
    requires !open.InCode? && (lines == [] || !Continues(open, lines[0]))
    ensures Rest(open, lines) == Flush(open) + Blocks(lines)
  {
    match open
    case InProse(begun) =>
      assert LeadProse(lines) == [] && begun + [] == begun;
    case InRows(begun) =>
      assert LeadRows(lines) == [] && begun + [] == begun;
      assert begun == [] ==> [] + Blocks(lines) == Blocks(lines);
    case InItems(list) =>
      assert LeadItems(lines, list) == [] && Items(list, []) + [CloseList(list)] == [CloseList(list)];
    case _ =>
  }

  // A line and the lines after it: where each kind of run begins and ends.

  lemma {:induction false} ProseRun(line: Line, rest: seq<Line>)
    requires line.kind.Prose?
    ensures LeadProse([line] + rest) == [line.kind.text] + LeadProse(rest)
    ensures ([line] + rest)[|LeadProse([line] + rest)|..] == rest[|LeadProse(rest)|..]
  {
    assert ([line] + rest)[1..] == rest;
  }

  lemma {:induction false} RowRun(line: Line, rest: seq<Line>)
    requires line.kind.Row?
    ensures LeadRows([line] + rest) == [line.kind.cells] + LeadRows(rest)
    ensures ([line] + rest)[|LeadRows([line] + rest)|..] == rest[|LeadRows(rest)|..]
  {
    assert ([line] + rest)[1..] == rest;
  }

  lemma {:induction false} ItemRun(line: Line, rest: seq<Line>)
    requires line.kind.Bullet?
    ensures var list := line.kind.list; LeadItems([line] + rest, list) == [line.kind.item] + LeadItems(rest, list)
    ensures var list := line.kind.list; ([line] + rest)[|LeadItems([line] + rest, list)|..] == rest[|LeadItems(rest, list)|..]
  {
    assert ([line] + rest)[1..] == rest;
  }

  lemma {:induction false} FirstItem(list: ListKind, item: string, more: seq<string>, tail: seq<Token>)
    ensures Items(list, [item] + more) + tail == [Item(list, item)] + (Items(list, more) + tail)
  {
    assert Items(list, [item] + more) == [Item(list, item)] + Items(list, more);
  }

  lemma {:induction false} ProseGoesOn(begun: seq<string>, line: Line, rest: seq<Line>)
    requires line.kind.Prose?
    ensures Rest(InProse(begun), [line] + rest) == Rest(InProse(begun + [line.kind.text]), rest)
  {
    ProseRun(line, rest);
    assert begun + ([line.kind.text] + LeadProse(rest)) == begun + [line.kind.text] + LeadProse(rest);
  }

  lemma {:induction false} RowsGoOn(begun: seq<seq<string>>, line: Line, rest: seq<Line>)
    requires line.kind.Row? && begun != []
    ensures Rest(InRows(begun), [line] + rest) == Rest(InRows(begun + [line.kind.cells]), rest)
  {
    RowRun(line, rest);
    assert begun + ([line.kind.cells] + LeadRows(rest)) == begun + [line.kind.cells] + LeadRows(rest);
  }

  lemma {:induction false} ItemsGoOn(list: ListKind, line: Line, rest: seq<Line>)
    requires line.kind.Bullet? && line.kind.list == list
    ensures Rest(InItems(list), [line] + rest) == [Item(list, line.kind.item)] + Rest(InItems(list), rest)
  {
    var more := LeadItems(rest, list);
    ItemRun(line, rest);
    FirstItem(list, line.kind.item, more, [CloseList(list)]);
    Regroup([Item(list, line.kind.item)], Items(list, more) + [CloseList(list)], Blocks(rest[|more|..]));
  }

  lemma {:induction false} ItemStep(open: Open, line: Line)
    requires open.InItems? && Continues(open, line)
    ensures Step(open, line) == Moved(open, [Item(open.list, line.kind.item)]) && open == InItems(open.list)
  {
  }

  /** A line that goes on with what is open moves nothing out of place. */
  lemma {:induction false} ContinuingStep(open: Open, line: Line, rest: seq<Line>)
    requires Continues(open, line) && (open.InRows? ==> open.rows != [])
    ensures var m := Step(open, line); Rest(open, [line] + rest) == m.out + Rest(m.open, rest)
  {
    if open.InItems? {
      ItemStep(open, line);
      ItemsGoOn(open.list, line, rest);
      SameTokens(Rest(open, [line] + rest), Step(open, line), [Item(open.list, line.kind.item)], Rest(open, rest), rest);
    } else {
      RunGoesOn(open, line, rest);
    }
  }

  lemma {:induction false} SameTokens(all: seq<Token>, m: Moved, head: seq<Token>, tail: seq<Token>, rest: seq<Line>)
    requires all == head + tail && m.out == head && tail == Rest(m.open, rest)
    ensures all == m.out + Rest(m.open, rest)
  {
  }

  lemma {:induction false} RunGoesOn(open: Open, line: Line, rest: seq<Line>)
    requires Continues(open, line) && !open.InItems? && (open.InRows? ==> open.rows != [])
    ensures var m := Step(open, line); Rest(open, [line] + rest) == m.out + Rest(m.open, rest)
  {
    var m := Step(open, line);
    NothingOut(Rest(m.open, rest));
    if open.InProse? {
      ProseGoesOn(open.lines, line, rest);
      assert m == Moved(InProse(open.lines + [line.kind.text]), []);
    } else {
      RowsGoOn(open.rows, line, rest);
      assert m == Moved(InRows(open.rows + [line.kind.cells]), []);
    }
  }

  lemma {:induction false} NothingOut(tokens: seq<Token>)
    ensures [] + tokens == tokens
  {
  }

  lemma {:induction false} ProseBegins(line: Line, rest: seq<Line>)
    requires line.kind.Prose?
    ensures Blocks([line] + rest) == Rest(InProse([line.kind.text]), rest)
  {
    ProseRun(line, rest);
  }

  lemma {:induction false} RowsBegin(line: Line, rest: seq<Line>)
    requires line.kind.Row?
    ensures Blocks([line] + rest) == Rest(InRows([line.kind.cells]), rest)
  {
    RowRun(line, rest);
  }

  lemma {:induction false} ItemsBegin(line: Line, rest: seq<Line>)
    requires line.kind.Bullet?
    ensures var list := line.kind.list;
            Blocks([line] + rest) == [OpenList(list), Item(list, line.kind.item)] + Rest(InItems(list), rest)
  {
    var list := line.kind.list;
    var more := LeadItems(rest, list);
    ItemRun(line, rest);
    FirstItem(list, line.kind.item, more, [CloseList(list)]);
    var start, others := [OpenList(list), Item(list, line.kind.item)], Items(list, more) + [CloseList(list)];
    Regroup([OpenList(list)], Items(list, [line.kind.item] + more), [CloseList(list)]);
    Regroup([OpenList(list)], [Item(list, line.kind.item)], others);
    assert [OpenList(list)] + [Item(list, line.kind.item)] == start;
    Regroup(start, others, Blocks(rest[|more|..]));
  }

  lemma {:induction false} CodeBegins(line: Line, rest: seq<Line>)
    requires line.kind.Fence?
    ensures Blocks([line] + rest) == Rest(InCode(line.kind.language, []), rest)
  {
    var all, code := [line] + rest, LeadCode(rest);
    assert all[1..] == rest && [] + code == code;
    assert |code| < |rest| ==> all[|code| + 2..] == rest[|code| + 1..];
  }

  lemma {:induction false} SingleBegins(line: Line, rest: seq<Line>)
    requires line.kind.Blank? || line.kind.Heading?
    ensures Blocks([line] + rest) == Step(Nothing, line).out + Blocks(rest)
  {
    assert ([line] + rest)[1..] == rest;
  }

  /** A line met with nothing open begins the block it belongs to. */
  lemma {:induction false} OpeningStep(line: Line, rest: seq<Line>)
    ensures var m := Step(Nothing, line); Blocks([line] + rest) == m.out + Rest(m.open, rest)
  {
    match line.kind
    case Prose(_) => ProseBegins(line, rest);
    case Row(_) => RowsBegin(line, rest);
    case Bullet(_, _) => ItemsBegin(line, rest);
    case Fence(_) => CodeBegins(line, rest);
    case _ => SingleBegins(line, rest);
  }

  lemma {:induction false} CodeStep(open: Open, line: Line, rest: seq<Line>)
    requires open.InCode?
    ensures var m := Step(open, line); Rest(open, [line] + rest) == m.out + Rest(m.open, rest)
  {
    var all := [line] + rest;
    assert all[1..] == rest;
    if line.kind.Fence? {
      assert LeadCode(all) == [] && open.code + [] == open.code;
    } else {
      var code := LeadCode(rest);
      assert LeadCode(all) == [line.raw] + code;
      assert open.code + ([line.raw] + code) == open.code + [line.raw] + code;
      assert |code| < |rest| ==> all[1 + |code| + 1..] == rest[|code| + 1..];
    }
  }

  /** A line that does not go on with what is open closes it first. */
  lemma {:induction false} StepFlushes(open: Open, line: Line)
    requires !open.InCode? && !Continues(open, line)
    ensures Step(open, line) == Moved(Step(Nothing, line).open, Flush(open) + Step(Nothing, line).out)
  {
    assert Flush(open) + [] == Flush(open);
    if line.kind.Heading? {
      assert [] + [Title(line.kind.level, line.kind.title)] == [Title(line.kind.level, line.kind.title)];
    } else if line.kind.Bullet? {
      var start := [OpenList(line.kind.list), Item(line.kind.list, line.kind.item)];
      assert [] + start == start;
    }
  }

  lemma Regroup(a: seq<Token>, b: seq<Token>, c: seq<Token>)
    ensures a + (b + c) == a + b + c
  {
  }

  /** Each line moves output from what is to come to what is out, and changes nothing else. */
  lemma {:induction false} StepKeepsRest(open: Open, line: Line, rest: seq<Line>)
    requires open.InRows? ==> open.rows != []
    ensures var m := Step(open, line); Rest(open, [line] + rest) == m.out + Rest(m.open, rest)
  {
    if open.InCode? {
      CodeStep(open, line, rest);
    } else if Continues(open, line) {
      ContinuingStep(open, line, rest);
    } else {
      ClosesFirst(open, [line] + rest);
      OpeningStep(line, rest);
      StepFlushes(open, line);
      Regroup(Flush(open), Step(Nothing, line).out, Rest(Step(Nothing, line).open, rest));
    }
  }

  lemma {:induction false} OneLineOn(out: seq<Token>, open: Open, lines: seq<Line>, i: nat)
    requires i < |lines| && (open.InRows? ==> open.rows != [])
    ensures var m := Step(open, lines[i]);
            out + Rest(open, lines[i..]) == out + m.out + Rest(m.open, lines[i + 1..])
  {
    var m, rest := Step(open, lines[i]), lines[i + 1..];
    assert lines[i..] == [lines[i]] + rest;
    StepKeepsRest(open, lines[i], rest);
    Regroup(out, m.out, Rest(m.open, rest));
  }

  class Renderer {
    var htmlLines: seq<Token>
    var inCode: bool
    var codeLanguage: string
    var codeBuffer: seq<string>
    var listType: seq<ListKind>
    var paragraph: seq<string>
    var tableRows: seq<seq<string>>

    /** At most one of code, list, paragraph and table is open. */
    predicate Valid()
      reads this
    {
      && |listType| <= 1
      && (inCode ==> listType == [] && paragraph == [] && tableRows == [])
      && (listType != [] ==> paragraph == [] && tableRows == [])
      && (paragraph != [] ==> tableRows == [])
    }

    ghost function View(): Open
      reads this
    {
      if inCode then InCode(codeLanguage, codeBuffer)
      else if listType != [] then InItems(listType[0])
      else if paragraph != [] then InProse(paragraph)
      else if tableRows != [] then InRows(tableRows)
      else Nothing
    }

    constructor ()
      ensures Valid() && View() == Nothing && htmlLines == []
    {
      htmlLines, inCode, codeLanguage, codeBuffer := [], false, "", [];
      listType, paragraph, tableRows := [], [], [];
    }

    method FlushParagraph()
      modifies `htmlLines, `paragraph
      ensures paragraph == []
      ensures htmlLines == old(htmlLines) + if old(paragraph) == [] then [] else [Paragraph(old(paragraph))]
    {
      if paragraph != [] {
        htmlLines := htmlLines + [Paragraph(paragraph)];
        paragraph := [];
      }
    }

    method FlushList()
      modifies `htmlLines, `listType
      ensures listType == []
      ensures htmlLines == old(htmlLines) + if old(listType) == [] then [] else [CloseList(old(listType)[0])]
    {
      if listType != [] {
        htmlLines := htmlLines + [CloseList(listType[0])];
        listType := [];
      }
    }

    method FlushTable()
      modifies `htmlLines, `tableRows
      ensures tableRows == []
      ensures htmlLines == old(htmlLines) + if old(tableRows) == [] then [] else TableOf(old(tableRows))
    {
      if tableRows == [] {
        return;
      }
      var header := tableRows[0];
      var body := if |tableRows| >= 2 && IsSeparator(tableRows[1]) then tableRows[2..] else tableRows[1..];
      ghost var was := htmlLines;
      htmlLines := htmlLines + [OpenTable, HeaderRow(header)];
      if body != [] {
        WriteBody(body, |header|);
      }
      htmlLines := htmlLines + [CloseTable];
      assert htmlLines == was + TableOf(tableRows);
      tableRows := [];
    }

    method WriteBody(body: seq<seq<string>>, width: nat)
      modifies `htmlLines
      ensures htmlLines == old(htmlLines) + ([OpenBody] + BodyRows(body, width) + [CloseBody])
    {
      htmlLines := htmlLines + [OpenBody];
      ghost var begun := htmlLines;
      var i := 0;
      while i < |body|
        invariant 0 <= i <= |body|
        invariant htmlLines + BodyRows(body[i..], width) == begun + BodyRows(body, width)
      {
        assert body[i..][0] == body[i] && body[i..][1..] == body[i + 1..];
        var cells := Fit(body[i], width);
        Regroup(htmlLines, [BodyRow(cells)], BodyRows(body[i + 1..], width));
        htmlLines := htmlLines + [BodyRow(cells)];
        i := i + 1;
      }
      assert htmlLines + [] == htmlLines;
      htmlLines := htmlLines + [CloseBody];
    }

    /** Closes whatever is open but code. */
    method FlushAll()
      requires Valid()
      modifies `htmlLines, `paragraph, `listType, `tableRows
      ensures paragraph == [] && listType == [] && tableRows == []
      ensures htmlLines == old(htmlLines) + Flush(old(View()))
    {
      assert htmlLines + [] == htmlLines;
      FlushParagraph();
      FlushList();
      FlushTable();
    }

    method FeedRow(cells: seq<string>)
      requires Valid() && !inCode
      modifies `htmlLines, `paragraph, `listType, `tableRows
      ensures Valid() && View() == InRows((if old(View()).InRows? then old(View()).rows else []) + [cells])
      ensures htmlLines == old(htmlLines) + if old(View()).InRows? then [] else Flush(old(View()))
    {
      assert htmlLines + [] == htmlLines;
      FlushParagraph();
      FlushList();
      tableRows := tableRows + [cells];
    }

    method FeedItem(list: ListKind, item: string)
      requires Valid() && !inCode
      modifies `htmlLines, `paragraph, `listType, `tableRows
      ensures Valid() && View() == InItems(list)
      ensures htmlLines == old(htmlLines)
        + ((if old(View()) == InItems(list) then [] else Flush(old(View())) + [OpenList(list)]) + [Item(list, item)])
    {
      assert htmlLines + [] == htmlLines;
      ghost var flushed := Flush(View());
      FlushTable();
      FlushParagraph();
      if listType != [list] {
        FlushList();
        assert htmlLines == old(htmlLines) + flushed;
        listType := [list];
        htmlLines := htmlLines + [OpenList(list)];
      }
      htmlLines := htmlLines + [Item(list, item)];
    }

    method FeedProse(text: string)
      requires Valid() && !inCode
      modifies `htmlLines, `paragraph, `listType, `tableRows
      ensures Valid() && View() == InProse((if old(View()).InProse? then old(View()).lines else []) + [text])
      ensures htmlLines == old(htmlLines) + if old(View()).InProse? then [] else Flush(old(View()))
    {
      assert htmlLines + [] == htmlLines;
      FlushTable();
      FlushList();
      paragraph := paragraph + [text];
    }

    /** One line of the document. */
    method Feed(line: Line)
      requires Valid()
      modifies this
      ensures Valid()
      ensures var m := Step(old(View()), line); View() == m.open && htmlLines == old(htmlLines) + m.out
    {
      assert htmlLines + [] == htmlLines;
      if inCode {
        if line.kind.Fence? {
          htmlLines := htmlLines + [Code(codeLanguage, codeBuffer)];
          inCode, codeLanguage, codeBuffer := false, "", [];
        } else {
          codeBuffer := codeBuffer + [line.raw];
        }
        return;
      }
      match line.kind {
        case Fence(language) =>
          FlushAll();
          inCode, codeLanguage, codeBuffer := true, language, [];
        case Blank =>
          FlushAll();
        case Row(cells) =>
          FeedRow(cells);
        case Heading(level, title) =>
          FlushAll();
          htmlLines := htmlLines + [Title(level, title)];
        case Bullet(list, item) =>
          FeedItem(list, item);
        case Prose(text) =>
          FeedProse(text);
      }
    }

    /** The whole document: the one pass puts out exactly the document's blocks. */
    method MarkdownToHtml(lines: seq<Line>)
      requires Valid() && View() == Nothing && htmlLines == []
      modifies this
      ensures htmlLines == Blocks(lines)
    {
      var i := 0;
      while i < |lines|
        invariant 0 <= i <= |lines| && Valid()
        invariant htmlLines + Rest(View(), lines[i..]) == Blocks(lines)
      {
        OneLineOn(htmlLines, View(), lines, i);
        Feed(lines[i]);
        i := i + 1;
      }
      assert lines[i..] == [];
      NothingLeft(View());
      FlushAll();
    }
  }

  lemma {:induction false} NothingLeft(open: Open)
    requires open.InRows? ==> open.rows != []
    ensures Rest(open, []) == Flush(open)
  {
    if !open.InCode? {
      ClosesFirst(open, []);
    }
  }
}
