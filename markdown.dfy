/**
 * The line-oriented formatter of lesson text (`renderFormattedText` in
 * components/UIComponents.tsx): the text is split on newlines and scanned
 * left to right with a code-fence flag, a buffer of code lines and the
 * language of the open fence. Each line yields at most one block; lines
 * that yield nothing are filtered out.
 */
module Markdown {
  import opened Wrappers
  import opened Text
  import opened Seqs

  /** A rendered block; the inline bold and code markup of `text` is kept as written. */
  datatype Block =
    | Code(lang: string, code: string)
    | Break
    | Heading(text: string)
    | Quote(text: string)
    | ListItem(text: string)
    | Para(text: string)

  /** The scan's mutable locals `inCodeBlock`, `codeBuffer` and `codeLang`. */
  datatype ScanState = ScanState(inCode: bool, buffer: seq<string>, lang: string)

  const Initial: ScanState := ScanState(false, [], "")

  /** A line that opens or closes a code block: its trimmed form starts with three backquotes. */
  predicate IsFence(line: string) {
    StartsWith(Trim(line), "```")
  }

  /** The language an opening fence names: what follows the backquotes, or `text`. */
  function FenceLang(line: string): (r: string)
    requires IsFence(line)
    ensures r != []
    ensures |Trim(line)| > 3 ==> Trim(line) == "```" + r
    ensures |Trim(line)| == 3 ==> r == "text"
  {
    var rest := Trim(line)[3..];
    assert Trim(line) == Trim(line)[..3] + rest;
    if rest == [] then "text" else rest
  }

  /**
   * A line outside code: blank lines break, then the heading, quote and list
   * prefixes are tried in that order, and anything else is a paragraph.
   */
  function Classify(line: string): (r: Block)
    ensures r.Break? <==> AllSpace(line)
    ensures r.Heading? <==> !AllSpace(line) && StartsWith(line, "### ")
    ensures r.Heading? ==> line == "### " + r.text
    ensures r.Quote? <==> !AllSpace(line) && !StartsWith(line, "### ") && StartsWith(line, "> ")
    ensures r.Quote? ==> line == "> " + r.text
    ensures r.ListItem? <==>
              !AllSpace(line) && !StartsWith(line, "### ") && !StartsWith(line, "> ") && StartsWith(line, "* ")
    ensures r.ListItem? ==> line == "* " + r.text
    ensures r.Para? ==> r.text == line
    ensures !r.Code?
  {
    TrimEmptyIffAllSpace(line);
    if Trim(line) == [] then Break
    else if StartsWith(line, "### ") then
      assert line == line[..4] + line[4..];
      Heading(line[4..])
    else if StartsWith(line, "> ") then
      assert line == line[..2] + line[2..];
      Quote(line[2..])
    else if StartsWith(line, "* ") then
      assert line == line[..2] + line[2..];
      ListItem(line[2..])
    else Para(line)
  }

  /** One line of the scan: the new locals and the block the line yields, if any. */
  function Step(st: ScanState, line: string): (ScanState, Option<Block>) {
    if IsFence(line) then
      if st.inCode then (ScanState(false, [], st.lang), Some(Code(st.lang, Join(st.buffer, "\n"))))
      else (ScanState(true, st.buffer, FenceLang(line)), None)
    else if st.inCode then (st.(buffer := st.buffer + [line]), None)
    else (st, Some(Classify(line)))
  }

  /** The blocks the remaining lines yield from a given state, nulls filtered out. */
  function Scan(lines: seq<string>, st: ScanState): seq<Block>
    decreases |lines|
  {
    if lines == [] then []
    else
      var (st', b) := Step(st, lines[0]);
      (if b.Some? then [b.value] else []) + Scan(lines[1..], st')
  }

  /** `renderFormattedText(text)`, as a value. */
  function Render(text: string): seq<Block> {
    Scan(Split(text, '\n'), Initial)
  }

  /**
   * The callback `parts.map` runs on one line: it updates the three captured
   * locals and returns the line's block, or nothing.
   */
  method ScanLine(inCodeBlock: bool, codeBuffer: seq<string>, codeLang: string, line: string)
    returns (inCode': bool, buffer': seq<string>, lang': string, block: Option<Block>)
    ensures (ScanState(inCode', buffer', lang'), block) == Step(ScanState(inCodeBlock, codeBuffer, codeLang), line)
  {
    inCode', buffer', lang' := inCodeBlock, codeBuffer, codeLang;
    if StartsWith(Trim(line), "```") {
      if inCodeBlock {
        inCode' := false;
        var code := Join(codeBuffer, "\n");
        buffer' := [];
        return inCode', buffer', lang', Some(Code(codeLang, code));
      } else {
        inCode' := true;
        var rest := Trim(line)[3..];
        lang' := if rest == [] then "text" else rest;
        return inCode', buffer', lang', None;
      }
    }
    if inCodeBlock {
      buffer' := codeBuffer + [line];
      return inCode', buffer', lang', None;
    }
    if Trim(line) == [] {
      block := Some(Break);
    } else if StartsWith(line, "### ") {
      block := Some(Heading(line[4..]));
    } else if StartsWith(line, "> ") {
      block := Some(Quote(line[2..]));
    } else if StartsWith(line, "* ") {
      block := Some(ListItem(line[2..]));
    } else {
      block := Some(Para(line));
    }
  }

  /** The scan itself: the lines in order, the nulls filtered out. */
  method RenderFormattedText(text: string) returns (blocks: seq<Block>)
    ensures blocks == Render(text)
  {
    var parts := Split(text, '\n');
    var inCodeBlock := false;
    var codeBuffer: seq<string> := [];
    var codeLang := "";
    blocks := [];
    var i := 0;
    while i < |parts|
      invariant 0 <= i <= |parts|
      invariant blocks + Scan(parts[i..], ScanState(inCodeBlock, codeBuffer, codeLang)) == Render(text)
    {
      assert parts[i..] == [parts[i]] + parts[i + 1..];
      var block;
      inCodeBlock, codeBuffer, codeLang, block := ScanLine(inCodeBlock, codeBuffer, codeLang, parts[i]);
      var emitted := if block.Some? then [block.value] else [];
      AppendAssoc(blocks, emitted, Scan(parts[i + 1..], ScanState(inCodeBlock, codeBuffer, codeLang)));
      blocks := blocks + emitted;
      i := i + 1;
    }
  }

  /** No line of the list is a fence. */
  predicate NoFence(lines: seq<string>) {
    forall k :: 0 <= k < |lines| ==> !IsFence(lines[k])
  }

  /** Without fences every line yields exactly its own classification, in order. */
  lemma {:induction false} ScanWithoutFences(lines: seq<string>, lang: string)
    requires NoFence(lines)
    ensures Scan(lines, ScanState(false, [], lang)) == seq(|lines|, k requires 0 <= k < |lines| => Classify(lines[k]))
    decreases |lines|
  {
    if lines != [] {
      assert NoFence(lines[1..]);
      ScanWithoutFences(lines[1..], lang);
    }
  }

  /** Inside an open fence, non-fence lines only grow the buffer. */
  lemma {:induction false} ScanBuffers(body: seq<string>, rest: seq<string>, st: ScanState)
    requires st.inCode && NoFence(body)
    ensures Scan(body + rest, st) == Scan(rest, st.(buffer := st.buffer + body))
    decreases |body|
  {
    if body == [] {
      assert body + rest == rest && st.buffer + body == st.buffer;
    } else {
      assert (body + rest)[1..] == body[1..] + rest;
      assert NoFence(body[1..]);
      ScanBuffers(body[1..], rest, st.(buffer := st.buffer + [body[0]]));
      assert st.buffer + [body[0]] + body[1..] == st.buffer + body;
    }
  }

  /** A fence that is never closed swallows every line after it: they render nothing. */
  lemma UnclosedFenceDropsRest(body: seq<string>, st: ScanState)
    requires st.inCode && NoFence(body)
    ensures Scan(body, st) == []
  {
    ScanBuffers(body, [], st);
    assert body + [] == body;
  }

  /**
   * A fenced block yields one code block: the language of its opening fence
   * and its lines joined by newlines; the scan then resumes outside code.
   */
  lemma ClosedFence(open: string, body: seq<string>, close: string, rest: seq<string>, lang: string)
    requires IsFence(open) && IsFence(close) && NoFence(body)
    ensures Scan([open] + body + [close] + rest, ScanState(false, [], lang)) ==
            [Code(FenceLang(open), Join(body, "\n"))] + Scan(rest, ScanState(false, [], FenceLang(open)))
  {
    var lines := [open] + body + [close] + rest;
    var inside := ScanState(true, [], FenceLang(open));
    assert lines[0] == open && lines[1..] == body + ([close] + rest);
    assert Scan(lines, ScanState(false, [], lang)) == Scan(body + ([close] + rest), inside);
    ScanBuffers(body, [close] + rest, inside);
    var full := inside.(buffer := body);
    assert inside.buffer + body == body;
    assert ([close] + rest)[0] == close && ([close] + rest)[1..] == rest;
    assert Scan([close] + rest, full) == [Code(FenceLang(open), Join(body, "\n"))] + Scan(rest, ScanState(false, [], FenceLang(open)));
  }

  /** Outside code, the language left by an earlier fence has no effect on what follows. */
  lemma {:induction false} LangIrrelevant(lines: seq<string>, l1: string, l2: string)
    ensures Scan(lines, ScanState(false, [], l1)) == Scan(lines, ScanState(false, [], l2))
    decreases |lines|
  {
    if lines != [] {
      var line := lines[0];
      if IsFence(line) {
        var k := FirstFence(lines[1..]);
        if k < |lines[1..]| {
          var body, close, rest := lines[1..][..k], lines[1..][k], lines[1..][k + 1..];
          assert lines == [line] + body + [close] + rest;
          ClosedFence(line, body, close, rest, l1);
          ClosedFence(line, body, close, rest, l2);
        } else {
          assert lines[1..] == lines[1..][..k];
          UnclosedFenceDropsRest(lines[1..], ScanState(true, [], FenceLang(line)));
        }
      } else {
        LangIrrelevant(lines[1..], l1, l2);
      }
    }
  }

  /** The index of the first fence, or the length when there is none. */
  function FirstFence(lines: seq<string>): (k: nat)
    ensures k <= |lines| && NoFence(lines[..k])
    ensures k < |lines| ==> IsFence(lines[k])
    decreases |lines|
  {
    if lines == [] then 0
    else if IsFence(lines[0]) then 0
    else
      var k := FirstFence(lines[1..]);
      assert lines[..k + 1] == [lines[0]] + lines[1..][..k];
      k + 1
  }

  /** Every line yields at most one block. */
  lemma {:induction false} ScanAtMostOnePerLine(lines: seq<string>, st: ScanState)
    ensures |Scan(lines, st)| <= |lines|
    decreases |lines|
  {
    if lines != [] {
      ScanAtMostOnePerLine(lines[1..], Step(st, lines[0]).0);
    }
  }
}
