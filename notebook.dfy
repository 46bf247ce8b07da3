/** The Jupyter notebook dialect of the exporter: the Jython exporter's fragments wrapped
    into JSON cells, written as text. */
module Notebook {
  import opened Wrappers
  import opened Strings
  import opened Layers
  import JythonGenerator
  import ExportJython

  /** The text that ends a JSON string line and opens the next one: a literal `\n`, the
      closing quote, a comma, a newline and the opening quote. */
  const LineBreak: string := "\\n\",\n\""

  /** Every newline of the content becomes a literal `\n` plus a string break. */
  function BreakLines(content: string): string
  {
    ReplaceAll(content, "\n", LineBreak)
  }

  /** Every double quote of a code cell's content becomes a single quote. */
  function QuotesToApostrophes(content: string): (r: string)
    ensures '"' !in r
    ensures |r| == |content|
  {
    ReplaceCharFacts(content, '"', '\'');
    ReplaceAll(content, "\"", "'")
  }

  /** The start of a code cell, up to the opening quote of its first source line. */
  function CodeHead(): string
  {
    "  {\n"
    + "   \"cell_type\": " + "\"code\",\n"
    + "   " + "\"execution_count\": " + "1,\n"
    + "   \"metadata\": " + "{},\n"
    + "   \"outputs\": " + "[],\n"
    + "   \"source\": [\n"
    + "    \""
  }

  /** The start of a markdown cell, up to the opening quote of its first source line. */
  function MarkdownHead(): string
  {
    "  {\n"
    + "   \"cell_type\": " + "\"markdown\",\n"
    + "   \"metadata\": " + "{},\n"
    + "   \"source\": [\n"
    + "    \""
  }

  /** The end of every cell: the closing quote, the source list and the cell closed, with
      the comma that separates it from the next cell. */
  function CellTail(): string
  {
    "\"\n" + "   ]\n" + "  },"
  }

  lemma CellEnds(head: string, body: string)
    ensures EndsWith(head + body + CellTail(), "},")
  {
    EndsWithConcat(head + body, CellTail());
    EndsWithTrans(head + body + CellTail(), CellTail(), "},");
  }

  function CodeCell(content: string): (c: string)
    ensures EndsWith(c, "},")
  {
    CellEnds(CodeHead(), BreakLines(QuotesToApostrophes(content)));
    CodeHead() + BreakLines(QuotesToApostrophes(content)) + CellTail()
  }

  function MarkdownCell(content: string): (c: string)
    ensures EndsWith(c, "},")
  {
    CellEnds(MarkdownHead(), BreakLines(content));
    MarkdownHead() + BreakLines(content) + CellTail()
  }

  /** A markdown cell keeps its content's double quotes: a one-line content stands in the
      cell exactly as it is, right after the cell's head. */
  lemma MarkdownKeepsQuotes(content: string)
    requires '\n' !in content
    ensures OccursAt(MarkdownCell(content), content, |MarkdownHead()|)
  {
    ReplaceCharAbsent(content, '\n', LineBreak);
    assert BreakLines(content) == content;
    OccursAtShift(MarkdownHead(), content, CellTail(), content, 0);
  }

  /** A code cell does not: the same one-line content stands there with its double quotes
      turned into single quotes, so no '"' of the content is left. */
  lemma CodeCellTurnsQuotes(content: string)
    requires '\n' !in content
    ensures OccursAt(CodeCell(content), QuotesToApostrophes(content), |CodeHead()|)
    ensures '"' !in QuotesToApostrophes(content)
  {
    var q := QuotesToApostrophes(content);
    ReplaceCharKeepsOut(content, '"', '\'', '\n');
    ReplaceCharAbsent(q, '\n', LineBreak);
    assert BreakLines(q) == q;
    OccursAtShift(CodeHead(), q, CellTail(), q, 0);
  }

  /** The document's opening brace and the start of its cell list. */
  function Opening(): string
  {
    "{\n" + " \"cells\": [\n"
  }

  /** `_header`: opens the document and its cell list, then the exporter's header as the
      first code cell. */
  function Header(version: string): string
  {
    Opening() + CodeCell(JythonGenerator.Header(version))
  }

  function Push(layer: Layer, n: nat): string
  {
    CodeCell(JythonGenerator.Push(layer, n))
  }

  /** The title of an operation's result: "## " and the layer name without "Result of ". */
  function Title(name: string): string
  {
    "## " + ReplaceAll(name, "Result of ", "")
  }

  function ExecuteSpec(cat: Catalogue, layers: seq<Layer>, layer: Layer, n: nat): string
    requires layer.dialog.Some?
  {
    MarkdownCell(Title(layer.name)) + CodeCell(ExportJython.ExecuteAsWritten(cat, layers, layer, n))
  }

  /** `_execute`: a markdown title cell, then the Jython block as a code cell. */
  method Execute(cat: Catalogue, layers: seq<Layer>, layer: Layer, n: nat) returns (r: string)
    requires layer.dialog.Some?
    ensures r == ExecuteSpec(cat, layers, layer, n)
  {
    var code := ExportJython.Execute(cat, layers, layer, n);
    r := MarkdownCell(Title(layer.name)) + CodeCell(code);
  }

  function Pull(layer: Layer, n: nat): string
  {
    CodeCell(ExportJython.Pull(layer, n))
  }

  /** What follows the cells: the closing of the list, the notebook metadata and the
      format version. */
  function Trailer(): string
  {
    "],\n" + (Metadata() + NbFormat())
  }

  function Metadata(): string
  {
    " \"metadata\": {\n"
    + "  \"kernelspec\": " + "{\n"
    + "   " + "\"display_name\": " + "\"Python 3\",\n"
    + "   \"language\": " + "\"python\",\n"
    + "   \"name\": " + "\"python3\"\n"
    + "  },\n"
    + "  " + "\"language_info\": " + "{\n"
    + "   " + "\"codemirror_mode\": " + "{\n"
    + "    \"name\": " + "\"ipython\",\n"
    + "    \"version\": " + "3\n"
    + "   },\n"
    + "   " + "\"file_extension\": " + "\".py\",\n"
    + "   \"mimetype\": " + "\"text/x-python\",\n"
    + "   \"name\": " + "\"python\",\n"
    + "   " + "\"nbconvert_exporter\": " + "\"python\",\n"
    + "   " + "\"pygments_lexer\": " + "\"ipython3\",\n"
    + "   \"version\": " + "\"3.7.6\"\n"
    + "  }\n"
    + " },\n"
  }

  /** Notebook format 4.4. */
  function NbFormat(): string
  {
    " \"nbformat\": 4,\n" + " " + "\"nbformat_minor\": " + "4\n}\n"
  }

  /** Python's `code[0:-1]`: the text without its last character, "" for an empty text. */
  function DropLast(code: string): (r: string)
    ensures |code| > 0 ==> r == code[..|code| - 1]
    ensures |code| == 0 ==> r == ""
  {
    if |code| == 0 then "" else code[..|code| - 1]
  }

  /** Drops the last character of the cells (the comma after the last cell) and closes the
      cell list and the document. */
  function Finish(code: string): string
  {
    DropLast(code) + Trailer()
  }

  function FileEnding(): string
  {
    ".ipynb"
  }

  /** The inverse of the line breaking: each break back to one newline. */
  function JoinLines(s: string): string
  {
    ReplaceAll(s, LineBreak, "\n")
  }

  /** Breaking lines loses nothing: a content without backslashes is recovered exactly. */
  lemma {:induction false} BreakLinesRoundTrip(content: string)
    requires '\\' !in content
    ensures JoinLines(BreakLines(content)) == content
    decreases |content|
  {
    if |content| > 0 {
      var rest := content[1..];
      BreakLinesRoundTrip(rest);
      var broken := BreakLines(rest);
      if content[0] == '\n' {
        assert StartsWith(content, "\n");
        assert BreakLines(content) == LineBreak + broken;
        assert (LineBreak + broken)[..|LineBreak|] == LineBreak;
        assert (LineBreak + broken)[|LineBreak|..] == broken;
        assert JoinLines(LineBreak + broken) == "\n" + JoinLines(broken);
        assert content == "\n" + rest;
      } else {
        assert !StartsWith(content, "\n");
        assert BreakLines(content) == [content[0]] + broken;
        assert ([content[0]] + broken)[1..] == broken;
        assert LineBreak[0] == '\\' && content[0] != '\\';
        assert ([content[0]] + broken)[0] != LineBreak[0];
        assert !StartsWith([content[0]] + broken, LineBreak);
        assert JoinLines([content[0]] + broken) == [content[0]] + JoinLines(broken);
        assert content == [content[0]] + rest;
      }
    }
  }

  /** Every newline of the text is the newline inside a full break. */
  ghost predicate NewlinesInBreaks(s: string)
  {
    forall k :: 0 <= k < |s| && s[k] == '\n' ==> 4 <= k && k + 2 <= |s| && s[k - 4..k + 2] == LineBreak
  }

  lemma NewlinesInBreaksConcat(a: string, b: string)
    requires NewlinesInBreaks(a) && NewlinesInBreaks(b)
    ensures NewlinesInBreaks(a + b)
  {
    forall k | 0 <= k < |a + b| && (a + b)[k] == '\n'
      ensures 4 <= k && k + 2 <= |a + b| && (a + b)[k - 4..k + 2] == LineBreak
    {
      if k < |a| {
        assert a[k] == '\n';
        assert (a + b)[k - 4..k + 2] == a[k - 4..k + 2];
      } else {
        var j := k - |a|;
        assert b[j] == '\n';
        assert (a + b)[k - 4..k + 2] == b[j - 4..j + 2];
      }
    }
  }

  /** No newline stays bare inside a JSON string: each one of the broken text is the
      newline of a full break. */
  lemma {:induction false} BreakLinesNoBareNewline(content: string)
    ensures NewlinesInBreaks(BreakLines(content))
    decreases |content|
  {
    if |content| > 0 {
      BreakLinesNoBareNewline(content[1..]);
      var broken := BreakLines(content[1..]);
      if content[0] == '\n' {
        assert StartsWith(content, "\n");
        assert BreakLines(content) == LineBreak + broken;
        assert NewlinesInBreaks(LineBreak);
        NewlinesInBreaksConcat(LineBreak, broken);
      } else {
        assert !StartsWith(content, "\n");
        assert BreakLines(content) == [content[0]] + broken;
        NewlinesInBreaksConcat([content[0]], broken);
      }
    }
  }

  /** The header opens the document and its cell list and, like every cell, ends with "},". */
  lemma HeaderShape(version: string)
    ensures StartsWith(Header(version), Opening())
    ensures EndsWith(Header(version), "},")
    ensures |Header(version)| >= |Opening()| + 2
  {
    var cell := CodeCell(JythonGenerator.Header(version));
    StartsWithConcat(Opening(), cell);
    EndsWithConcat(Opening(), cell);
    EndsWithTrans(Opening() + cell, cell, "},");
  }

  /** The result of an operation is a title cell followed by its code cell; both are closed
      cells. */
  lemma ExecuteCells(cat: Catalogue, layers: seq<Layer>, layer: Layer, n: nat)
    requires layer.dialog.Some?
    ensures StartsWith(ExecuteSpec(cat, layers, layer, n), MarkdownCell(Title(layer.name)))
    ensures EndsWith(ExecuteSpec(cat, layers, layer, n), "},")
  {
    var md := MarkdownCell(Title(layer.name));
    var code := CodeCell(ExportJython.ExecuteAsWritten(cat, layers, layer, n));
    StartsWithConcat(md, code);
    EndsWithConcat(md, code);
    EndsWithTrans(md + code, code, "},");
  }

  /** Cells that end with "}," lose only their comma. */
  lemma DropLastCloses(code: string)
    requires EndsWith(code, "},")
    ensures |DropLast(code)| == |code| - 1
    ensures EndsWith(DropLast(code), "}")
  {
    assert code[|code| - 2..] == "},";
    assert DropLast(code)[|code| - 2..] == [code[|code| - 2]];
  }

  /** Dropping the last character keeps any prefix shorter than the text. */
  lemma DropLastKeepsPrefix(code: string, p: string)
    requires StartsWith(code, p) && |p| < |code|
    ensures StartsWith(DropLast(code), p)
  {
    assert DropLast(code)[..|p|] == code[..|p|];
  }

  /** The closing keeps the cells up to their last character and then closes the list:
      when the cells end with "}," the comma is what is dropped. */
  lemma FinishClosesCells(code: string)
    requires EndsWith(code, "},")
    ensures |DropLast(code)| == |code| - 1 && EndsWith(DropLast(code), "}")
    ensures StartsWith(Finish(code), DropLast(code))
    ensures StartsWith(Trailer(), "],\n")
    ensures EndsWith(Finish(code), NbFormat())
  {
    DropLastCloses(code);
    StartsWithConcat(DropLast(code), Trailer());
    StartsWithConcat("],\n", Metadata() + NbFormat());
    EndsWithConcat(Metadata(), NbFormat());
    EndsWithConcat("],\n", Metadata() + NbFormat());
    EndsWithTrans(Trailer(), Metadata() + NbFormat(), NbFormat());
    EndsWithConcat(DropLast(code), Trailer());
    EndsWithTrans(Finish(code), Trailer(), NbFormat());
  }

  /** A title drops the "Result of " the operation widgets give their layers. */
  lemma TitleDropsResultOf(op: string)
    requires !Contains(op, "Result of ")
    ensures Title("Result of " + op) == "## " + op
  {
    var pat := "Result of ";
    var s := pat + op;
    assert StartsWith(s, pat);
    assert s[|pat|..] == op;
    ReplaceAbsent(op, pat, "");
    assert ReplaceAll(s, pat, "") == "" + ReplaceAll(op, pat, "");
  }
}
