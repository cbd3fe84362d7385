/**
 * Turning a PDF into lines: the selection between the text layer and OCR, the clean-up of raw
 * lines, and the grouping of OCR word tokens into lines by their line number. The PDF and OCR
 * engines themselves are left abstract: the text layer is a list of lines and OCR a function of
 * the resolution.
 */
module PdfReader {
  import opened Wrappers
  import opened Text
  import opened TextUtils

  // ---------------------------------------------------------------------------------------
  // _normalize_non_empty
  // ---------------------------------------------------------------------------------------

  /** `norm_line` of each line, in order, dropping those that come out empty. */
  function NonEmptyNormalized(lines: seq<string>): seq<string>
  {
    if lines == [] then [] else NonEmptyNormalized(lines[..|lines| - 1]) + KeptLine(lines[|lines| - 1])
  }

  /** `norm_line` of one line, as a list that is empty when the line comes out empty. */
  function KeptLine(line: string): seq<string>
  {
    var cleaned := NormLine(line);
    if cleaned != "" then [cleaned] else []
  }

  /** The loop of `_normalize_non_empty`. */
  method NormalizeNonEmpty(lines: seq<string>) returns (normalized: seq<string>)
    ensures normalized == NonEmptyNormalized(lines)
  {
    normalized := [];
    var i := 0;
    while i < |lines|
      invariant i <= |lines|
      invariant normalized == NonEmptyNormalized(lines[..i])
      decreases |lines| - i
    {
      assert lines[..i + 1][..i] == lines[..i];
      var cleaned := NormLine(lines[i]);
      if cleaned != "" {
        normalized := normalized + [cleaned];
      }
      i := i + 1;
    }
    assert lines[..|lines|] == lines;
  }

  /** Every output line is nonempty, normalised, and the normalised form of an input line. */
  lemma {:induction false} NonEmptyNormalizedFrom(lines: seq<string>)
    ensures forall l | l in NonEmptyNormalized(lines) ::
      l != "" && Normalized(l) && exists j | 0 <= j < |lines| :: l == NormLine(lines[j])
  {
    if lines != [] {
      var init := lines[..|lines| - 1];
      NonEmptyNormalizedFrom(init);
      NormLineNormalized(lines[|lines| - 1]);
      forall l | l in NonEmptyNormalized(lines)
        ensures exists j | 0 <= j < |lines| :: l == NormLine(lines[j])
      {
        if l in NonEmptyNormalized(init) {
          var j :| 0 <= j < |init| && l == NormLine(init[j]);
          assert init[j] == lines[j];
        }
      }
    }
  }

  /** Cleaning distributes over concatenation: each line is cleaned on its own. */
  lemma {:induction false} NonEmptyNormalizedAppend(a: seq<string>, b: seq<string>)
    ensures NonEmptyNormalized(a + b) == NonEmptyNormalized(a) + NonEmptyNormalized(b)
    decreases |b|
  {
    if b == [] {
      assert a + b == a;
    } else {
      var b', x := b[..|b| - 1], b[|b| - 1];
      NonEmptyNormalizedAppend(a, b');
      LastSplit(a, b);
      NonEmptyNormalizedSnoc(a + b', x);
      NonEmptyNormalizedSnoc(b', x);
      ConcatAssoc(NonEmptyNormalized(a), NonEmptyNormalized(b'), KeptLine(x));
    }
  }

  /** One more line adds its cleaned form, if any, at the end. */
  lemma NonEmptyNormalizedSnoc(s: seq<string>, x: string)
    ensures NonEmptyNormalized(s + [x]) == NonEmptyNormalized(s) + KeptLine(x)
  {
    assert (s + [x])[..|s|] == s;
  }

  /** Lines that are already clean and nonempty are kept as they are. */
  lemma {:induction false} NonEmptyNormalizedClean(lines: seq<string>)
    requires forall j | 0 <= j < |lines| :: lines[j] != "" && Normalized(lines[j])
    ensures NonEmptyNormalized(lines) == lines
  {
    if lines != [] {
      var init, x := lines[..|lines| - 1], lines[|lines| - 1];
      NonEmptyNormalizedClean(init);
      NormLineFixpoint(x);
      LastSplit([], lines);
      NonEmptyNormalizedSnoc(init, x);
    }
  }

  /** Cleaning twice is cleaning once. */
  lemma NonEmptyNormalizedIdempotent(lines: seq<string>)
    ensures NonEmptyNormalized(NonEmptyNormalized(lines)) == NonEmptyNormalized(lines)
  {
    var out := NonEmptyNormalized(lines);
    NonEmptyNormalizedFrom(lines);
    assert forall j | 0 <= j < |out| :: out[j] in out;
    NonEmptyNormalizedClean(out);
  }

  // ---------------------------------------------------------------------------------------
  // _flush_buffer and the token grouping of _extract_lines_with_data
  // ---------------------------------------------------------------------------------------

  /**
   * A word token of `image_to_data`: its text, its confidence as `int(conf)` gives it (`None`
   * where that conversion fails) and its `line_num`.
   */
  datatype Token = Token(text: string, conf: Option<int>, lineNum: int)

  /** The tokens the grouping uses: a confidence of at least 0 and some text once stripped. */
  predicate Kept(t: Token)
  {
    t.conf.Some? && t.conf.value >= 0 && Strip(t.text) != ""
  }

  /** `_flush_buffer(buffer, collector)`: the collector after the buffer is flushed into it. */
  function Flushed(buffer: seq<string>, collector: seq<string>): (r: seq<string>)
    ensures buffer == [] ==> r == collector
    ensures r == collector || r == collector + [NormLine(Join(" ", buffer))]
    ensures |r| == |collector| + 1 <==> buffer != [] && NormLine(Join(" ", buffer)) != ""
  {
    if buffer == [] then collector
    else
      var line := NormLine(Join(" ", buffer));
      if line != "" then collector + [line] else collector
  }

  /** The loop state: the lines so far, the tokens of the current line, and its number. */
  datatype Grouping = Grouping(lines: seq<string>, buffer: seq<string>, current: Option<int>)

  const GROUPING_START: Grouping := Grouping([], [], None)

  /** One token of the loop. */
  function GroupStep(st: Grouping, t: Token): Grouping
  {
    if !Kept(t) then st
    else
      var token := Strip(t.text);
      var cur := if st.current.None? then t.lineNum else st.current.value;
      if t.lineNum != cur then Grouping(Flushed(st.buffer, st.lines), [token], Some(t.lineNum))
      else Grouping(st.lines, st.buffer + [token], Some(cur))
  }

  /** The loop run over `toks` from `st`. */
  function GroupFrom(st: Grouping, toks: seq<Token>): Grouping
    decreases |toks|
  {
    if toks == [] then st else GroupFrom(GroupStep(st, toks[0]), toks[1..])
  }

  /** The lines `_extract_lines_with_data` returns: the loop, then the final flush. */
  function LinesOf(tokens: seq<Token>): seq<string>
  {
    var st := GroupFrom(GROUPING_START, tokens);
    Flushed(st.buffer, st.lines)
  }

  /** The grouping loop of `_extract_lines_with_data`. */
  method ExtractLinesWithData(tokens: seq<Token>) returns (textLines: seq<string>)
    ensures textLines == LinesOf(tokens)
  {
    textLines := [];
    var currentLine: Option<int> := None;
    var buffer: seq<string> := [];
    var idx := 0;
    while idx < |tokens|
      invariant idx <= |tokens|
      invariant GroupFrom(Grouping(textLines, buffer, currentLine), tokens[idx..]) == GroupFrom(GROUPING_START, tokens)
      decreases |tokens| - idx
    {
      assert tokens[idx..][1..] == tokens[idx + 1..];
      var t := tokens[idx];
      var token := Strip(t.text);
      if t.conf.Some? && t.conf.value >= 0 && token != "" {
        var lineNum := t.lineNum;
        if currentLine.None? {
          currentLine := Some(lineNum);
        }
        if lineNum != currentLine.value {
          textLines := Flushed(buffer, textLines);
          buffer := [token];
          currentLine := Some(lineNum);
        } else {
          buffer := buffer + [token];
        }
      }
      idx := idx + 1;
    }
    textLines := Flushed(buffer, textLines);
  }

  /** The tokens of `toks` that the grouping keeps, in order. */
  function KeptOnly(toks: seq<Token>): (r: seq<Token>)
    ensures forall t | t in r :: Kept(t)
  {
    if toks == [] then [] else (if Kept(toks[0]) then [toks[0]] else []) + KeptOnly(toks[1..])
  }

  /** The stripped texts of the tokens. */
  function Texts(toks: seq<Token>): seq<string>
  {
    if toks == [] then [] else [Strip(toks[0].text)] + Texts(toks[1..])
  }

  /** Tokens with a negative or unreadable confidence, or no text, make no difference. */
  lemma {:induction false} GroupFromKept(st: Grouping, toks: seq<Token>)
    ensures GroupFrom(st, toks) == GroupFrom(st, KeptOnly(toks))
    decreases |toks|
  {
    if toks != [] {
      var rest := KeptOnly(toks[1..]);
      if Kept(toks[0]) {
        assert KeptOnly(toks) == [toks[0]] + rest;
        assert ([toks[0]] + rest)[0] == toks[0] && ([toks[0]] + rest)[1..] == rest;
        GroupFromKept(GroupStep(st, toks[0]), toks[1..]);
      } else {
        assert GroupStep(st, toks[0]) == st;
        assert KeptOnly(toks) == [] + rest == rest;
        GroupFromKept(st, toks[1..]);
      }
    }
  }

  lemma LinesOfKept(tokens: seq<Token>)
    ensures LinesOf(tokens) == LinesOf(KeptOnly(tokens))
  {
    GroupFromKept(GROUPING_START, tokens);
  }

  /** Running the loop over `a + b` is running it over `a`, then over `b`. */
  lemma {:induction false} GroupFromAppend(st: Grouping, a: seq<Token>, b: seq<Token>)
    ensures GroupFrom(st, a + b) == GroupFrom(GroupFrom(st, a), b)
    decreases |a|
  {
    if a == [] {
      assert a + b == b;
    } else {
      assert (a + b)[0] == a[0] && (a + b)[1..] == a[1..] + b;
      GroupFromAppend(GroupStep(st, a[0]), a[1..], b);
    }
  }

  lemma FlushedPrefix(buffer: seq<string>, p: seq<string>, collector: seq<string>)
    ensures Flushed(buffer, p + collector) == p + Flushed(buffer, collector)
  {
  }

  /** Lines already collected are never changed: the loop only appends after them. */
  lemma {:induction false} GroupFromPrefix(st: Grouping, toks: seq<Token>, p: seq<string>)
    ensures GroupFrom(st.(lines := p + st.lines), toks)
      == GroupFrom(st, toks).(lines := p + GroupFrom(st, toks).lines)
    decreases |toks|
  {
    if toks != [] {
      var st' := GroupStep(st, toks[0]);
      FlushedPrefix(st.buffer, p, st.lines);
      assert GroupStep(st.(lines := p + st.lines), toks[0]) == st'.(lines := p + st'.lines);
      GroupFromPrefix(st', toks[1..], p);
    }
  }

  /** While the line number stays the same, the stripped texts pile up in the buffer. */
  lemma {:induction false} GroupFromSameLine(lines: seq<string>, buffer: seq<string>, line: int, toks: seq<Token>)
    requires forall j | 0 <= j < |toks| :: Kept(toks[j]) && toks[j].lineNum == line
    ensures GroupFrom(Grouping(lines, buffer, Some(line)), toks) == Grouping(lines, buffer + Texts(toks), Some(line))
    decreases |toks|
  {
    if toks == [] {
      assert buffer + [] == buffer;
    } else {
      GroupFromSameLine(lines, buffer + [Strip(toks[0].text)], line, toks[1..]);
      assert buffer + Texts(toks) == buffer + [Strip(toks[0].text)] + Texts(toks[1..]);
    }
  }

  /** Kept tokens that all share one line number make one line: their texts joined by spaces. */
  lemma LinesOfOneLine(toks: seq<Token>)
    requires toks != []
    requires forall j | 0 <= j < |toks| :: Kept(toks[j]) && toks[j].lineNum == toks[0].lineNum
    ensures GroupFrom(GROUPING_START, toks) == Grouping([], Texts(toks), Some(toks[0].lineNum))
    ensures LinesOf(toks) == Flushed(Texts(toks), [])
  {
    GroupOneLine(toks);
  }

  lemma GroupOneLine(toks: seq<Token>)
    requires toks != []
    requires forall j | 0 <= j < |toks| :: Kept(toks[j]) && toks[j].lineNum == toks[0].lineNum
    ensures GroupFrom(GROUPING_START, toks) == Grouping([], Texts(toks), Some(toks[0].lineNum))
  {
    var t, rest := Strip(toks[0].text), toks[1..];
    assert GroupStep(GROUPING_START, toks[0]) == Grouping([], [t], Some(toks[0].lineNum));
    assert forall j | 0 <= j < |rest| :: rest[j] == toks[j + 1];
    GroupFromSameLine([], [t], toks[0].lineNum, rest);
    assert Texts(toks) == [t] + Texts(rest);
  }

  /**
   * A change of line number flushes: a run of kept tokens on one line followed by a kept token
   * on another gives the run's line, then the lines of the rest.
   */
  lemma LinesOfLineChange(a: seq<Token>, b: seq<Token>)
    requires a != [] && b != []
    requires forall j | 0 <= j < |a| :: Kept(a[j]) && a[j].lineNum == a[0].lineNum
    requires Kept(b[0]) && b[0].lineNum != a[0].lineNum
    ensures LinesOf(a + b) == Flushed(Texts(a), []) + LinesOf(b)
  {
    var p := Flushed(Texts(a), []);
    var st := GroupStep(GROUPING_START, b[0]);
    var g1 := Grouping([], Texts(a), Some(a[0].lineNum));
    LinesOfOneLine(a);
    GroupFromAppend(GROUPING_START, a, b);
    ChangeStep(Texts(a), b[0], a[0].lineNum);
    assert GroupFrom(GROUPING_START, a + b) == GroupFrom(st.(lines := p + st.lines), b[1..]) by {
      assert GroupFrom(g1, b) == GroupFrom(GroupStep(g1, b[0]), b[1..]);
    }
    GroupFromPrefix(st, b[1..], p);
    var r := GroupFrom(st, b[1..]);
    assert GroupFrom(GROUPING_START, b) == r;
    FlushedPrefix(r.buffer, p, r.lines);
  }

  /** The step that meets a new line number flushes the run collected so far. */
  lemma ChangeStep(buffer: seq<string>, t: Token, line: int)
    requires Kept(t) && t.lineNum != line
    ensures var st := GroupStep(GROUPING_START, t);
      GroupStep(Grouping([], buffer, Some(line)), t) == st.(lines := Flushed(buffer, []) + st.lines)
  {
    assert Flushed(buffer, []) + [] == Flushed(buffer, []);
  }

  /** Every line the grouping returns is nonempty and normalised. */
  predicate CleanLines(lines: seq<string>)
  {
    forall l | l in lines :: l != "" && Normalized(l)
  }

  lemma FlushedClean(buffer: seq<string>, collector: seq<string>)
    requires CleanLines(collector)
    ensures CleanLines(Flushed(buffer, collector))
  {
    NormLineNormalized(Join(" ", buffer));
  }

  lemma {:induction false} GroupFromClean(st: Grouping, toks: seq<Token>)
    requires CleanLines(st.lines)
    ensures CleanLines(GroupFrom(st, toks).lines)
    decreases |toks|
  {
    if toks != [] {
      FlushedClean(st.buffer, st.lines);
      GroupFromClean(GroupStep(st, toks[0]), toks[1..]);
    }
  }

  lemma LinesOfClean(tokens: seq<Token>)
    ensures CleanLines(LinesOf(tokens))
  {
    GroupFromClean(GROUPING_START, tokens);
    var st := GroupFrom(GROUPING_START, tokens);
    FlushedClean(st.buffer, st.lines);
  }

  // ---------------------------------------------------------------------------------------
  // PdfLineReader
  // ---------------------------------------------------------------------------------------

  /** What the two engines give for one document: the text layer's lines, and OCR's at a resolution. */
  datatype LineSources = LineSources(text: seq<string>, ocr: int -> seq<string>)

  /** The defaults of `PdfLineReader()`: OCR preferred, rendered at 300 dpi. */
  const DEFAULT_PREFER_OCR: bool := true
  const DEFAULT_DPI: int := 300

  /**
   * What a read gives when `prefer` says whether OCR is preferred: the preferred engine runs first
   * and the other only when the first gives no lines; the flag says the lines are OCR's.
   */
  function ReadResult(src: LineSources, prefer: bool, dpi: int): (r: (seq<string>, bool))
    ensures r.1 ==> r.0 == src.ocr(dpi) && r.0 != []
    ensures !r.1 ==> r.0 == src.text
    ensures prefer && src.ocr(dpi) != [] ==> r.1
    ensures !prefer && src.text != [] ==> !r.1
    ensures r.0 == [] ==> src.text == [] && src.ocr(dpi) == []
  {
    if prefer then
      if src.ocr(dpi) != [] then (src.ocr(dpi), true) else (src.text, false)
    else
      if src.text != [] then (src.text, false) else (src.ocr(dpi), src.ocr(dpi) != [])
  }

  /** The reader, with its preference for OCR and its resolution. */
  class PdfLineReader {
    var preferOcr: bool
    var dpi: int

    constructor (preferOcr: bool, dpi: int)
      ensures this.preferOcr == preferOcr && this.dpi == dpi
    {
      this.preferOcr := preferOcr;
      this.dpi := dpi;
    }

    /** `read(pdf_path, use_ocr_hint)`: the lines and OCR flag `ReadResult` gives for this reader. */
    method Read(src: LineSources, useOcrHint: Option<bool>) returns (lines: seq<string>, usedOcr: bool)
      ensures (lines, usedOcr) == ReadResult(src, if useOcrHint.Some? then useOcrHint.value else preferOcr, dpi)
    {
      var prefer := if useOcrHint.Some? then useOcrHint.value else preferOcr;
      if prefer {
        lines := src.ocr(dpi);
        usedOcr := true;
        if lines == [] {
          lines := src.text;
          usedOcr := false;
        }
      } else {
        lines := src.text;
        usedOcr := false;
        if lines == [] {
          lines := src.ocr(dpi);
          usedOcr := lines != [];
        }
      }
    }
  }
}
