/** The CSV export of citations and a decoder that undoes it. */
module CitationExport {
  import opened Wrappers

  /** A citation with its string form: a dict that may have a "citation" entry, or anything else. */
  datatype Citation = Fields(citation: Option<string>, shown: string) | Other(shown: string)

  function TextOf(c: Citation): string {
    if c.Fields? && c.citation.Some? then c.citation.value else c.shown
  }

  const QUOTE := '"'

  /** The separator the code joins with: a backslash and the letter n, not a line break. */
  const SEPARATOR := ['\\', 'n']

  const HEADER := "Citation"

  /** Every quote doubled (RFC 4180 section 2, item 7). */
  function Escaped(text: string): string {
    if text == [] then []
    else (if text[0] == QUOTE then [QUOTE, QUOTE] else [text[0]]) + Escaped(text[1..])
  }

  function Quoted(text: string): string {
    [QUOTE] + Escaped(text) + [QUOTE]
  }

  /** The lines behind the header, each with the separator before it. */
  function Body(texts: seq<string>): string {
    if texts == [] then [] else SEPARATOR + Quoted(texts[0]) + Body(texts[1..])
  }

  function Texts(citations: seq<Citation>): seq<string> {
    seq(|citations|, i requires 0 <= i < |citations| => TextOf(citations[i]))
  }

  function Join(separator: string, lines: seq<string>): string {
    if lines == [] then [] else if |lines| == 1 then lines[0]
    else lines[0] + separator + Join(separator, lines[1..])
  }

  method ExportToCsv(citations: seq<Citation>) returns (csv: string)
    ensures csv == HEADER + Body(Texts(citations))
  {
    var lines := [HEADER];
    for i := 0 to |citations|
      invariant |lines| == i + 1 && lines[0] == HEADER
      invariant forall k :: 0 <= k < i ==> lines[k + 1] == Quoted(Texts(citations)[k])
    {
      var text := TextOf(citations[i]);
      lines := lines + [Quoted(text)];
    }
    csv := Join(SEPARATOR, lines);
    JoinedLines(lines, Texts(citations));
  }

  lemma {:induction false} JoinedLines(lines: seq<string>, texts: seq<string>)
    requires |lines| == |texts| + 1
    requires forall k :: 0 <= k < |texts| ==> lines[k + 1] == Quoted(texts[k])
    ensures Join(SEPARATOR, lines) == lines[0] + Body(texts)
  {
    if texts == [] {
    } else {
      JoinedLines(lines[1..], texts[1..]);
      assert lines[1..][0] == Quoted(texts[0]);
    }
  }

  /** Reads up to the quote that closes a field: the text and what follows. */
  function ReadQuoted(s: string): Option<(string, string)> {
    if s == [] then None
    else if s[0] != QUOTE then
      var tail := ReadQuoted(s[1..]);
      if tail.Some? then Some(([s[0]] + tail.value.0, tail.value.1)) else None
    else if |s| > 1 && s[1] == QUOTE then
      var tail := ReadQuoted(s[2..]);
      if tail.Some? then Some(([QUOTE] + tail.value.0, tail.value.1)) else None
    else Some(([], s[1..]))
  }

  lemma {:induction false} ReadingShortens(s: string)
    ensures ReadQuoted(s).Some? ==> |ReadQuoted(s).value.1| < |s|
  {
    if s != [] && s[0] != QUOTE { ReadingShortens(s[1..]); }
    if |s| > 1 && s[0] == QUOTE && s[1] == QUOTE { ReadingShortens(s[2..]); }
  }

  function DecodeBody(s: string): Option<seq<string>>
    decreases |s|
  {
    if s == [] then Some([])
    else if |s| < 3 || s[..3] != SEPARATOR + [QUOTE] then None
    else
      ReadingShortens(s[3..]);
      match ReadQuoted(s[3..])
      case None => None
      case Some((text, rest)) =>
        var texts := DecodeBody(rest);
        if texts.Some? then Some([text] + texts.value) else None
  }

  function Decode(csv: string): Option<seq<string>> {
    if |csv| < |HEADER| || csv[..|HEADER|] != HEADER then None else DecodeBody(csv[|HEADER|..])
  }

  lemma {:induction false} ReadingUndoesQuoting(text: string, rest: string)
    requires rest == [] || rest[0] != QUOTE
    ensures ReadQuoted(Escaped(text) + [QUOTE] + rest) == Some((text, rest))
  {
    var s := Escaped(text) + [QUOTE] + rest;
    if text == [] {
      assert s == [QUOTE] + rest;
    } else {
      var tail := Escaped(text[1..]) + [QUOTE] + rest;
      ReadingUndoesQuoting(text[1..], rest);
      if text[0] == QUOTE { assert s == [QUOTE, QUOTE] + tail; } else { assert s == [text[0]] + tail; }
      assert [text[0]] + text[1..] == text;
    }
  }

  lemma {:induction false} DecodingUndoesBody(texts: seq<string>)
    ensures DecodeBody(Body(texts)) == Some(texts)
  {
    if texts == [] {
    } else {
      var s, rest := Body(texts), Body(texts[1..]);
      DecodingUndoesBody(texts[1..]);
      ReadingUndoesQuoting(texts[0], rest);
      assert s == SEPARATOR + [QUOTE] + (Escaped(texts[0]) + [QUOTE] + rest);
      assert s[..3] == SEPARATOR + [QUOTE];
      assert [texts[0]] + texts[1..] == texts;
    }
  }

  /** The export loses nothing: the decoder recovers every list of citation texts. */
  lemma ExportRoundTrip(citations: seq<Citation>)
    ensures Decode(HEADER + Body(Texts(citations))) == Some(Texts(citations))
  {
    var csv := HEADER + Body(Texts(citations));
    assert csv[|HEADER|..] == Body(Texts(citations));
    DecodingUndoesBody(Texts(citations));
  }

  lemma {:induction false} ReadIsQuoted(s: string)
    ensures var r := ReadQuoted(s); r.Some? ==> s == Escaped(r.value.0) + [QUOTE] + r.value.1
  {
    if s != [] && s[0] != QUOTE {
      ReadIsQuoted(s[1..]);
      assert s == [s[0]] + s[1..];
    } else if |s| > 1 && s[1] == QUOTE {
      ReadIsQuoted(s[2..]);
      assert s == [QUOTE, QUOTE] + s[2..];
    }
  }

  lemma {:induction false} DecodedBodyIsExported(s: string)
    ensures DecodeBody(s).Some? ==> s == Body(DecodeBody(s).value)
    decreases |s|
  {
    if DecodeBody(s).Some? && s != [] {
      ReadingShortens(s[3..]);
      ReadIsQuoted(s[3..]);
      var r := ReadQuoted(s[3..]).value;
      DecodedBodyIsExported(r.1);
      assert s == s[..3] + s[3..];
      assert DecodeBody(s).value[1..] == DecodeBody(r.1).value;
    }
  }

  /** The decoder accepts nothing else: what it decodes is the export of what it returns. */
  lemma DecoderIsExact(csv: string)
    ensures Decode(csv).Some? ==> csv == HEADER + Body(Decode(csv).value)
  {
    if Decode(csv).Some? {
      var n := |HEADER|;
      assert csv[..n] == HEADER && csv == csv[..n] + csv[n..];
      DecodedBodyIsExported(csv[n..]);
    }
  }

  predicate OneLine(s: string) {
    '\n' !in s
  }

  lemma {:induction false} QuotedOneLine(text: string)
    ensures OneLine(Escaped(text)) <==> OneLine(text)
  {
    if text == [] {
    } else {
      QuotedOneLine(text[1..]);
      assert text == [text[0]] + text[1..];
    }
  }

  lemma {:induction false} BodyOneLine(texts: seq<string>)
    ensures OneLine(Body(texts)) <==> forall k :: 0 <= k < |texts| ==> OneLine(texts[k])
  {
    if texts == [] {
    } else {
      BodyOneLine(texts[1..]);
      QuotedOneLine(texts[0]);
      assert texts == [texts[0]] + texts[1..];
    }
  }

  /** Because of its separator the export is a single line, header included, unless a citation itself
      has a line break. */
  lemma ExportIsOneLine(citations: seq<Citation>)
    ensures OneLine(HEADER + Body(Texts(citations))) <==>
            forall k :: 0 <= k < |citations| ==> OneLine(TextOf(citations[k]))
  {
    var texts := Texts(citations);
    BodyOneLine(texts);
    assert HEADER[0] == 'C' && OneLine(HEADER);
    assert OneLine(HEADER + Body(texts)) <==> OneLine(Body(texts));
    assert forall k :: 0 <= k < |texts| ==> texts[k] == TextOf(citations[k]);
    assert forall k :: 0 <= k < |citations| ==> TextOf(citations[k]) == texts[k];
  }

  /** What is recovered of a citation is its "citation" entry if it is a dict with one, else its string
      form. */
  lemma ExportShowsCitations(citations: seq<Citation>, i: nat)
    requires i < |citations|
    ensures var texts := Decode(HEADER + Body(Texts(citations)));
            && texts.Some? && |texts.value| == |citations|
            && match citations[i]
               case Fields(Some(entry), _) => texts.value[i] == entry
               case Fields(None, shown) => texts.value[i] == shown
               case Other(shown) => texts.value[i] == shown
  {
    ExportRoundTrip(citations);
  }
}
