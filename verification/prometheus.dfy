/** The Prometheus text exposition: label rendering and header-once samples. */
module Prometheus {
  import opened Words
  import opened LogFmt

  // ---- labels -------------------------------------------------------------------

  datatype Label = Label(name: string, value: string)

  function EscapeLabel(c: char): string {
    match c
    case '\\' => "\\\\"
    case '"' => "\\\""
    case '\n' => "\\n"
    case _ => [c]
  }

  function EscapeValue(s: string): string {
    if |s| == 0 then "" else EscapeLabel(s[0]) + EscapeValue(s[1..])
  }

  /** One label; its value is a C string, so it ends at the first NUL. */
  function LabelText(l: Label): string { l.name + "=\"" + EscapeValue(CString(l.value)) + "\"" }

  /** Labels separated by commas. */
  function Joined(ls: seq<Label>): string {
    if |ls| == 0 then "" else if |ls| == 1 then LabelText(ls[0]) else LabelText(ls[0]) + "," + Joined(ls[1..])
  }

  function LabelSet(ls: seq<Label>): string { if ls == [] then "" else "{" + Joined(ls) + "}" }

  /** Append a C string, escaped character by character. */
  method AppendValue(start: string, value: string) returns (out: string)
    ensures out == start + EscapeValue(CString(value))
  {
    hide EscapeLabel;
    out := start;
    var c := 0;
    while c < |value| && value[c] != NUL
      invariant c <= |value| && out == start + EscapeValue(value[..c])
      invariant forall j | 0 <= j < c :: value[j] != NUL
    {
      EscapeValueSnoc(value[..c], value[c]);
      assert value[..c + 1] == value[..c] + [value[c]];
      out := out + EscapeLabel(value[c]);
      c := c + 1;
    }
    CStringPrefix(value, c);
  }

  /** Render labels. */
  method Labels(ls: seq<Label>) returns (out: string)
    ensures out == LabelSet(ls)
  {
    if |ls| == 0 {
      return "";
    }
    out := "{";
    var first := true;
    assert Joined(ls[..0]) == "";
    hide Joined, LabelText, EscapeValue, CString;
    for i := 0 to |ls|
      invariant out == "{" + Joined(ls[..i])
      invariant first == (i == 0)
    {
      JoinedNext(ls, i);
      if !first {
        out := out + ",";
      }
      first := false;
      ghost var before := out;
      out := out + ls[i].name;
      out := out + "=\"";
      out := AppendValue(out, ls[i].value);
      out := out + "\"";
      LabelPieces(before, ls[i]);
    }
    assert ls[..|ls|] == ls;
    out := out + "}";
  }

  lemma LabelPieces(before: string, l: Label)
    ensures before + l.name + "=\"" + EscapeValue(CString(l.value)) + "\"" == before + LabelText(l)
  {
    hide EscapeValue, CString;
  }

  lemma {:induction false} EscapeValueSnoc(s: string, c: char)
    ensures EscapeValue(s + [c]) == EscapeValue(s) + EscapeLabel(c)
  {
    hide EscapeLabel;
    if |s| == 0 {
      assert s + [c] == [c] && EscapeValue([c][1..]) == "";
    } else {
      assert (s + [c])[1..] == s[1..] + [c];
      EscapeValueSnoc(s[1..], c);
    }
  }

  lemma {:induction false} CStringPrefix(s: string, c: nat)
    requires c <= |s| && (forall j | 0 <= j < c :: s[j] != NUL) && (c == |s| || s[c] == NUL)
    ensures CString(s) == s[..c]
  {
    if c == 0 {
    } else {
      CStringPrefix(s[1..], c - 1);
      assert s[..c] == [s[0]] + s[1..][..c - 1];
    }
  }

  lemma {:induction false} JoinedSnoc(ls: seq<Label>, l: Label)
    ensures Joined(ls + [l]) == (if ls == [] then "" else Joined(ls) + ",") + LabelText(l)
  {
    hide LabelText;
    if |ls| == 0 {
      assert ls + [l] == [l];
    } else {
      assert (ls + [l])[1..] == ls[1..] + [l];
      JoinedSnoc(ls[1..], l);
      if |ls| == 1 {
        assert ls[1..] == [];
      }
    }
  }

  lemma JoinedNext(ls: seq<Label>, i: nat)
    requires i < |ls|
    ensures Joined(ls[..i + 1]) == (if i == 0 then "" else Joined(ls[..i]) + ",") + LabelText(ls[i])
  {
    JoinedSnoc(ls[..i], ls[i]);
    assert ls[..i + 1] == ls[..i] + [ls[i]];
  }

  // ---- reading labels back --------------------------------------------------------

  /** Undo the escapes of a label value up to its closing quote. */
  function ReadValue(s: string): Option<(string, string)> {
    if |s| == 0 then None
    else if s[0] == '"' then Some(("", s[1..]))
    else if s[0] == '\\' && |s| < 2 then None
    else
      var n := if s[0] == '\\' then 2 else 1;
      var c := if s[0] != '\\' then s[0] else if s[1] == 'n' then '\n' else s[1];
      match ReadValue(s[n..])
      case None => None
      case Some((v, rest)) => Some(([c] + v, rest))
  }

  /** One label: a name up to `=`, then a quoted value. */
  function ReadLabel(s: string): Option<(Label, string)> {
    var (name, rest) := Until(s, '=');
    if |rest| < 2 || rest[1] != '"' then None
    else
      match ReadValue(rest[2..])
      case None => None
      case Some((v, more)) => Some((Label(name, v), more))
  }

  /** Labels up to the closing brace, which ends the text. */
  function ReadLabels(s: string): Option<seq<Label>>
    decreases |s|
  {
    match ReadLabel(s)
    case None => None
    case Some((l, more)) =>
      ReadShrinks(s);
      if more == "}" then Some([l])
      else if more == "" || more[0] != ',' then None
      else
        match ReadLabels(more[1..])
        case None => None
        case Some(ls) => Some([l] + ls)
  }

  function ReadLabelSet(s: string): Option<seq<Label>> {
    if s == "" then Some([]) else if s[0] != '{' then None else ReadLabels(s[1..])
  }

  lemma {:induction false} ReadValueShrinks(s: string)
    ensures var r := ReadValue(s); r.Some? ==> |r.value.1| < |s|
  {
    if |s| == 0 || s[0] == '"' || (s[0] == '\\' && |s| < 2) {
    } else {
      ReadValueShrinks(s[if s[0] == '\\' then 2 else 1..]);
    }
  }

  lemma ReadShrinks(s: string)
    ensures var r := ReadLabel(s); r.Some? ==> |r.value.1| < |s| && '=' !in r.value.0.name
  {
    hide Until, ReadValue;
    UntilShrinks(s, '=');
    var (name, rest) := Until(s, '=');
    if |rest| >= 2 {
      ReadValueShrinks(rest[2..]);
    }
  }

  lemma {:induction false} ReadEscaped(s: string, rest: string)
    ensures ReadValue(EscapeValue(s) + "\"" + rest) == Some((s, rest))
  {
    var t := EscapeValue(s) + "\"" + rest;
    if |s| == 0 {
      assert t == "\"" + rest && t[1..] == rest;
    } else {
      ReadEscaped(s[1..], rest);
      var e := EscapeLabel(s[0]);
      assert t == e + (EscapeValue(s[1..]) + "\"" + rest);
      assert t[|e|..] == EscapeValue(s[1..]) + "\"" + rest;
      assert [s[0]] + s[1..] == s;
    }
  }

  lemma LabelReads(l: Label, rest: string)
    requires '=' !in l.name
    ensures ReadLabel(LabelText(l) + rest) == Some((Label(l.name, CString(l.value)), rest))
  {
    hide ReadValue, Until, EscapeValue, CString;
    var v := EscapeValue(CString(l.value)) + "\"" + rest;
    var tail := "=\"" + v;
    assert LabelText(l) + rest == l.name + tail;
    UntilPrefix(l.name, tail, '=');
    assert tail[2..] == v;
    ReadEscaped(CString(l.value), rest);
  }

  /** What can be recovered of labels: names, and values up to a NUL. */
  function Readable(ls: seq<Label>): (rs: seq<Label>)
    ensures |rs| == |ls|
  {
    seq(|ls|, i requires 0 <= i < |ls| => Label(ls[i].name, CString(ls[i].value)))
  }

  predicate PlainNames(ls: seq<Label>) {
    forall l | l in ls :: '=' !in l.name
  }

  lemma {:induction false} JoinedReads(ls: seq<Label>)
    requires |ls| > 0 && PlainNames(ls)
    ensures ReadLabels(Joined(ls) + "}") == Some(Readable(ls))
  {
    hide ReadLabel, LabelText, CString;
    var l, later := ls[0], ls[1..];
    if later == [] {
      LabelReads(l, "}");
      assert Readable(ls) == [Label(l.name, CString(l.value))];
    } else {
      var rest := "," + (Joined(later) + "}");
      LabelReads(l, rest);
      JoinedReads(later);
      assert rest[1..] == Joined(later) + "}";
      assert Joined(ls) + "}" == LabelText(l) + rest;
      assert Readable(ls) == [Label(l.name, CString(l.value))] + Readable(later);
    }
  }

  lemma {:induction false} ReadNames(s: string)
    ensures var r := ReadLabels(s); r.Some? ==> PlainNames(r.value)
    decreases |s|
  {
    hide ReadLabel;
    ReadShrinks(s);
    var r := ReadLabel(s);
    if r.Some? && r.value.1 != "" {
      ReadNames(r.value.1[1..]);
    }
  }

  /** Reading rendered labels back recovers every pair, whatever the values, exactly
      when no name contains `=`; values are C strings. */
  lemma LabelsRoundTrip(ls: seq<Label>)
    ensures ReadLabelSet(LabelSet(ls)) == Some(Readable(ls)) <==> PlainNames(ls)
  {
    hide ReadLabels, Joined, CString;
    if ls != [] {
      assert LabelSet(ls)[1..] == Joined(ls) + "}";
      if PlainNames(ls) {
        JoinedReads(ls);
      } else {
        var l :| l in ls && '=' in l.name;
        var i :| 0 <= i < |ls| && ls[i] == l;
        assert Readable(ls)[i].name == l.name && Readable(ls)[i] in Readable(ls);
        ReadNames(LabelSet(ls)[1..]);
      }
    }
  }

  // ---- samples ----------------------------------------------------------------------

  datatype Sample = Sample(name: string, kind: string, help: string, labels: string, value: nat)

  datatype TextLine = Help(name: string, help: string) | Kind(name: string, kind: string) | Data(sample: Sample)

  function LineText(l: TextLine): string {
    match l
    case Help(name, help) => "# HELP " + name + " " + help + "\n"
    case Kind(name, kind) => "# TYPE " + name + " " + kind + "\n"
    case Data(s) => s.name + s.labels + " " + Digits(s.value) + "\n"
  }

  function TextOf(lines: seq<TextLine>): string {
    if |lines| == 0 then "" else TextOf(lines[..|lines| - 1]) + LineText(lines[|lines| - 1])
  }

  /** The families whose header lines are among `lines`. */
  function Families(lines: seq<TextLine>): set<string> {
    set l | l in lines && l.Help? :: l.name
  }

  predicate Declared(lines: seq<TextLine>, name: string) { name in Families(lines) }

  /** The lines of an exposition with one more sample. */
  function WithSample(lines: seq<TextLine>, s: Sample): seq<TextLine> {
    (if Declared(lines, s.name) then lines else lines + [Help(s.name, s.help), Kind(s.name, s.kind)]) + [Data(s)]
  }

  /** Each family's HELP and TYPE lines occur once, one after the other, and before
      its first sample. */
  ghost predicate HeadersOnce(lines: seq<TextLine>) {
    && (forall i, j | 0 <= i < j < |lines| && lines[i].Help? && lines[j].Help? :: lines[i].name != lines[j].name)
    && (forall i | 0 <= i < |lines| && lines[i].Help? ::
          i + 1 < |lines| && lines[i + 1].Kind? && lines[i + 1].name == lines[i].name)
    && (forall i | 0 <= i < |lines| && lines[i].Kind? :: i > 0 && lines[i - 1].Help?)
    && (forall i | 0 <= i < |lines| && lines[i].Data? :: Declared(lines[..i], lines[i].sample.name))
  }

  lemma HeaderKeepsHeaders(lines: seq<TextLine>, name: string, help: string, kind: string)
    requires HeadersOnce(lines) && !Declared(lines, name)
    ensures HeadersOnce(lines + [Help(name, help), Kind(name, kind)])
    ensures Declared(lines + [Help(name, help), Kind(name, kind)], name)
  {
    var n, lines' := |lines|, lines + [Help(name, help), Kind(name, kind)];
    assert lines'[n] == Help(name, help);
    forall i | 0 <= i < n
      ensures lines'[i] == lines[i] && lines'[..i] == lines[..i] && (lines[i].Help? ==> lines[i].name != name)
    {
      assert lines[i] in lines;
    }
    assert Help(name, help) in lines';
    hide Declared;
  }

  lemma DataKeepsHeaders(lines: seq<TextLine>, s: Sample)
    requires HeadersOnce(lines) && Declared(lines, s.name)
    ensures HeadersOnce(lines + [Data(s)])
  {
    hide Declared;
    var n, lines' := |lines|, lines + [Data(s)];
    assert lines'[..n] == lines;
    forall i | 0 <= i < n
      ensures lines'[i] == lines[i] && lines'[..i] == lines[..i]
    {
    }
  }

  lemma {:induction false} SampleKeepsHeaders(lines: seq<TextLine>, s: Sample)
    requires HeadersOnce(lines)
    ensures HeadersOnce(WithSample(lines, s))
  {
    hide HeadersOnce, Declared;
    if !Declared(lines, s.name) {
      HeaderKeepsHeaders(lines, s.name, s.help, s.kind);
      DataKeepsHeaders(lines + [Help(s.name, s.help), Kind(s.name, s.kind)], s);
    } else {
      DataKeepsHeaders(lines, s);
    }
  }

  /** A text with one more sample, and its family's header lines if it is new. */
  function Extension(text: string, s: Sample, isNew: bool): string {
    (if isNew then text + LineText(Help(s.name, s.help)) + LineText(Kind(s.name, s.kind)) else text)
    + LineText(Data(s))
  }

  /** The exposition builder. `lines` is the structure of the text built so far. */
  class Exposition {
    var out: string
    var declared: set<string>
    ghost var lines: seq<TextLine>

    ghost predicate Valid()
      reads this
    {
      && out == TextOf(lines) && HeadersOnce(lines)
      && declared == Families(lines)
    }

    constructor ()
      ensures Valid() && lines == []
    {
      out, declared, lines := "", {}, [];
    }

    method AppendHelp(name: string, help: string)
      modifies this`out
      ensures out == old(out) + LineText(Help(name, help))
    {
      out := out + "# HELP ";
      out := out + name;
      out := out + " ";
      out := out + help;
      out := out + "\n";
    }

    method AppendKind(name: string, kind: string)
      modifies this`out
      ensures out == old(out) + LineText(Kind(name, kind))
    {
      out := out + "# TYPE ";
      out := out + name;
      out := out + " ";
      out := out + kind;
      out := out + "\n";
    }

    method AppendData(s: Sample)
      modifies this`out
      ensures out == old(out) + LineText(Data(s))
    {
      hide Digits;
      out := out + s.name;
      out := out + s.labels;
      out := out + " ";
      out := out + Digits(s.value);
      out := out + "\n";
    }

    method AppendSample(s: Sample, isNew: bool)
      modifies this`out
      ensures out == Extension(old(out), s, isNew)
    {
      hide LineText;
      if isNew {
        AppendHelp(s.name, s.help);
        AppendKind(s.name, s.kind);
      }
      AppendData(s);
    }

    /** One sample; the family's header lines come before its first. */
    method AddSample(s: Sample)
      requires Valid()
      modifies this
      ensures Valid() && lines == WithSample(old(lines), s)
    {
      hide TextOf, HeadersOnce, Families, Extension, WithSample;
      SampleKeepsHeaders(lines, s);
      TextWithSample(lines, s);
      FamiliesWithSample(lines, s);
      var isNew := s.name !in declared;
      declared := declared + {s.name};
      AppendSample(s, isNew);
      lines := WithSample(lines, s);
    }

    method Clear()
      modifies this
      ensures Valid() && lines == []
    {
      out, declared, lines := "", {}, [];
    }
  }

  lemma TextSnoc(lines: seq<TextLine>, l: TextLine)
    ensures TextOf(lines + [l]) == TextOf(lines) + LineText(l)
  {
    assert (lines + [l])[..|lines|] == lines;
  }

  lemma TextWithSample(lines: seq<TextLine>, s: Sample)
    ensures TextOf(WithSample(lines, s)) == Extension(TextOf(lines), s, !Declared(lines, s.name))
  {
    hide TextOf, LineText, Declared;
    var h, k := Help(s.name, s.help), Kind(s.name, s.kind);
    TextSnoc(lines, h);
    TextSnoc(lines + [h], k);
    assert lines + [h] + [k] == lines + [h, k];
    TextSnoc(if Declared(lines, s.name) then lines else lines + [h, k], Data(s));
  }

  lemma FamiliesWithSample(lines: seq<TextLine>, s: Sample)
    ensures Families(WithSample(lines, s)) == Families(lines) + {s.name}
  {
    var lines' := WithSample(lines, s);
    assert forall l | l in lines :: l in lines';
    if !Declared(lines, s.name) {
      assert Help(s.name, s.help) in lines';
    }
  }

  // ---- the text is its lines ----------------------------------------------------------

  function LineBody(l: TextLine): string { LineText(l)[..|LineText(l)| - 1] }

  /** Cut a text at its line ends. */
  function SplitLines(s: string): seq<string>
    decreases |s|
  {
    var (head, rest) := Until(s, '\n');
    UntilShrinks(s, '\n');
    if rest == "" then (if head == "" then [] else [head]) else [head] + SplitLines(rest[1..])
  }

  predicate Unbroken(l: TextLine) { '\n' !in LineBody(l) }

  /** Text of lines, first line first. */
  function TextForward(lines: seq<TextLine>): string {
    if |lines| == 0 then "" else LineText(lines[0]) + TextForward(lines[1..])
  }

  lemma {:induction false} TextIsForward(lines: seq<TextLine>)
    ensures TextOf(lines) == TextForward(lines)
  {
    hide LineText;
    if |lines| <= 1 {
      if |lines| == 1 {
        assert lines[..0] == [] && lines[1..] == [];
      }
    } else {
      var init, tail, last := lines[..|lines| - 1], lines[1..], lines[|lines| - 1];
      TextIsForward(init);
      TextIsForward(tail);
      TextIsForward(init[1..]);
      assert tail[..|tail| - 1] == init[1..] && tail[|tail| - 1] == last && init[0] == lines[0];
      assert LineText(lines[0]) + (TextForward(init[1..]) + LineText(last))
          == (LineText(lines[0]) + TextForward(init[1..])) + LineText(last);
    }
  }

  function Bodies(lines: seq<TextLine>): (bs: seq<string>)
    ensures |bs| == |lines|
  {
    seq(|lines|, i requires 0 <= i < |lines| => LineBody(lines[i]))
  }

  /** A scraper that cuts the text at line ends sees exactly the lines, when names,
      help texts and labels hold no line break. */
  lemma {:induction false} ScrapedLines(lines: seq<TextLine>)
    requires forall l | l in lines :: Unbroken(l)
    ensures SplitLines(TextForward(lines)) == Bodies(lines)
  {
    hide LineText;
    if |lines| == 0 {
    } else {
      var body, rest := LineBody(lines[0]), TextForward(lines[1..]);
      LineEnds(lines[0]);
      assert Unbroken(lines[0]);
      ScrapedLines(lines[1..]);
      var tail := "\n" + rest;
      assert TextForward(lines) == body + tail;
      UntilPrefix(body, tail, '\n');
      assert tail[1..] == rest;
      assert Bodies(lines) == [body] + Bodies(lines[1..]);
    }
  }

  lemma LineEnds(l: TextLine)
    ensures LineText(l) == LineBody(l) + "\n"
  {
  }

  /** The lines of a whole sequence of samples. */
  function LinesOf(samples: seq<Sample>): seq<TextLine> {
    if |samples| == 0 then [] else WithSample(LinesOf(samples[..|samples| - 1]), samples[|samples| - 1])
  }

  predicate NoBreaks(s: Sample) {
    '\n' !in s.name && '\n' !in s.kind && '\n' !in s.help && '\n' !in s.labels
  }

  lemma SampleUnbroken(s: Sample)
    requires NoBreaks(s)
    ensures Unbroken(Help(s.name, s.help)) && Unbroken(Kind(s.name, s.kind)) && Unbroken(Data(s))
  {
    DigitsBare(s.value);
    assert LineBody(Help(s.name, s.help)) == "# HELP " + s.name + " " + s.help;
    assert LineBody(Kind(s.name, s.kind)) == "# TYPE " + s.name + " " + s.kind;
    assert LineBody(Data(s)) == s.name + s.labels + " " + Digits(s.value);
  }

  /** The pieces between line ends hold no line break. */
  lemma {:induction false} PiecesUnbroken(s: string)
    ensures forall p | p in SplitLines(s) :: '\n' !in p
    decreases |s|
  {
    hide Until;
    UntilShrinks(s, '\n');
    var (head, rest) := Until(s, '\n');
    if rest != "" {
      PiecesUnbroken(rest[1..]);
    }
  }

  /** For every sequence of samples each family's HELP and TYPE lines occur once,
      before its first sample. A scraper cutting the text at line ends sees the lines
      exactly if none holds a line break; samples without one make no such line. */
  lemma {:induction false} ExpositionIsScrapable(samples: seq<Sample>)
    ensures var lines := LinesOf(samples);
      && HeadersOnce(lines)
      && (SplitLines(TextOf(lines)) == Bodies(lines) <==> forall l | l in lines :: Unbroken(l))
      && ((forall s | s in samples :: NoBreaks(s)) ==> forall l | l in lines :: Unbroken(l))
  {
    hide HeadersOnce, SplitLines, TextOf, TextForward, NoBreaks, LinesOf, LineBody;
    var lines := LinesOf(samples);
    LinesKeepHeaders(samples);
    TextIsForward(lines);
    if forall l | l in lines :: Unbroken(l) {
      ScrapedLines(lines);
    } else {
      var l :| l in lines && !Unbroken(l);
      var i :| 0 <= i < |lines| && lines[i] == l;
      assert Bodies(lines)[i] == LineBody(l) && Bodies(lines)[i] in Bodies(lines);
      PiecesUnbroken(TextOf(lines));
    }
  }

  lemma {:induction false} LinesKeepHeaders(samples: seq<Sample>)
    ensures HeadersOnce(LinesOf(samples))
    ensures (forall s | s in samples :: NoBreaks(s)) ==> forall l | l in LinesOf(samples) :: Unbroken(l)
  {
    hide HeadersOnce, Declared, Unbroken, NoBreaks;
    if |samples| == 0 {
      assert HeadersOnce([]) by { NoHeaders(); }
    } else {
      var init, s := samples[..|samples| - 1], samples[|samples| - 1];
      LinesKeepHeaders(init);
      SampleKeepsHeaders(LinesOf(init), s);
      if forall x | x in samples :: NoBreaks(x) {
        assert s in samples;
        SampleUnbroken(s);
      }
    }
  }

  /** Rendered labels hold a line break exactly if a label name does. */
  lemma {:induction false} LabelBreaks(ls: seq<Label>)
    ensures '\n' in Joined(ls) <==> exists l | l in ls :: '\n' in l.name
    ensures '\n' in LabelSet(ls) <==> exists l | l in ls :: '\n' in l.name
  {
    hide EscapeValue, CString;
    if |ls| > 0 {
      LabelBreaks(ls[1..]);
      ValueUnbroken(CString(ls[0].value));
      assert ls == [ls[0]] + ls[1..];
      assert '\n' in LabelText(ls[0]) <==> '\n' in ls[0].name;
      hide LabelText;
      assert |ls| == 1 ==> Joined(ls) == LabelText(ls[0]);
      assert '\n' in Joined(ls) <==> '\n' in LabelText(ls[0]) || '\n' in Joined(ls[1..]);
    }
  }

  lemma {:induction false} ValueUnbroken(s: string)
    ensures '\n' !in EscapeValue(s)
  {
    if |s| > 0 {
      ValueUnbroken(s[1..]);
    }
  }

  // ---- reading the lines ---------------------------------------------------------------

  /** What a scraper takes from a line. */
  datatype Scraped = ScrapedHelp(name: string, help: string) | ScrapedKind(name: string, kind: string)
    | ScrapedValue(name: string, labels: string, value: int)

  /** Cut at the last space. */
  function AtLastSpace(s: string): Option<(string, string)> {
    if |s| == 0 then None
    else if s[|s| - 1] == ' ' then Some((s[..|s| - 1], ""))
    else
      match AtLastSpace(s[..|s| - 1])
      case None => None
      case Some((head, tail)) => Some((head, tail + [s[|s| - 1]]))
  }

  /** A header line by its first word; otherwise a name, labels in braces, and a value
      behind the last space. */
  function Scrape(line: string): Option<Scraped> {
    if "# HELP " <= line then
      var (name, rest) := Until(line[7..], ' ');
      if rest == "" then None else Some(ScrapedHelp(name, rest[1..]))
    else if "# TYPE " <= line then
      var (name, rest) := Until(line[7..], ' ');
      if rest == "" then None else Some(ScrapedKind(name, rest[1..]))
    else
      match AtLastSpace(line)
      case None => None
      case Some((series, value)) =>
        var (name, labels) := Until(series, '{');
        Some(ScrapedValue(name, labels, FromDigits(value)))
  }

  function ScrapeOf(l: TextLine): Scraped {
    match l
    case Help(name, help) => ScrapedHelp(name, help)
    case Kind(name, kind) => ScrapedKind(name, kind)
    case Data(s) => ScrapedValue(s.name, s.labels, s.value)
  }

  /** A metric name: no spaces, braces or comment signs. */
  predicate IsName(s: string) { ' ' !in s && '{' !in s && '#' !in s }

  predicate Legible(l: TextLine) {
    match l
    case Help(name, _) => IsName(name)
    case Kind(name, _) => IsName(name)
    case Data(s) => IsName(s.name) && s.name != "" && (s.labels == "" || s.labels[0] == '{')
  }

  lemma {:induction false} LastSpaceAt(head: string, tail: string)
    requires ' ' !in tail
    ensures AtLastSpace(head + " " + tail) == Some((head, tail))
  {
    var s := head + " " + tail;
    if |tail| == 0 {
      assert s[..|s| - 1] == head;
    } else {
      var init := tail[..|tail| - 1];
      assert s[..|s| - 1] == head + " " + init && s[|s| - 1] == tail[|tail| - 1];
      LastSpaceAt(head, init);
      assert init + [tail[|tail| - 1]] == tail;
    }
  }

  lemma HeaderReads(prefix: string, name: string, text: string)
    requires |prefix| == 7 && ' ' !in name
    ensures prefix <= prefix + name + " " + text
    ensures Until((prefix + name + " " + text)[7..], ' ') == (name, " " + text) && (" " + text)[1..] == text
  {
    assert (prefix + name + " " + text)[7..] == name + (" " + text);
    UntilPrefix(name, " " + text, ' ');
  }

  lemma ValueReads(s: Sample)
    requires Legible(Data(s))
    ensures Scrape(s.name + s.labels + " " + Digits(s.value)) == Some(ScrapedValue(s.name, s.labels, s.value))
  {
    var line := s.name + s.labels + " " + Digits(s.value);
    assert line[0] == s.name[0] && s.name[0] in s.name;
    hide Digits, FromDigits;
    DigitsBare(s.value);
    DigitsRead(s.value);
    LastSpaceAt(s.name + s.labels, Digits(s.value));
    UntilPrefix(s.name, s.labels, '{');
  }

  /** Each line reads back: a header as what it declares, a sample as its name, labels and
      value. */
  lemma LineScrapes(l: TextLine)
    requires Legible(l)
    ensures Scrape(LineBody(l)) == Some(ScrapeOf(l))
  {
    match l
    case Help(name, help) =>
      HeaderReads("# HELP ", name, help);
      assert LineBody(l) == "# HELP " + name + " " + help;
    case Kind(name, kind) =>
      HeaderReads("# TYPE ", name, kind);
      assert LineBody(l) == "# TYPE " + name + " " + kind;
      NotHelp(name, kind);
    case Data(s) =>
      ValueReads(s);
      assert LineBody(l) == s.name + s.labels + " " + Digits(s.value);
  }

  lemma NotHelp(name: string, kind: string)
    ensures !("# HELP " <= "# TYPE " + name + " " + kind)
  {
    var line := "# TYPE " + name + " " + kind;
    assert line[2] == 'T' && "# HELP "[2] == 'H';
  }

  predicate LegibleSample(s: Sample) { Legible(Data(s)) && NoBreaks(s) }

  lemma {:induction false} LinesLegible(samples: seq<Sample>)
    requires forall s | s in samples :: LegibleSample(s)
    ensures forall l | l in LinesOf(samples) :: Legible(l)
  {
    hide Declared;
    if |samples| > 0 {
      var init, s := samples[..|samples| - 1], samples[|samples| - 1];
      LinesLegible(init);
      assert s in samples;
      forall l | l in LinesOf(samples)
        ensures Legible(l)
      {
      }
    }
  }

  /** For every sequence of samples with proper names and labels: a scraper that cuts the
      text at line ends and reads the lines gets every declaration and every sample, in
      order. */
  lemma {:induction false} SamplesAreScraped(samples: seq<Sample>)
    requires forall s | s in samples :: LegibleSample(s)
    ensures var lines, pieces := LinesOf(samples), SplitLines(TextOf(LinesOf(samples)));
      |pieces| == |lines| && forall i | 0 <= i < |lines| :: Scrape(pieces[i]) == Some(ScrapeOf(lines[i]))
  {
    hide HeadersOnce, SplitLines, TextOf, LinesOf, LineBody, Legible, Scrape, Unbroken, NoBreaks;
    ExpositionIsScrapable(samples);
    LinesLegible(samples);
    var lines := LinesOf(samples);
    forall i | 0 <= i < |lines|
      ensures Scrape(Bodies(lines)[i]) == Some(ScrapeOf(lines[i]))
    {
      LineScrapes(lines[i]);
    }
  }

  lemma NoHeaders()
    ensures HeadersOnce([])
  {
  }
}
