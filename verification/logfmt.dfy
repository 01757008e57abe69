/** The daemon's log lines: key=value fields with quoting, and a parser for them. */
module LogFmt {
  import opened Words

  /** A field value: text, a flag, or an integer. */
  datatype Value = Text(s: string) | Flag(b: bool) | Number(n: int)

  datatype Field = Field(key: string, value: Value)

  const NUL: char := '\0'

  // ---- rendering --------------------------------------------------------------

  function Digits(n: nat): string {
    if n < 10 then [['0', '1', '2', '3', '4', '5', '6', '7', '8', '9'][n]]
    else Digits(n / 10) + [['0', '1', '2', '3', '4', '5', '6', '7', '8', '9'][n % 10]]
  }

  function Decimal(n: int): string { if n < 0 then "-" + Digits(-n) else Digits(n) }

  /** The text a value stands for. */
  function Meaning(v: Value): string {
    match v
    case Text(s) => s
    case Flag(b) => if b then "true" else "false"
    case Number(n) => Decimal(n)
  }

  predicate IsSpecial(c: char) {
    c == ' ' || c == '\t' || c == '"' || c == '\\' || c == '=' || c == '\n' || c == '\r'
  }

  predicate NeedsQuotes(s: string) { s == "" || exists c | c in s :: IsSpecial(c) }

  function EscapeChar(c: char): string {
    match c
    case '"' => "\\\""
    case '\\' => "\\\\"
    case '\n' => "\\n"
    case '\r' => "\\r"
    case _ => [c]
  }

  function Escape(s: string): string {
    if |s| == 0 then "" else EscapeChar(s[0]) + Escape(s[1..])
  }

  function Shown(v: Value): string {
    if v.Text? && NeedsQuotes(v.s) then "\"" + Escape(v.s) + "\"" else Meaning(v)
  }

  function FieldText(f: Field): string { f.key + "=" + Shown(f.value) }

  /** Fields separated by single spaces. */
  function Line(fields: seq<Field>): string {
    if |fields| == 0 then ""
    else if |fields| == 1 then FieldText(fields[0])
    else FieldText(fields[0]) + " " + Line(fields[1..])
  }

  /** A line with one more field. */
  function Extended(line: string, f: Field): string {
    (if line == "" then "" else line + " ") + FieldText(f)
  }

  /** What `%s` prints of a buffer: up to the first NUL. */
  function CString(s: string): string {
    if |s| == 0 || s[0] == NUL then "" else [s[0]] + CString(s[1..])
  }

  lemma EscapeNone()
    ensures Escape("") == ""
  {
  }

  /** Scan a value for a character that calls for quotes. */
  method HasSpecial(v: string) returns (quote: bool)
    ensures quote <==> v == "" || exists c | c in v :: c in [' ', '\t', '"', '\\', '=', '\n', '\r']
    ensures quote <==> NeedsQuotes(v)
  {
    quote := |v| == 0;
    for i := 0 to |v|
      invariant quote <==> |v| == 0
      invariant forall c | c in v[..i] :: c !in [' ', '\t', '"', '\\', '=', '\n', '\r']
    {
      if v[i] == ' ' || v[i] == '\t' || v[i] == '"' || v[i] == '\\' || v[i] == '=' || v[i] == '\n' || v[i] == '\r' {
        assert v[i] in v;
        SpecialQuotes(v);
        return true;
      }
    }
    assert v[..|v|] == v;
    SpecialQuotes(v);
  }

  /** The characters that call for quotes. */
  lemma SpecialQuotes(v: string)
    ensures NeedsQuotes(v) <==> v == "" || exists c | c in v :: c in [' ', '\t', '"', '\\', '=', '\n', '\r']
  {
    forall c: char
      ensures IsSpecial(c) <==> c in [' ', '\t', '"', '\\', '=', '\n', '\r']
    {
    }
  }

  /** A log statement: fields are appended while the priority is enabled. */
  class Log {
    const enabled: bool
    var buffer: string

    constructor (priority: int, level: int)
      ensures enabled == (priority <= level) && buffer == ""
    {
      enabled := priority <= level;
      buffer := "";
    }

    /** Append text, quoted and escaped when it has to be. */
    method AppendEscaped(v: string)
      modifies this
      ensures buffer == old(buffer) + Shown(Text(v))
    {
      hide Escape, NeedsQuotes;
      var quote := HasSpecial(v);
      if !quote {
        buffer := buffer + v;
        return;
      }
      buffer := buffer + "\"";
      ghost var start := buffer;
      assert v[..0] == "" && Escape("") == "" by { EscapeNone(); }
      for i := 0 to |v|
        invariant buffer == start + Escape(v[..i])
      {
        EscapeSnoc(v[..i], v[i]);
        assert v[..i + 1] == v[..i] + [v[i]];
        buffer := buffer + EscapeChar(v[i]);
      }
      assert v[..|v|] == v;
      buffer := buffer + "\"";
      assert buffer == old(buffer) + ("\"" + Escape(v) + "\"");
    }

    method Append(f: Field)
      modifies this
      ensures buffer == if enabled then Extended(old(buffer), f) else old(buffer)
    {
      hide NeedsQuotes, Escape, Decimal;
      if enabled {
        if buffer != "" {
          buffer := buffer + " ";
        }
        ghost var base := buffer;
        buffer := buffer + f.key;
        buffer := buffer + "=";
        match f.value {
          case Text(s) => AppendEscaped(s);
          case Flag(b) => buffer := buffer + (if b then "true" else "false");
          case Number(n) => buffer := buffer + Decimal(n);
        }
        assert buffer == base + f.key + "=" + Shown(f.value);
        hide Shown;
        assert base + f.key + "=" + Shown(f.value) == base + (f.key + "=" + Shown(f.value));
      }
    }
  }

  /** A whole log statement writes the line of its fields, or nothing. */
  method Statement(priority: int, level: int, fields: seq<Field>) returns (line: string)
    ensures line == if priority <= level then Line(fields) else ""
  {
    assert Line(fields[..0]) == "";
    hide Extended, Line;
    var log := new Log(priority, level);
    for i := 0 to |fields|
      modifies log
      invariant log.buffer == if log.enabled then Line(fields[..i]) else ""
    {
      LineExtended(fields, i);
      log.Append(fields[i]);
    }
    assert fields[..|fields|] == fields;
    line := log.buffer;
  }

  lemma {:induction false} EscapeSnoc(s: string, c: char)
    ensures Escape(s + [c]) == Escape(s) + EscapeChar(c)
  {
    if |s| == 0 {
      assert s + [c] == [c] && Escape([c][1..]) == "";
    } else {
      assert (s + [c])[1..] == s[1..] + [c];
      EscapeSnoc(s[1..], c);
    }
  }

  lemma {:induction false} LineSnoc(fields: seq<Field>, f: Field)
    ensures Line(fields + [f]) == (if fields == [] then "" else Line(fields) + " ") + FieldText(f)
    ensures fields != [] ==> Line(fields) != ""
  {
    hide Shown;
    if |fields| == 0 {
      assert fields + [f] == [f];
    } else {
      assert (fields + [f])[1..] == fields[1..] + [f];
      LineSnoc(fields[1..], f);
      if |fields| == 1 {
        assert fields[1..] == [];
      }
    }
  }

  lemma LineExtended(fields: seq<Field>, i: nat)
    requires i < |fields|
    ensures Line(fields[..i + 1]) == Extended(Line(fields[..i]), fields[i])
  {
    hide FieldText;
    LineSnoc(fields[..i], fields[i]);
    assert fields[..i + 1] == fields[..i] + [fields[i]];
  }

  // ---- parsing ------------------------------------------------------------------

  /** Cut before the first `end`, or at the end of the text. */
  function Until(s: string, end: char): (string, string) {
    if |s| == 0 || s[0] == end then ("", s)
    else
      var (head, rest) := Until(s[1..], end);
      ([s[0]] + head, rest)
  }

  /** Undo the escapes up to the closing quote. */
  function Unquote(s: string): Option<(string, string)> {
    if |s| == 0 then None
    else if s[0] == '"' then Some(("", s[1..]))
    else if s[0] != '\\' then
      match Unquote(s[1..])
      case None => None
      case Some((v, rest)) => Some(([s[0]] + v, rest))
    else if |s| < 2 then None
    else
      var c := match s[1] case 'n' => '\n' case 'r' => '\r' case c => c;
      match Unquote(s[2..])
      case None => None
      case Some((v, rest)) => Some(([c] + v, rest))
  }

  lemma {:induction false} UntilShrinks(s: string, end: char)
    ensures var (head, rest) := Until(s, end); s == head + rest && end !in head && (rest == "" || rest[0] == end)
  {
    if |s| == 0 || s[0] == end {
    } else {
      UntilShrinks(s[1..], end);
    }
  }

  lemma {:induction false} UnquoteShrinks(s: string)
    ensures var r := Unquote(s); r.Some? ==> |r.value.1| < |s|
  {
    if |s| == 0 || s[0] == '"' {
    } else if s[0] != '\\' {
      UnquoteShrinks(s[1..]);
    } else if |s| >= 2 {
      UnquoteShrinks(s[2..]);
    }
  }

  /** One value: quoted, or everything up to a space. */
  function ParseValue(s: string): Option<(string, string)> {
    if |s| > 0 && s[0] == '"' then Unquote(s[1..]) else Some(Until(s, ' '))
  }

  /** One field: a key up to `=`, then a value. */
  function ParseField(s: string): Option<((string, string), string)> {
    var (key, rest) := Until(s, '=');
    if rest == "" then None
    else
      match ParseValue(rest[1..])
      case None => None
      case Some((value, more)) => Some(((key, value), more))
  }

  /** The keys and values of a line, independent of how it was written. */
  function ParseLine(s: string): Option<seq<(string, string)>>
    decreases |s|
  {
    if s == "" then Some([])
    else
      match ParseField(s)
      case None => None
      case Some((field, more)) =>
        FieldShrinks(s);
        if more == "" then Some([field])
        else if more[0] != ' ' || |more| == 1 then None
        else
          match ParseLine(more[1..])
          case None => None
          case Some(fs) => Some([field] + fs)
  }

  lemma FieldShrinks(s: string)
    ensures var r := ParseField(s); r.Some? ==> |r.value.1| < |s| && '=' !in r.value.0.0
  {
    hide Until, ParseValue;
    UntilShrinks(s, '=');
    var (key, rest) := Until(s, '=');
    if rest != "" {
      ValueShrinks(rest[1..]);
    }
  }

  lemma ValueShrinks(s: string)
    ensures var r := ParseValue(s); r.Some? ==> |r.value.1| <= |s|
  {
    if |s| > 0 && s[0] == '"' {
      UnquoteShrinks(s[1..]);
    } else {
      UntilShrinks(s, ' ');
    }
  }

  // ---- the parser inverts the printer ---------------------------------------------

  lemma {:induction false} UntilPrefix(head: string, rest: string, end: char)
    requires end !in head && (rest == "" || rest[0] == end)
    ensures Until(head + rest, end) == (head, rest)
  {
    if |head| == 0 {
      assert head + rest == rest;
    } else {
      assert (head + rest)[1..] == head[1..] + rest && [head[0]] + head[1..] == head;
      UntilPrefix(head[1..], rest, end);
    }
  }

  lemma {:induction false} UnquoteEscape(s: string, rest: string)
    ensures Unquote(Escape(s) + "\"" + rest) == Some((s, rest))
  {
    var t := Escape(s) + "\"" + rest;
    if |s| == 0 {
      assert t == "\"" + rest && t[1..] == rest;
    } else {
      UnquoteEscape(s[1..], rest);
      var e := EscapeChar(s[0]);
      assert t == e + (Escape(s[1..]) + "\"" + rest);
      assert t[|e|..] == Escape(s[1..]) + "\"" + rest;
      assert [s[0]] + s[1..] == s;
    }
  }

  lemma {:induction false} DigitsBare(n: nat)
    ensures Digits(n) != "" && forall c | c in Digits(n) :: '0' <= c <= '9'
  {
    if n < 10 {
      DigitBare(n);
    } else {
      DigitBare(n % 10);
      DigitsBare(n / 10);
    }
  }

  lemma DigitBare(n: nat)
    requires n < 10
    ensures '0' <= ['0', '1', '2', '3', '4', '5', '6', '7', '8', '9'][n] <= '9'
  {
  }

  lemma NotSpecial(s: string)
    requires !NeedsQuotes(s)
    ensures s != "" && forall c | c in s :: !IsSpecial(c)
  {
  }

  /** A value shown without quotes is not empty and holds no space and no quote. */
  lemma BareValue(v: Value)
    requires !(v.Text? && NeedsQuotes(v.s))
    ensures Shown(v) == Meaning(v) != "" && ' ' !in Meaning(v) && '"' !in Meaning(v)
  {
    hide NeedsQuotes, Digits;
    match v
    case Text(s) => NotSpecial(s);
    case Flag(b) =>
    case Number(n) => DigitsBare(if n < 0 then -n else n);
  }

  lemma ValueRoundTrip(v: Value, rest: string)
    requires rest == "" || rest[0] == ' '
    ensures ParseValue(Shown(v) + rest) == Some((Meaning(v), rest))
  {
    hide Unquote, Until, Escape, NeedsQuotes, Digits;
    if v.Text? && NeedsQuotes(v.s) {
      UnquoteEscape(v.s, rest);
      var tail := Escape(v.s) + "\"" + rest;
      assert Shown(v) + rest == "\"" + tail;
      assert ("\"" + tail)[1..] == tail;
    } else {
      BareValue(v);
      hide Meaning, Shown;
      assert (Meaning(v) + rest)[0] == Meaning(v)[0];
      UntilPrefix(Meaning(v), rest, ' ');
    }
  }

  function Meanings(fields: seq<Field>): (ms: seq<(string, string)>)
    ensures |ms| == |fields|
  {
    seq(|fields|, i requires 0 <= i < |fields| => (fields[i].key, Meaning(fields[i].value)))
  }

  predicate PlainKeys(fields: seq<Field>) {
    forall f | f in fields :: '=' !in f.key
  }

  /** Parsing one field, with what follows it. */
  lemma FieldRoundTrip(f: Field, rest: string)
    requires '=' !in f.key && (rest == "" || rest[0] == ' ')
    ensures ParseField(FieldText(f) + rest) == Some(((f.key, Meaning(f.value)), rest))
  {
    hide Shown, Meaning, ParseValue, Until;
    var tail := "=" + (Shown(f.value) + rest);
    assert FieldText(f) + rest == f.key + tail;
    UntilPrefix(f.key, tail, '=');
    assert tail[1..] == Shown(f.value) + rest;
    ValueRoundTrip(f.value, rest);
  }

  /** A line is its first field, and the line of the others behind a space. */
  lemma LineParts(fields: seq<Field>)
    requires |fields| > 0
    ensures fields[1..] == [] ==> Line(fields) == FieldText(fields[0]) + ""
    ensures fields[1..] != [] ==> Line(fields) == FieldText(fields[0]) + (" " + Line(fields[1..])) && Line(fields[1..]) != ""
    ensures FieldText(fields[0]) != ""
  {
    hide Shown;
    LineSnoc(fields[1..], fields[0]);
  }

  /** Parsing goes on behind the first field's space. */
  lemma ParseStep(s: string, field: (string, string), more: string)
    requires s != "" && ParseField(s) == Some((field, more))
    ensures more == "" ==> ParseLine(s) == Some([field])
    ensures |more| > 1 && more[0] == ' ' ==>
      ParseLine(s) == match ParseLine(more[1..]) case None => None case Some(fs) => Some([field] + fs)
  {
    hide ParseField;
  }

  lemma MeaningParts(fields: seq<Field>)
    requires |fields| > 0
    ensures Meanings(fields) == [(fields[0].key, Meaning(fields[0].value))] + Meanings(fields[1..])
  {
    hide Meaning;
  }

  lemma {:induction false} LineParses(fields: seq<Field>)
    requires PlainKeys(fields)
    ensures ParseLine(Line(fields)) == Some(Meanings(fields))
  {
    if |fields| == 0 {
    } else {
      hide Meaning, Meanings, ParseField, FieldText, Line, ParseLine;
      var f, later := fields[0], fields[1..];
      LineParses(later);
      LineParts(fields);
      MeaningParts(fields);
      var rest := if later == [] then "" else " " + Line(later);
      FieldRoundTrip(f, rest);
      ParseStep(Line(fields), (f.key, Meaning(f.value)), rest);
      if later == [] {
        NoMeanings();
        assert Meanings(fields) == [(f.key, Meaning(f.value))];
      } else {
        assert |rest| > 1 && rest[0] == ' ' && rest[1..] == Line(later);
      }
    }
  }

  lemma NoMeanings()
    ensures Meanings([]) == []
  {
  }

  lemma {:induction false} ParsedKeys(s: string)
    ensures var r := ParseLine(s); r.Some? ==> forall p | p in r.value :: '=' !in p.0
    decreases |s|
  {
    hide ParseField;
    if s != "" {
      FieldShrinks(s);
      var r := ParseField(s);
      if r.Some? && |r.value.1| > 1 {
        ParsedKeys(r.value.1[1..]);
      }
    }
  }

  /** The number a string of decimal digits denotes. */
  function FromDigits(s: string): int {
    if |s| == 0 then 0 else 10 * FromDigits(s[..|s| - 1]) + (s[|s| - 1] as int - '0' as int)
  }

  function FromDecimal(s: string): int {
    if |s| > 0 && s[0] == '-' then -FromDigits(s[1..]) else FromDigits(s)
  }

  lemma {:induction false} DigitsRead(n: nat)
    ensures FromDigits(Digits(n)) == n
    ensures |Digits(n)| > 0 && (|Digits(n)| > 1 ==> Digits(n)[0] != '0')
  {
    if n < 10 {
      assert Digits(n)[..0] == "";
      DigitReads(n);
    } else {
      DigitsRead(n / 10);
      DigitReads(n % 10);
      assert Digits(n)[..|Digits(n)| - 1] == Digits(n / 10);
      if |Digits(n / 10)| == 1 {
        assert FromDigits(Digits(n / 10)[..0]) == 0;
      }
    }
  }

  lemma DigitReads(n: nat)
    requires n < 10
    ensures ['0', '1', '2', '3', '4', '5', '6', '7', '8', '9'][n] as int - '0' as int == n
  {
  }

  /** What a reader takes a field's text for: the text itself, a flag's name, a number in
      decimal. */
  predicate Says(text: string, v: Value) {
    match v
    case Text(s) => text == s
    case Flag(b) => text == if b then "true" else "false"
    case Number(n) => FromDecimal(text) == n
  }

  lemma MeaningSays(v: Value)
    ensures Says(Meaning(v), v)
  {
    if v.Number? {
      hide Digits, FromDigits;
      var m: nat := if v.n < 0 then -v.n else v.n;
      DigitsRead(m);
      DigitsBare(m);
      assert Digits(m)[0] in Digits(m);
      assert ("-" + Digits(m))[1..] == Digits(m);
    }
  }

  /** Parsing a log line recovers its fields, whatever their values, exactly when no
      key contains `=`; and what it recovers says the values. */
  lemma LineRoundTrip(fields: seq<Field>)
    ensures ParseLine(Line(fields)) == Some(Meanings(fields)) <==> PlainKeys(fields)
    ensures forall i | 0 <= i < |fields| ::
      Meanings(fields)[i].0 == fields[i].key && Says(Meanings(fields)[i].1, fields[i].value)
  {
    forall i | 0 <= i < |fields|
      ensures Says(Meanings(fields)[i].1, fields[i].value)
    {
      MeaningSays(fields[i].value);
    }
    hide Says;
    if PlainKeys(fields) {
      LineParses(fields);
    } else {
      var f :| f in fields && '=' in f.key;
      var i :| 0 <= i < |fields| && fields[i] == f;
      assert Meanings(fields)[i].0 == f.key;
      ParsedKeys(Line(fields));
    }
  }

  predicate OneLine(s: string) { '\n' !in s && '\r' !in s }

  lemma {:induction false} EscapeOneLine(s: string)
    ensures OneLine(Escape(s)) && (NUL in Escape(s) <==> NUL in s)
  {
    if |s| == 0 {
    } else {
      EscapeOneLine(s[1..]);
      assert s == [s[0]] + s[1..];
    }
  }

  lemma ShownOneLine(v: Value)
    ensures OneLine(Shown(v)) && (NUL in Shown(v) <==> v.Text? && NUL in v.s)
  {
    hide Escape, NeedsQuotes, Digits;
    match v
    case Text(s) =>
      EscapeOneLine(s);
      if !NeedsQuotes(s) {
        NotSpecial(s);
      }
    case Flag(b) =>
    case Number(n) => DigitsBare(if n < 0 then -n else n);
  }

  /** A line holds a line break exactly if a key does, and a NUL exactly if a key or
      a text value does. */
  lemma {:induction false} LineContents(fields: seq<Field>)
    ensures OneLine(Line(fields)) <==> forall f | f in fields :: OneLine(f.key)
    ensures NUL in Line(fields) <==> exists f | f in fields :: NUL in f.key || (f.value.Text? && NUL in f.value.s)
  {
    hide Shown;
    if |fields| == 0 {
    } else {
      LineContents(fields[1..]);
      ShownOneLine(fields[0].value);
      assert fields == [fields[0]] + fields[1..];
      if |fields| == 1 {
        assert Line(fields) == fields[0].key + "=" + Shown(fields[0].value);
      }
    }
  }

  lemma {:induction false} CStringWhole(s: string)
    ensures CString(s) == s <==> NUL !in s
  {
    if |s| == 0 {
    } else {
      CStringWhole(s[1..]);
      assert s == [s[0]] + s[1..];
    }
  }

  /** The line reaches syslog whole exactly when no key or text value has a NUL. */
  lemma SyslogGetsWholeLine(fields: seq<Field>)
    ensures CString(Line(fields)) == Line(fields) <==>
      forall f | f in fields :: NUL !in f.key && (f.value.Text? ==> NUL !in f.value.s)
  {
    LineContents(fields);
    CStringWhole(Line(fields));
  }
}
