/**
 The configuration format of the journal spy: a line ";name" starts a pattern, and the lines
 "FIELD=regexp" that follow belong to it.
 */
module JournalConfig {
  import opened Basics
  import opened JournalSpy

  /* ---- text ---- */

  predicate IsSpace(c: char) {
    c == ' ' || c == '\t' || c == '\n' || c == '\r' || c == '\U{000B}' || c == '\U{000C}'
  }

  function TrimLeft(s: string): string {
    if s != "" && IsSpace(s[0]) then TrimLeft(s[1..]) else s
  }

  function TrimRight(s: string): string {
    if s != "" && IsSpace(s[|s| - 1]) then TrimRight(s[..|s| - 1]) else s
  }

  // QByteArray::trimmed()
  function Trim(s: string): string {
    TrimRight(TrimLeft(s))
  }

  // How much QIODevice::readLine() reads: up to and with the first newline.
  function LineLength(text: string): (n: nat)
    requires text != ""
    ensures 1 <= n <= |text|
  {
    if text[0] == '\n' || |text| == 1 then 1 else 1 + LineLength(text[1..])
  }

  /* ---- the parser on text ---- */

  // `valid` says which regular expressions compile.
  type Validity = string -> bool

  // What a trimmed line says, if it is neither blank nor a comment and has a '='.
  function FieldOf(line: string): Option<(string, string)> {
    var separator := IndexOf(line, '=');
    if line == "" || line[0] == '#' || separator == |line| then None
    else Some((line[..separator], line[separator + 1..]))
  }

  function AddField(rexp: map<string, string>, field: string, regexp: string, valid: Validity): map<string, string> {
    if field in rexp || !valid(regexp) then rexp else rexp[field := regexp]
  }

  // What a trimmed line adds to a pattern: the first valid expression for a field wins.
  function AddLine(rexp: map<string, string>, line: string, valid: Validity): map<string, string> {
    match FieldOf(line)
    case None => rexp
    case Some((field, regexp)) => AddField(rexp, field, regexp, valid)
  }

  // A pattern ends before a line whose very first character is a semicolon.
  function ParsePattern(text: string, rexp: map<string, string>, valid: Validity): (r: (map<string, string>, string))
    ensures |r.1| <= |text|
    decreases |text|
  {
    if text == "" || text[0] == ';' then (rexp, text)
    else
      var n := LineLength(text);
      ParsePattern(text[n..], AddLine(rexp, Trim(text[..n]), valid), valid)
  }

  function NewExpression(name: string, rexp: map<string, string>): seq<Expression> {
    if rexp == map[] then [] else [Expression(name, rexp, 0)]
  }

  function Load(text: string, valid: Validity): seq<Expression>
    decreases |text|
  {
    if text == "" then []
    else
      var n := LineLength(text);
      var line := Trim(text[..n]);
      if line == "" || line[0] != ';' then Load(text[n..], valid)
      else
        var (rexp, rest) := ParsePattern(text[n..], map[], valid);
        NewExpression(line[1..], rexp) + Load(rest, valid)
  }

  // The names of the patterns the parser begins, whether or not it keeps them.
  function Begun(text: string, valid: Validity): seq<string>
    decreases |text|
  {
    if text == "" then []
    else
      var n := LineLength(text);
      var line := Trim(text[..n]);
      if line == "" || line[0] != ';' then Begun(text[n..], valid)
      else [line[1..]] + Begun(ParsePattern(text[n..], map[], valid).1, valid)
  }

  /* ---- the parser as it reads a file ---- */

  class File {
    const data: string
    var pos: nat

    constructor (data: string)
      ensures this.data == data && pos == 0
    {
      this.data, pos := data, 0;
    }

    ghost predicate Valid()
      reads this
    {
      pos <= |data|
    }

    ghost function Rest(): string
      requires Valid()
      reads this
    {
      data[pos..]
    }

    predicate AtEnd()
      requires Valid()
      reads this
      ensures AtEnd() <==> Rest() == ""
    {
      pos == |data|
    }

    method Peek() returns (c: char)
      requires Valid() && !AtEnd()
      ensures c == Rest()[0]
    {
      c := data[pos];
    }

    method ReadLine() returns (line: string)
      requires Valid() && !AtEnd()
      modifies this
      ensures Valid() && pos > old(pos)
      ensures var n := LineLength(old(Rest())); line == old(Rest())[..n] && Rest() == old(Rest())[n..]
    {
      var n := LineLength(data[pos..]);
      line := data[pos..][..n];
      pos := pos + n;
    }
  }

  class ConfigReader {
    var expressions: seq<Expression>

    constructor ()
      ensures expressions == []
    {
      expressions := [];
    }

    method LoadExpressions(file: File, valid: Validity)
      requires file.Valid()
      modifies this, file
      ensures expressions == old(expressions) + Load(old(file.Rest()), valid)
    {
      hide ParsePattern, NewExpression, Trim, LineLength;
      while !file.AtEnd()
        invariant file.Valid()
        invariant expressions + Load(file.Rest(), valid) == old(expressions) + Load(old(file.Rest()), valid)
        decreases |file.data| - file.pos
      {
        var line := file.ReadLine();
        line := Trim(line);
        if line == "" || line[0] != ';' { continue; }
        ReadPattern(line[1..], file, valid);
      }
    }

    method ReadPattern(name: string, file: File, valid: Validity)
      requires file.Valid()
      modifies this, file
      ensures file.Valid() && file.pos >= old(file.pos)
      ensures var (rexp, rest) := ParsePattern(old(file.Rest()), map[], valid);
        expressions == old(expressions) + NewExpression(name, rexp) && file.Rest() == rest
    {
      var rexp := map[];
      while !file.AtEnd()
        invariant file.Valid() && file.pos >= old(file.pos)
        invariant expressions == old(expressions)
        invariant ParsePattern(file.Rest(), rexp, valid) == ParsePattern(old(file.Rest()), map[], valid)
        decreases |file.data| - file.pos
      {
        var nextChar := file.Peek();
        if nextChar == ';' { break; }
        var line := file.ReadLine();
        line := Trim(line);
        if line == "" || line[0] == '#' { continue; }
        var separator := IndexOf(line, '=');
        if separator == |line| { continue; }
        var journalField := line[..separator];
        if journalField in rexp { continue; }
        var pattern := line[separator + 1..];
        if !valid(pattern) { continue; }
        rexp := rexp[journalField := pattern];
      }
      if rexp != map[] {
        expressions := expressions + [Expression(name, rexp, 0)];
      }
    }
  }

  /* ---- documents ---- */

  // A header line and the lines under it.
  datatype Section = Section(header: string, lines: seq<string>)

  function RenderLines(lines: seq<string>): string {
    if lines == [] then "" else lines[0] + "\n" + RenderLines(lines[1..])
  }

  function RenderSections(ss: seq<Section>): string {
    if ss == [] then "" else ss[0].header + "\n" + RenderLines(ss[0].lines) + RenderSections(ss[1..])
  }

  // A line that starts a pattern where none has begun yet; after that, it must not be indented.
  predicate Header(line: string) {
    '\n' !in line && Trim(line) != "" && Trim(line)[0] == ';'
  }

  // A line that starts a pattern anywhere.
  predicate PlainHeader(line: string) {
    line != "" && line[0] == ';'
  }

  predicate Prelude(line: string) {
    '\n' !in line && !Header(line)
  }

  // Any line inside a pattern: a field, a comment, or anything else.
  predicate BodyLine(line: string) {
    '\n' !in line && !PlainHeader(line)
  }

  ghost predicate GoodSections(ss: seq<Section>) {
    forall i :: 0 <= i < |ss| ==>
      && Header(ss[i].header) && (i > 0 ==> PlainHeader(ss[i].header))
      && forall j :: 0 <= j < |ss[i].lines| ==> BodyLine(ss[i].lines[j])
  }

  function NameOf(header: string): string
    requires Header(header)
  {
    Trim(header)[1..]
  }

  function AddLines(rexp: map<string, string>, lines: seq<string>, valid: Validity): map<string, string>
    decreases |lines|
  {
    if lines == [] then rexp else AddLines(AddLine(rexp, Trim(lines[0]), valid), lines[1..], valid)
  }

  ghost function Names(ss: seq<Section>): seq<string>
    requires GoodSections(ss)
  {
    if ss == [] then [] else [NameOf(ss[0].header)] + Names(ss[1..])
  }

  ghost function Meaning(ss: seq<Section>, valid: Validity): seq<Expression>
    requires GoodSections(ss)
  {
    if ss == [] then []
    else NewExpression(NameOf(ss[0].header), AddLines(map[], ss[0].lines, valid)) + Meaning(ss[1..], valid)
  }

  // The first valid regular expression given for a field.
  function FirstValid(lines: seq<string>, field: string, valid: Validity): Option<string> {
    if lines == [] then None
    else
      var said := FieldOf(Trim(lines[0]));
      if said.Some? && said.value.0 == field && valid(said.value.1) then Some(said.value.1)
      else FirstValid(lines[1..], field, valid)
  }

  // A pattern holds, for every field, the first valid expression given for it, and no other field.
  lemma {:induction false} FieldsAreFirstValid(lines: seq<string>, rexp: map<string, string>, field: string, valid: Validity)
    ensures var m, first := AddLines(rexp, lines, valid), FirstValid(lines, field, valid);
      && (field in m <==> field in rexp || first.Some?)
      && (field in m ==> m[field] == if field in rexp then rexp[field] else first.value)
    decreases |lines|
  {
    hide FieldOf, Trim;
    if lines == [] {
    } else {
      FieldsAreFirstValid(lines[1..], AddLine(rexp, Trim(lines[0]), valid), field, valid);
    }
  }

  /* ---- reading back what was written ---- */

  lemma {:induction false} LineLengthOf(line: string, rest: string)
    requires '\n' !in line
    ensures LineLength(line + "\n" + rest) == |line| + 1
    decreases |line|
  {
    var text := line + "\n" + rest;
    if line == "" {
    } else {
      assert text[0] == line[0] && text[1..] == line[1..] + "\n" + rest;
      LineLengthOf(line[1..], rest);
    }
  }

  lemma ReadBack(line: string, rest: string)
    requires '\n' !in line
    ensures var text := line + "\n" + rest;
      text[..LineLength(text)] == line + "\n" && text[LineLength(text)..] == rest
  {
    LineLengthOf(line, rest);
  }

  // Trimming does not see the newline.
  lemma {:induction false} TrimNewline(line: string)
    ensures Trim(line + "\n") == Trim(line)
    decreases |line|
  {
    if line == "" {
      assert "\n"[1..] == "";
      assert TrimLeft("" + "\n") == TrimLeft("");
    } else if IsSpace(line[0]) {
      assert (line + "\n")[1..] == line[1..] + "\n";
      TrimNewline(line[1..]);
    } else {
      assert TrimLeft(line + "\n") == line + "\n" && TrimLeft(line) == line;
      assert (line + "\n")[..|line|] == line;
    }
  }

  lemma {:induction false} BodyRoundTrip(lines: seq<string>, rest: string, rexp: map<string, string>, valid: Validity)
    requires forall i :: 0 <= i < |lines| ==> BodyLine(lines[i])
    requires rest == "" || rest[0] == ';'
    ensures ParsePattern(RenderLines(lines) + rest, rexp, valid) == (AddLines(rexp, lines, valid), rest)
    decreases |lines|
  {
    hide AddLine, Trim, LineLength;
    var text := RenderLines(lines) + rest;
    if lines == [] {
      assert text == rest;
    } else {
      var later := RenderLines(lines[1..]) + rest;
      assert text == lines[0] + "\n" + later;
      assert BodyLine(lines[0]);
      ReadBack(lines[0], later);
      TrimNewline(lines[0]);
      BodyRoundTrip(lines[1..], rest, AddLine(rexp, Trim(lines[0]), valid), valid);
    }
  }

  lemma LaterSections(ss: seq<Section>)
    requires ss != [] && GoodSections(ss)
    ensures GoodSections(ss[1..])
    ensures RenderSections(ss[1..]) == "" || RenderSections(ss[1..])[0] == ';'
  {
    hide Header, BodyLine;
    if |ss| > 1 {
      assert ss[1..][0] == ss[1] && PlainHeader(ss[1].header);
    }
  }

  lemma {:induction false} SectionsRoundTrip(ss: seq<Section>, valid: Validity)
    requires GoodSections(ss)
    ensures Load(RenderSections(ss), valid) == Meaning(ss, valid)
    ensures Begun(RenderSections(ss), valid) == Names(ss)
    decreases |ss|
  {
    hide Trim, LineLength, ParsePattern, AddLines, RenderLines, NewExpression;
    if ss == [] {
    } else {
      var header, later := ss[0].header, RenderSections(ss[1..]);
      var text := RenderSections(ss);
      assert text == header + "\n" + (RenderLines(ss[0].lines) + later);
      LaterSections(ss);
      ReadBack(header, RenderLines(ss[0].lines) + later);
      TrimNewline(header);
      BodyRoundTrip(ss[0].lines, later, map[], valid);
      SectionsRoundTrip(ss[1..], valid);
    }
  }

  // Reading a document gives exactly what its sections say, whatever stands before the first header
  // or between the fields: of several lines for one field the first valid one counts, and a section
  // without any is dropped.
  lemma {:induction false} ConfigRoundTrip(prelude: seq<string>, ss: seq<Section>, valid: Validity)
    requires forall i :: 0 <= i < |prelude| ==> Prelude(prelude[i])
    requires GoodSections(ss)
    ensures Load(RenderLines(prelude) + RenderSections(ss), valid) == Meaning(ss, valid)
    ensures Begun(RenderLines(prelude) + RenderSections(ss), valid) == Names(ss)
    decreases |prelude|
  {
    hide Trim, LineLength, ParsePattern, RenderSections, GoodSections, Meaning, Names;
    var text := RenderLines(prelude) + RenderSections(ss);
    if prelude == [] {
      SectionsRoundTrip(ss, valid);
      assert text == RenderSections(ss);
    } else {
      var rest := RenderLines(prelude[1..]) + RenderSections(ss);
      assert text == prelude[0] + "\n" + rest;
      assert Prelude(prelude[0]);
      ReadBack(prelude[0], rest);
      TrimNewline(prelude[0]);
      ConfigRoundTrip(prelude[1..], ss, valid);
    }
  }

  /* ---- indented headers ---- */

  lemma {:induction false} RenderLinesAppend(a: seq<string>, b: seq<string>)
    ensures RenderLines(a + b) == RenderLines(a) + RenderLines(b)
    decreases |a|
  {
    if a == [] {
      assert a + b == b;
    } else {
      assert (a + b)[0] == a[0] && (a + b)[1..] == a[1..] + b;
      RenderLinesAppend(a[1..], b);
    }
  }

  // Lines written behind the last section belong to it.
  function Extend(ss: seq<Section>, lines: seq<string>): seq<Section>
    requires ss != []
  {
    var last := |ss| - 1;
    ss[last := Section(ss[last].header, ss[last].lines + lines)]
  }

  lemma {:induction false} RenderExtended(ss: seq<Section>, lines: seq<string>)
    requires ss != []
    ensures RenderSections(Extend(ss, lines)) == RenderSections(ss) + RenderLines(lines)
    decreases |ss|
  {
    hide RenderLines;
    RenderLinesAppend(ss[|ss| - 1].lines, lines);
    if |ss| == 1 {
      assert Extend(ss, lines)[1..] == [] && ss[1..] == [];
    } else {
      assert Extend(ss, lines)[1..] == Extend(ss[1..], lines);
      RenderExtended(ss[1..], lines);
    }
  }

  lemma {:induction false} NamesExtended(ss: seq<Section>, lines: seq<string>)
    requires ss != [] && GoodSections(ss)
    requires forall i :: 0 <= i < |lines| ==> BodyLine(lines[i])
    ensures GoodSections(Extend(ss, lines)) && Names(Extend(ss, lines)) == Names(ss)
    decreases |ss|
  {
    hide Header, BodyLine, NameOf;
    if |ss| == 1 {
      assert Extend(ss, lines)[1..] == ss[1..];
    } else {
      assert GoodSections(ss[1..]) by { LaterSections(ss); }
      assert Extend(ss, lines)[1..] == Extend(ss[1..], lines);
      NamesExtended(ss[1..], lines);
    }
  }

  lemma HeaderIsOneLine(line: string)
    requires Header(line)
    ensures '\n' !in line
  {
  }

  // An indented line ";name" starts a pattern exactly if none has begun yet; otherwise it and what
  // follows are lines of the pattern before it.
  lemma IndentedHeader(prelude: seq<string>, ss: seq<Section>, line: string, body: seq<string>, valid: Validity)
    requires forall i :: 0 <= i < |prelude| ==> Prelude(prelude[i])
    requires GoodSections(ss) && Header(line) && !PlainHeader(line)
    requires forall i :: 0 <= i < |body| ==> BodyLine(body[i])
    ensures var text := RenderLines(prelude) + RenderSections(ss) + RenderLines([line] + body);
      var read := if ss == [] then [Section(line, body)] else Extend(ss, [line] + body);
      && GoodSections(read) && Load(text, valid) == Meaning(read, valid)
      && Begun(text, valid) == Names(ss) + if ss == [] then [NameOf(line)] else []
  {
    hide Load, Begun, Meaning, Header, Prelude;
    var lines := [line] + body;
    assert lines[0] == line && lines[1..] == body;
    if ss == [] {
      var read := [Section(line, body)];
      assert RenderSections(read) == RenderLines(lines) by { assert read[1..] == []; }
      assert RenderLines(prelude) + RenderSections(ss) + RenderLines(lines) == RenderLines(prelude) + RenderSections(read);
      assert Names(read) == [NameOf(line)] by { assert read[1..] == []; }
      ConfigRoundTrip(prelude, read, valid);
    } else {
      assert BodyLine(line) by { HeaderIsOneLine(line); }
      NamesExtended(ss, lines);
      RenderExtended(ss, lines);
      assert RenderLines(prelude) + RenderSections(ss) + RenderLines(lines)
          == RenderLines(prelude) + RenderSections(Extend(ss, lines));
      ConfigRoundTrip(prelude, Extend(ss, lines), valid);
    }
  }

  // Inside a pattern such a line is skipped, unless it holds a '=': then it is a field whose name
  // starts with the semicolon.
  lemma IndentedHeaderInside(line: string)
    requires Header(line)
    ensures FieldOf(Trim(line)).Some? <==> '=' in Trim(line)
    ensures FieldOf(Trim(line)).Some? ==> FieldOf(Trim(line)).value.0[..1] == ";"
  {
    hide Trim, IndexOf;
  }

  /* ---- which expressions can be written ---- */

  // Text that trimming leaves as it is at its end.
  predicate TightEnd(s: string) {
    s == "" || !IsSpace(s[|s| - 1])
  }

  predicate ReadableField(field: string, regexp: string) {
    && '\n' !in field && '\n' !in regexp && '=' !in field
    && (field == "" || (!IsSpace(field[0]) && field[0] != '#'))
    && TightEnd(regexp)
  }

  predicate Readable(e: Expression, valid: Validity) {
    && '\n' !in e.name && TightEnd(e.name) && e.lastHit == 0 && e.rexp != map[]
    && forall field <- e.rexp :: ReadableField(field, e.rexp[field]) && valid(e.rexp[field])
  }

  // A field that starts with a semicolon must be indented.
  function FieldText(field: string, regexp: string): string {
    (if field != "" && field[0] == ';' then " " else "") + field + "=" + regexp
  }

  ghost function FieldTexts(rexp: map<string, string>): seq<string>
    decreases |rexp|
  {
    if rexp == map[] then []
    else
      var field :| field in rexp;
      [FieldText(field, rexp[field])] + FieldTexts(rexp - {field})
  }

  ghost function Written(es: seq<Expression>): seq<Section> {
    if es == [] then [] else [Section(";" + es[0].name, FieldTexts(es[0].rexp))] + Written(es[1..])
  }

  lemma TrimTight(s: string)
    requires s == "" || (!IsSpace(s[0]) && !IsSpace(s[|s| - 1]))
    ensures Trim(s) == s
  {
  }

  lemma TrimBlank(s: string)
    ensures Trim(" " + s) == Trim(s)
  {
    assert (" " + s)[1..] == s;
  }

  lemma FieldReadBack(field: string, regexp: string)
    requires ReadableField(field, regexp)
    ensures BodyLine(FieldText(field, regexp))
    ensures FieldOf(Trim(FieldText(field, regexp))) == Some((field, regexp))
  {
    hide IndexOf, Trim;
    var text := field + "=" + regexp;
    assert text[|text| - 1] == if regexp == "" then '=' else regexp[|regexp| - 1];
    assert text[0] == if field == "" then '=' else field[0];
    TrimTight(text);
    TrimBlank(text);
    assert FieldText(field, regexp) == if field != "" && field[0] == ';' then " " + text else text;
    assert text[|field|] == '=';
    assert forall j :: 0 <= j < |field| ==> text[j] == field[j];
    assert IndexOf(text, '=') == |field|;
    assert text[..|field|] == field && text[|field| + 1..] == regexp;
  }

  lemma {:induction false} FieldTextsSay(rexp: map<string, string>, field: string, valid: Validity)
    requires forall f <- rexp :: ReadableField(f, rexp[f]) && valid(rexp[f])
    ensures forall i :: 0 <= i < |FieldTexts(rexp)| ==> BodyLine(FieldTexts(rexp)[i])
    ensures FirstValid(FieldTexts(rexp), field, valid) == if field in rexp then Some(rexp[field]) else None
    decreases |rexp|
  {
    hide ReadableField, FieldText, FieldOf, Trim, BodyLine;
    if rexp == map[] {
    } else {
      var f :| f in rexp && FieldTexts(rexp) == [FieldText(f, rexp[f])] + FieldTexts(rexp - {f});
      FieldReadBack(f, rexp[f]);
      FieldTextsSay(rexp - {f}, field, valid);
      assert FieldTexts(rexp)[1..] == FieldTexts(rexp - {f});
    }
  }

  lemma NameReadBack(name: string)
    requires '\n' !in name && TightEnd(name)
    ensures Header(";" + name) && NameOf(";" + name) == name
  {
    TrimTight(";" + name);
  }

  // A section states an expression: its name, and for every field the first valid regexp.
  ghost predicate States(section: Section, e: Expression, valid: Validity)
    requires Header(section.header)
  {
    && NameOf(section.header) == e.name && e.lastHit == 0 && e.rexp != map[]
    && (forall field :: field in e.rexp <==> FirstValid(section.lines, field, valid).Some?)
    && (forall field :: field in e.rexp ==> FirstValid(section.lines, field, valid) == Some(e.rexp[field]))
  }

  lemma {:induction false} MeaningIsStated(ss: seq<Section>, es: seq<Expression>, valid: Validity)
    requires GoodSections(ss)
    requires |ss| == |es| && forall i :: 0 <= i < |ss| ==> States(ss[i], es[i], valid)
    ensures Meaning(ss, valid) == es
    decreases |ss|
  {
    hide Header, NameOf, FirstValid, BodyLine;
    if ss == [] {
    } else {
      assert States(ss[0], es[0], valid);
      LaterSections(ss);
      var m := AddLines(map[], ss[0].lines, valid);
      forall field ensures field in m <==> field in es[0].rexp {
        FieldsAreFirstValid(ss[0].lines, map[], field, valid);
      }
      forall field | field in m ensures m[field] == es[0].rexp[field] {
        FieldsAreFirstValid(ss[0].lines, map[], field, valid);
      }
      assert m == es[0].rexp;
      MeaningIsStated(ss[1..], es[1..], valid);
      assert es == [es[0]] + es[1..];
    }
  }

  lemma {:induction false} WrittenStates(es: seq<Expression>, valid: Validity)
    requires forall i :: 0 <= i < |es| ==> Readable(es[i], valid)
    ensures |Written(es)| == |es|
    ensures forall i :: 0 <= i < |es| ==> Written(es)[i].header == ";" + es[i].name
    ensures GoodSections(Written(es))
    ensures forall i :: 0 <= i < |es| ==> States(Written(es)[i], es[i], valid)
    decreases |es|
  {
    hide Header, NameOf, FirstValid, BodyLine, TightEnd, ReadableField, FieldTexts;
    if es == [] {
    } else {
      WrittenStates(es[1..], valid);
      var e, ss := es[0], Written(es);
      assert Readable(e, valid);
      NameReadBack(e.name);
      forall field
        ensures FirstValid(FieldTexts(e.rexp), field, valid) == if field in e.rexp then Some(e.rexp[field]) else None
      {
        FieldTextsSay(e.rexp, field, valid);
      }
      FieldTextsSay(e.rexp, "", valid);
      assert ss[0] == Section(";" + e.name, FieldTexts(e.rexp)) && ss[1..] == Written(es[1..]);
      assert States(ss[0], e, valid);
      forall i | 0 < i < |es| ensures ss[i] == Written(es[1..])[i - 1] {}
    }
  }

  // Every list of readable expressions, written down behind any prelude, is read back as that list.
  lemma ExpressionsRoundTrip(prelude: seq<string>, es: seq<Expression>, valid: Validity)
    requires forall i :: 0 <= i < |prelude| ==> Prelude(prelude[i])
    requires forall i :: 0 <= i < |es| ==> Readable(es[i], valid)
    ensures Load(RenderLines(prelude) + RenderSections(Written(es)), valid) == es
  {
    hide Load, Begun, RenderLines, RenderSections, Prelude, Readable, States, Written;
    WrittenStates(es, valid);
    ConfigRoundTrip(prelude, Written(es), valid);
    MeaningIsStated(Written(es), es, valid);
  }

  /* ---- an indented header at two places ---- */

  lemma ShortLines()
    ensures Trim("F=x") == "F=x" && Trim("G=y") == "G=y" && Trim(" ;a") == ";a" && Trim(";b") == ";b"
    ensures FieldOf("F=x") == Some(("F", "x")) && FieldOf("G=y") == Some(("G", "y")) && FieldOf(";a") == None
  {
    hide Trim;
    TrimTight("F=x");
    TrimTight("G=y");
    TrimTight(";a");
    TrimTight(";b");
    TrimBlank(";a");
    assert " " + ";a" == " ;a";
    assert "F=x"[..1] == "F" && "F=x"[2..] == "x" && "F=x"[1] == '=';
    assert "G=y"[..1] == "G" && "G=y"[2..] == "y" && "G=y"[1] == '=';
    assert IndexOf("F=x", '=') == 1 && IndexOf("G=y", '=') == 1;
    assert '=' !in ";a";
  }

  lemma ShortSections(valid: Validity)
    requires valid("x") && valid("y")
    ensures AddLines(map[], ["F=x"], valid) == map["F" := "x"]
    ensures AddLines(map[], ["G=y", " ;a", "F=x"], valid) == map["G" := "y", "F" := "x"]
  {
    hide Trim, FieldOf;
    ShortLines();
    assert ["F=x"][1..] == [] && [" ;a", "F=x"][1..] == ["F=x"] && ["G=y", " ;a", "F=x"][1..] == [" ;a", "F=x"];
    assert AddLines(map["G" := "y"], [" ;a", "F=x"], valid) == AddLines(map["G" := "y"], ["F=x"], valid);
    assert AddLines(map["G" := "y"], ["F=x"], valid) == AddLines(map["G" := "y", "F" := "x"], [], valid);
  }

  lemma OneSection(section: Section, valid: Validity)
    requires Header(section.header)
    requires forall j :: 0 <= j < |section.lines| ==> BodyLine(section.lines[j])
    ensures Load(section.header + "\n" + RenderLines(section.lines), valid)
         == NewExpression(NameOf(section.header), AddLines(map[], section.lines, valid))
  {
    hide Load, Begun, Header, AddLines, NewExpression, NameOf, BodyLine;
    var ss := [section];
    assert ss[1..] == [];
    assert RenderSections(ss) == section.header + "\n" + RenderLines(section.lines);
    SectionsRoundTrip(ss, valid);
    assert Meaning(ss, valid) == NewExpression(NameOf(section.header), AddLines(map[], section.lines, valid)) + [];
  }

  lemma ShortTexts()
    ensures RenderLines(["F=x"]) == "F=x\n" && RenderLines(["G=y", " ;a", "F=x"]) == "G=y\n ;a\nF=x\n"
  {
    assert ["F=x"][1..] == [] && [" ;a", "F=x"][1..] == ["F=x"] && ["G=y", " ;a", "F=x"][1..] == [" ;a", "F=x"];
    assert RenderLines([" ;a", "F=x"]) == " ;a\nF=x\n";
  }

  // The same two lines are a pattern of their own or end up in the pattern before.
  lemma IndentedHeaderAtTwoPlaces(valid: Validity)
    requires valid("x") && valid("y")
    ensures Load(" ;a\nF=x\n", valid) == [Expression("a", map["F" := "x"], 0)]
    ensures Load(";b\nG=y\n ;a\nF=x\n", valid) == [Expression("b", map["G" := "y", "F" := "x"], 0)]
  {
    hide Load, Trim, FieldOf, AddLines, RenderLines;
    ShortLines();
    ShortSections(valid);
    ShortTexts();
    OneSection(Section(" ;a", ["F=x"]), valid);
    assert " ;a" + "\n" + "F=x\n" == " ;a\nF=x\n";
    assert "F" in map["F" := "x"];
    assert NewExpression("a", map["F" := "x"]) == [Expression("a", map["F" := "x"], 0)];
    OneSection(Section(";b", ["G=y", " ;a", "F=x"]), valid);
    assert ";b" + "\n" + "G=y\n ;a\nF=x\n" == ";b\nG=y\n ;a\nF=x\n";
  }

  /* ---- nothing else can be read ---- */

  lemma {:induction false} TrimmedLeft(s: string)
    ensures var t := TrimLeft(s);
      && (t == "" || !IsSpace(t[0])) && (forall c :: c in t ==> c in s)
  {
    if s != "" && IsSpace(s[0]) {
      TrimmedLeft(s[1..]);
    } else {
    }
  }

  lemma {:induction false} TrimmedRight(s: string)
    ensures var t := TrimRight(s);
      && TightEnd(t) && (forall c :: c in t ==> c in s) && t <= s
  {
    if s != "" && IsSpace(s[|s| - 1]) {
      TrimmedRight(s[..|s| - 1]);
    } else {
    }
  }

  lemma Trimmed(s: string)
    ensures var t := Trim(s);
      && (t == "" || !IsSpace(t[0])) && TightEnd(t) && (forall c :: c in t ==> c in s)
  {
    hide TrimLeft, TrimRight, IsSpace;
    TrimmedLeft(s);
    TrimmedRight(TrimLeft(s));
  }

  lemma {:induction false} OneNewline(text: string)
    requires text != ""
    ensures '\n' !in text[..LineLength(text) - 1]
  {
    if text[0] == '\n' || |text| == 1 {
    } else {
      OneNewline(text[1..]);
      var n := LineLength(text);
      assert text[..n - 1] == [text[0]] + text[1..][..n - 2];
    }
  }

  // A line that was read and trimmed.
  predicate CleanLine(line: string) {
    '\n' !in line && TightEnd(line) && (line == "" || !IsSpace(line[0]))
  }

  lemma LinesAreClean(text: string)
    requires text != ""
    ensures CleanLine(Trim(text[..LineLength(text)]))
  {
    hide LineLength, Trim, IsSpace;
    var n := LineLength(text);
    OneNewline(text);
    Trimmed(text[..n]);
    if text[n - 1] == '\n' {
      assert text[..n] == text[..n - 1] + "\n";
      TrimNewline(text[..n - 1]);
      Trimmed(text[..n - 1]);
    } else {
      assert text[..n] == text[..n - 1] + [text[n - 1]];
    }
  }

  lemma CleanField(line: string)
    requires CleanLine(line) && FieldOf(line).Some?
    ensures ReadableField(FieldOf(line).value.0, FieldOf(line).value.1)
  {
    hide IndexOf;
  }

  ghost predicate ReadableFields(rexp: map<string, string>, valid: Validity) {
    forall field <- rexp :: ReadableField(field, rexp[field]) && valid(rexp[field])
  }

  lemma {:induction false} PatternsAreReadable(text: string, rexp: map<string, string>, valid: Validity)
    requires ReadableFields(rexp, valid)
    ensures ReadableFields(ParsePattern(text, rexp, valid).0, valid)
    decreases |text|
  {
    hide ReadableField, FieldOf, Trim, LineLength;
    if text == "" || text[0] == ';' {
    } else {
      var n := LineLength(text);
      var line := Trim(text[..n]);
      LinesAreClean(text);
      if FieldOf(line).Some? { CleanField(line); }
      PatternsAreReadable(text[n..], AddLine(rexp, line, valid), valid);
    }
  }

  lemma {:induction false} LoadedAreReadable(text: string, valid: Validity)
    ensures forall i :: 0 <= i < |Load(text, valid)| ==> Readable(Load(text, valid)[i], valid)
    decreases |text|
  {
    hide ReadableField, ParsePattern, Trim, LineLength;
    if text == "" {
    } else {
      var n := LineLength(text);
      var line := Trim(text[..n]);
      LinesAreClean(text);
      if line == "" || line[0] != ';' {
        LoadedAreReadable(text[n..], valid);
      } else {
        var (rexp, rest) := ParsePattern(text[n..], map[], valid);
        PatternsAreReadable(text[n..], map[], valid);
        LoadedAreReadable(rest, valid);
      }
    }
  }

  // Some file is read as the given list exactly if all its expressions are readable.
  lemma LoadableIff(es: seq<Expression>, valid: Validity)
    ensures (exists text :: Load(text, valid) == es) <==> forall i :: 0 <= i < |es| ==> Readable(es[i], valid)
  {
    hide Load, Readable, Written;
    if forall i :: 0 <= i < |es| ==> Readable(es[i], valid) {
      ExpressionsRoundTrip([], es, valid);
    }
    forall text | Load(text, valid) == es ensures forall i :: 0 <= i < |es| ==> Readable(es[i], valid) {
      LoadedAreReadable(text, valid);
    }
  }

  /* ---- blanks and the last line ---- */

  ghost predicate Blank(pad: string) {
    forall i :: 0 <= i < |pad| ==> pad[i] in " \t\r\n"
  }

  lemma {:induction false} BlankLeft(pad: string, s: string)
    requires Blank(pad)
    ensures TrimLeft(pad + s) == TrimLeft(s)
    decreases |pad|
  {
    if pad == "" {
      assert pad + s == s;
    } else {
      assert pad[0] in " \t\r\n";
      assert (pad + s)[1..] == pad[1..] + s;
      BlankLeft(pad[1..], s);
    }
  }

  lemma {:induction false} BlankRight(s: string, pad: string)
    requires Blank(pad)
    ensures TrimRight(s + pad) == TrimRight(s)
    decreases |pad|
  {
    if pad == "" {
      assert s + pad == s;
    } else {
      assert pad[|pad| - 1] in " \t\r\n";
      assert (s + pad)[..|s + pad| - 1] == s + pad[..|pad| - 1];
      BlankRight(s, pad[..|pad| - 1]);
    }
  }

  // Indentation, trailing blanks and the line ends of other systems make no difference to a line that
  // begins and ends with other characters.
  lemma PaddedLine(before: string, line: string, after: string)
    requires Blank(before) && Blank(after)
    requires line != "" && !IsSpace(line[0]) && !IsSpace(line[|line| - 1])
    ensures Trim(before + line + after) == line
  {
    assert before + line + after == before + (line + after);
    BlankLeft(before, line + after);
    assert TrimLeft(line + after) == line + after;
    BlankRight(line, after);
  }

  lemma {:induction false} LineLengthWithNewline(text: string)
    requires text != ""
    ensures var longer := text + "\n";
      if '\n' in text then LineLength(longer) == LineLength(text) && text[LineLength(text) - 1] == '\n'
      else LineLength(text) == |text| && LineLength(longer) == |text| + 1
    decreases |text|
  {
    var longer := text + "\n";
    if text[0] == '\n' {
    } else if |text| == 1 {
      assert longer[1..] == "\n";
    } else {
      assert longer[1..] == text[1..] + "\n";
      assert '\n' in text <==> '\n' in text[1..];
      LineLengthWithNewline(text[1..]);
    }
  }

  lemma BlankLineAdds(rexp: map<string, string>, valid: Validity)
    ensures Trim("\n") == "" && LineLength("\n") == 1 && AddLine(rexp, Trim("\n"), valid) == rexp
  {
    assert "\n"[1..] == "";
    assert TrimLeft("\n") == "";
  }

  // The first line of a text and what follows it, with and without a newline at the very end.
  lemma FirstLine(text: string)
    requires text != ""
    ensures var n, longer := LineLength(text), text + "\n";
      && Trim(longer[..LineLength(longer)]) == Trim(text[..n])
      && longer[LineLength(longer)..] == if '\n' in text then text[n..] + "\n" else ""
    ensures '\n' !in text ==> text[LineLength(text)..] == ""
  {
    hide LineLength, Trim;
    var n, longer := LineLength(text), text + "\n";
    LineLengthWithNewline(text);
    if '\n' in text {
      assert longer[..n] == text[..n];
    } else {
      assert longer[..n + 1] == text[..n] + "\n";
      TrimNewline(text[..n]);
    }
  }

  lemma {:induction false} PatternFinalNewline(text: string, rexp: map<string, string>, valid: Validity)
    ensures var (read, rest) := ParsePattern(text, rexp, valid);
      ParsePattern(text + "\n", rexp, valid) == (read, if rest == "" then "" else rest + "\n")
    decreases |text|
  {
    hide LineLength, Trim, AddLine;
    var longer := text + "\n";
    BlankLineAdds(rexp, valid);
    if text == "" {
      assert longer == "\n" && "\n"[..1] == "\n" && "\n"[1..] == "";
      assert ParsePattern("", AddLine(rexp, Trim("\n"), valid), valid) == (rexp, "");
    } else if text[0] == ';' {
    } else {
      FirstLine(text);
      var read := AddLine(rexp, Trim(text[..LineLength(text)]), valid);
      PatternFinalNewline(text[LineLength(text)..], read, valid);
      if '\n' !in text { assert ParsePattern("", read, valid) == (read, ""); }
    }
  }

  lemma NothingToRead(valid: Validity)
    ensures ParsePattern("", map[], valid) == (map[], "") && Load("", valid) == []
  {
  }

  // It makes no difference whether the last line of the file ends with a newline.
  lemma {:induction false} FinalNewline(text: string, valid: Validity)
    ensures Load(text + "\n", valid) == Load(text, valid)
    decreases |text|
  {
    hide LineLength, Trim, ParsePattern, NewExpression;
    var longer := text + "\n";
    BlankLineAdds(map[], valid);
    if text == "" {
      assert longer == "\n" && "\n"[..1] == "\n" && "\n"[1..] == "";
    } else {
      FirstLine(text);
      var n := LineLength(text);
      var line := Trim(text[..n]);
      if line == "" || line[0] != ';' {
        FinalNewline(text[n..], valid);
      } else {
        PatternFinalNewline(text[n..], map[], valid);
        var (rexp, rest) := ParsePattern(text[n..], map[], valid);
        FinalNewline(rest, valid);
        NothingToRead(valid);
      }
    }
  }
}
