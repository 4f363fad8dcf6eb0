/** The leads export, and a reader for the format of section 2 of RFC 4180 with LF line breaks. */
module CsvExport {
  import opened Options

  /** One exported line: the columns in their order, dates and scores already as text. */
  datatype Lead = Lead(
    companyName: Option<string>, cui: Option<string>, email: Option<string>, phone: Option<string>,
    state: Option<string>, channel: Option<string>, lastContact: Option<string>,
    sentiment: Option<string>, created: Option<string>)

  const HEADER: seq<string> :=
    ["Company Name", "CUI", "Email", "Phone", "State", "Channel", "Last Contact", "Sentiment", "Created"]

  function Columns(lead: Lead): seq<Option<string>> {
    [lead.companyName, lead.cui, lead.email, lead.phone, lead.state, lead.channel, lead.lastContact,
     lead.sentiment, lead.created]
  }

  /** What a reader should see: a missing value reads as the empty text. */
  function Texts(columns: seq<Option<string>>): seq<string> {
    seq(|columns|, i requires 0 <= i < |columns| => columns[i].GetOr(""))
  }

  // ---------------------------------------------------------------- writing

  predicate IsSpecial(c: char) {
    c == '"' || c == ',' || c == '\n' || c == '\r'
  }

  predicate NeedsQuotes(v: string) {
    exists i | 0 <= i < |v| :: IsSpecial(v[i])
  }

  function Doubled(v: string): string {
    if v == "" then "" else (if v[0] == '"' then "\"\"" else [v[0]]) + Doubled(v[1..])
  }

  function CsvEscape(value: Option<string>): string {
    if value.None? then ""
    else if NeedsQuotes(value.value) then "\"" + Doubled(value.value) + "\""
    else value.value
  }

  function Joined(parts: seq<string>, separator: char): string {
    if parts == [] then ""
    else if |parts| == 1 then parts[0]
    else parts[0] + [separator] + Joined(parts[1..], separator)
  }

  function Line(columns: seq<Option<string>>): string {
    Joined(seq(|columns|, i requires 0 <= i < |columns| => CsvEscape(columns[i])), ',')
  }

  function Lines(leads: seq<Lead>): seq<string> {
    [Joined(HEADER, ',')] + seq(|leads|, i requires 0 <= i < |leads| => Line(Columns(leads[i])))
  }

  // ---------------------------------------------------------------- reading

  datatype Parsed<T> = Malformed | Parsed(value: T, rest: string)

  /** `TEXTDATA`. */
  predicate IsTextData(c: char) {
    c !in {'"', ',', '\r', '\n'}
  }

  /** `non-escaped = *TEXTDATA`: everything up to the next comma or line break. */
  function ParsePlain(s: string): Parsed<string> {
    if s == "" || s[0] == ',' || s[0] == '\n' then Parsed("", s)
    else if !IsTextData(s[0]) then Malformed
    else match ParsePlain(s[1..])
      case Malformed => Malformed
      case Parsed(value, rest) => Parsed([s[0]] + value, rest)
  }

  /** What follows the opening quote of an `escaped` field. */
  function ParseQuoted(s: string): Parsed<string> {
    if s == "" then Malformed
    else if s[0] == '"' && !(|s| > 1 && s[1] == '"') then Parsed("", s[1..])
    else match ParseQuoted(if s[0] == '"' then s[2..] else s[1..])
      case Malformed => Malformed
      case Parsed(value, rest) => Parsed([s[0]] + value, rest)
  }

  function ParseField(s: string): Parsed<string> {
    if s != "" && s[0] == '"' then ParseQuoted(s[1..]) else ParsePlain(s)
  }

  lemma FieldShortens(s: string)
    ensures ParsePlain(s).Parsed? ==> |ParsePlain(s).rest| <= |s|
    ensures ParseQuoted(s).Parsed? ==> |ParseQuoted(s).rest| <= |s|
    decreases |s|
  {
    if |s| > 0 {
      FieldShortens(s[1..]);
      if |s| > 1 {
        FieldShortens(s[2..]);
      }
    }
  }

  function ParseRecord(s: string): Parsed<seq<string>>
    decreases |s|
  {
    FieldShortens(s);
    FieldShortens(if s == "" then s else s[1..]);
    match ParseField(s)
    case Malformed => Malformed
    case Parsed(field, rest) =>
      if rest == "" || rest[0] != ',' then Parsed([field], rest)
      else match ParseRecord(rest[1..])
        case Malformed => Malformed
        case Parsed(fields, after) => Parsed([field] + fields, after)
  }

  lemma RecordShortens(s: string)
    ensures ParseRecord(s).Parsed? ==> |ParseRecord(s).rest| <= |s|
    decreases |s|
  {
    FieldShortens(s);
    FieldShortens(if s == "" then s else s[1..]);
    var field := ParseField(s);
    if field.Parsed? && field.rest != "" && field.rest[0] == ',' {
      RecordShortens(field.rest[1..]);
    }
  }

  /** A file: records, each ended by a line break, the last one optional. */
  function ParseFile(s: string): Option<seq<seq<string>>>
    decreases |s|
  {
    if s == "" then Some([])
    else
      RecordShortens(s);
      match ParseRecord(s)
      case Malformed => None
      case Parsed(fields, rest) =>
        if rest == "" then Some([fields])
        else if rest[0] != '\n' then None
        else match ParseFile(rest[1..])
          case None => None
          case Some(records) => Some([fields] + records)
  }

  // ---------------------------------------------------------------- reading back what was written

  predicate EndsField(rest: string) {
    rest == "" || rest[0] == ',' || rest[0] == '\n'
  }

  lemma {:induction false} PlainReadsBack(v: string, rest: string)
    requires !NeedsQuotes(v) && EndsField(rest)
    ensures ParsePlain(v + rest) == Parsed(v, rest)
  {
    if v == "" {
      assert v + rest == rest;
    } else {
      assert IsSpecial(v[0]) ==> NeedsQuotes(v);
      assert (v + rest)[0] == v[0] && (v + rest)[1..] == v[1..] + rest;
      forall i | 0 <= i < |v[1..]| ensures !IsSpecial(v[1..][i]) {
        assert v[1..][i] == v[i + 1];
      }
      PlainReadsBack(v[1..], rest);
      assert [v[0]] + v[1..] == v;
    }
  }

  lemma {:induction false} QuotedReadsBack(v: string, rest: string)
    requires EndsField(rest)
    ensures ParseQuoted(Doubled(v) + "\"" + rest) == Parsed(v, rest)
  {
    var text := Doubled(v) + "\"" + rest;
    if v == "" {
      assert text == "\"" + rest && text[1..] == rest;
    } else {
      var tail := Doubled(v[1..]) + "\"" + rest;
      if v[0] == '"' {
        assert text == "\"\"" + tail && text[2..] == tail;
      } else {
        assert text == [v[0]] + tail && text[1..] == tail;
      }
      QuotedReadsBack(v[1..], rest);
      assert [v[0]] + v[1..] == v;
    }
  }

  lemma QuotedFieldReadsBack(v: string, rest: string)
    requires EndsField(rest)
    ensures ParseField("\"" + Doubled(v) + "\"" + rest) == Parsed(v, rest)
  {
    var text := "\"" + Doubled(v) + "\"" + rest;
    assert text[1..] == Doubled(v) + "\"" + rest;
    QuotedReadsBack(v, rest);
  }

  lemma PlainFieldReadsBack(v: string, rest: string)
    requires !NeedsQuotes(v) && EndsField(rest)
    ensures ParseField(v + rest) == Parsed(v, rest)
  {
    if v != "" {
      assert (v + rest)[0] == v[0];
      assert IsSpecial(v[0]) ==> NeedsQuotes(v);
    }
    PlainReadsBack(v, rest);
  }

  lemma FieldReadsBack(value: Option<string>, rest: string)
    requires EndsField(rest)
    ensures ParseField(CsvEscape(value) + rest) == Parsed(value.GetOr(""), rest)
  {
    var v := value.GetOr("");
    if NeedsQuotes(v) {
      assert CsvEscape(value) == "\"" + Doubled(v) + "\"";
      QuotedFieldReadsBack(v, rest);
    } else {
      PlainFieldReadsBack(v, rest);
    }
  }

  lemma LineUnfolds(columns: seq<Option<string>>)
    requires columns != []
    ensures Line(columns)
         == if |columns| == 1 then CsvEscape(columns[0]) else CsvEscape(columns[0]) + "," + Line(columns[1..])
  {
    var escaped := seq(|columns|, i requires 0 <= i < |columns| => CsvEscape(columns[i]));
    assert escaped[1..] == seq(|columns[1..]|, i requires 0 <= i < |columns[1..]| => CsvEscape(columns[1..][i]));
  }

  lemma RecordStep(s: string, field: string, after: string)
    requires ParseField(s) == Parsed(field, after)
    ensures after == "" || after[0] != ',' ==> ParseRecord(s) == Parsed([field], after)
    ensures after != "" && after[0] == ',' && ParseRecord(after[1..]).Parsed? ==>
      ParseRecord(s) == Parsed([field] + ParseRecord(after[1..]).value, ParseRecord(after[1..]).rest)
  {
  }

  lemma {:induction false} LineReadsBack(columns: seq<Option<string>>, rest: string)
    requires columns != [] && (rest == "" || rest[0] == '\n')
    ensures ParseRecord(Line(columns) + rest) == Parsed(Texts(columns), rest)
  {
    LineUnfolds(columns);
    if |columns| == 1 {
      assert Texts(columns) == [columns[0].GetOr("")];
      FieldReadsBack(columns[0], rest);
      RecordStep(Line(columns) + rest, columns[0].GetOr(""), rest);
    } else {
      LineReadsBack(columns[1..], rest);
      LongerLineReadsBack(columns, rest);
    }
  }

  lemma TextsUnfold(columns: seq<Option<string>>)
    requires columns != []
    ensures Texts(columns) == [columns[0].GetOr("")] + Texts(columns[1..])
  {
  }

  lemma LongerLineReadsBack(columns: seq<Option<string>>, rest: string)
    requires |columns| > 1 && ParseRecord(Line(columns[1..]) + rest) == Parsed(Texts(columns[1..]), rest)
    ensures ParseRecord(Line(columns) + rest) == Parsed(Texts(columns), rest)
  {
    LineUnfolds(columns);
    TextsUnfold(columns);
    JoinedLine(CsvEscape(columns[0]), Line(columns[1..]), rest);
    CommaStep(columns[0], Line(columns) + rest, Line(columns[1..]) + rest, Texts(columns[1..]), rest);
  }

  lemma JoinedLine(field: string, line: string, rest: string)
    ensures field + "," + line + rest == field + "," + (line + rest)
  {
  }

  lemma CommaStep(column: Option<string>, text: string, next: string, fields: seq<string>, rest: string)
    requires text == CsvEscape(column) + "," + next && ParseRecord(next) == Parsed(fields, rest)
    ensures ParseRecord(text) == Parsed([column.GetOr("")] + fields, rest)
  {
    var after := "," + next;
    assert text == CsvEscape(column) + after && after[1..] == next;
    FieldReadsBack(column, after);
    RecordStep(text, column.GetOr(""), after);
  }

  /** The lines after the header, each with its break. */
  function Body(leads: seq<Lead>): string {
    if leads == [] then "" else Line(Columns(leads[0])) + "\n" + Body(leads[1..])
  }

  function Records(leads: seq<Lead>): seq<seq<string>> {
    seq(|leads|, i requires 0 <= i < |leads| => Texts(Columns(leads[i])))
  }

  lemma FileStep(s: string, fields: seq<string>, rest: string)
    requires s != "" && ParseRecord(s) == Parsed(fields, rest)
    requires rest != "" && rest[0] == '\n' && ParseFile(rest[1..]).Some?
    ensures ParseFile(s) == Some([fields] + ParseFile(rest[1..]).value)
  {
  }

  /** A written line in front of a file reads as one more record in front of the file's. */
  lemma LineAndBody(columns: seq<Option<string>>, body: string, text: string)
    requires columns != [] && text == Line(columns) + "\n" + body && ParseFile(body).Some?
    ensures ParseFile(text) == Some([Texts(columns)] + ParseFile(body).value)
  {
    var rest := "\n" + body;
    assert text == Line(columns) + rest && rest[1..] == body;
    LineReadsBack(columns, rest);
    FileStep(text, Texts(columns), rest);
  }

  lemma {:induction false} BodyReadsBack(leads: seq<Lead>)
    ensures ParseFile(Body(leads)) == Some(Records(leads))
  {
    if leads == [] {
      assert Records(leads) == [];
    } else {
      BodyReadsBack(leads[1..]);
      LineAndBody(Columns(leads[0]), Body(leads[1..]), Body(leads));
      RecordsUnfold(leads);
    }
  }

  lemma RecordsUnfold(leads: seq<Lead>)
    requires leads != []
    ensures Records(leads) == [Texts(Columns(leads[0]))] + Records(leads[1..])
  {
  }

  lemma HeaderIsPlain(i: nat)
    requires i < |HEADER|
    ensures !NeedsQuotes(HEADER[i])
  {
  }

  lemma HeaderIsALine()
    ensures Joined(HEADER, ',') == Line(HeaderColumns()) && Texts(HeaderColumns()) == HEADER
  {
    var columns := HeaderColumns();
    forall i | 0 <= i < |HEADER| ensures CsvEscape(columns[i]) == HEADER[i] {
      HeaderIsPlain(i);
    }
    assert seq(|columns|, i requires 0 <= i < |columns| => CsvEscape(columns[i])) == HEADER;
  }

  function HeaderColumns(): seq<Option<string>> {
    seq(|HEADER|, i requires 0 <= i < |HEADER| => Some(HEADER[i]))
  }

  lemma ExportReadsBack(leads: seq<Lead>)
    ensures ParseFile(Joined(HEADER, ',') + "\n" + Body(leads)) == Some([HEADER] + Records(leads))
  {
    HeaderIsALine();
    BodyReadsBack(leads);
    LineAndBody(HeaderColumns(), Body(leads), Joined(HEADER, ',') + "\n" + Body(leads));
  }

  lemma {:induction false} BreaksEndLines(lines: seq<string>, leads: seq<Lead>)
    requires lines == Lines(leads)
    ensures Joined(lines, '\n') + "\n" == Joined(HEADER, ',') + "\n" + Body(leads)
    decreases |leads|
  {
    if leads == [] {
      assert lines == [Joined(HEADER, ',')];
    } else {
      BreaksEndBody(lines[1..], leads);
    }
  }

  lemma {:induction false} BreaksEndBody(lines: seq<string>, leads: seq<Lead>)
    requires leads != [] && |lines| == |leads|
    requires forall i | 0 <= i < |leads| :: lines[i] == Line(Columns(leads[i]))
    ensures Joined(lines, '\n') + "\n" == Body(leads)
  {
    if |leads| > 1 {
      BreaksEndBody(lines[1..], leads[1..]);
    } else {
      assert Body(leads[1..]) == "";
    }
  }

  /** The export handler. Reading its text back gives the header and every lead, whatever quotes, commas
      and line breaks the fields hold. */
  lemma AllLines(lines: seq<string>, leads: seq<Lead>)
    requires |lines| == |leads| + 1 && lines[0] == Joined(HEADER, ',')
    requires forall k | 0 <= k < |leads| :: lines[k + 1] == Line(Columns(leads[k]))
    ensures lines == Lines(leads)
  {
  }

  /** Who reads the export finds each lead's fields in its own line, each under its own name. */
  lemma FieldsStandUnderTheirNames(leads: seq<Lead>, i: nat, table: seq<seq<string>>)
    requires i < |leads| && table == [HEADER] + Records(leads)
    ensures |table| == |leads| + 1 && |table[0]| == 9 && |table[i + 1]| == 9
    ensures table[0][0] == "Company Name" && table[i + 1][0] == leads[i].companyName.GetOr("")
    ensures table[0][1] == "CUI" && table[i + 1][1] == leads[i].cui.GetOr("")
    ensures table[0][2] == "Email" && table[i + 1][2] == leads[i].email.GetOr("")
    ensures table[0][3] == "Phone" && table[i + 1][3] == leads[i].phone.GetOr("")
    ensures table[0][4] == "State" && table[i + 1][4] == leads[i].state.GetOr("")
    ensures table[0][5] == "Channel" && table[i + 1][5] == leads[i].channel.GetOr("")
    ensures table[0][6] == "Last Contact" && table[i + 1][6] == leads[i].lastContact.GetOr("")
    ensures table[0][7] == "Sentiment" && table[i + 1][7] == leads[i].sentiment.GetOr("")
    ensures table[0][8] == "Created" && table[i + 1][8] == leads[i].created.GetOr("")
  {
    var columns := Columns(leads[i]);
    assert table[i + 1] == Records(leads)[i] == Texts(columns) && |columns| == 9;
    assert forall k | 0 <= k < 9 :: Texts(columns)[k] == columns[k].GetOr("");
    assert columns[0] == leads[i].companyName && columns[1] == leads[i].cui && columns[2] == leads[i].email;
    assert columns[3] == leads[i].phone && columns[4] == leads[i].state && columns[5] == leads[i].channel;
    assert columns[6] == leads[i].lastContact && columns[7] == leads[i].sentiment && columns[8] == leads[i].created;
  }

  method ExportLeads(leads: seq<Lead>) returns (csv: string)
    ensures csv == Joined(Lines(leads), '\n') + "\n"
    ensures ParseFile(csv) == Some([HEADER] + Records(leads))
  {
    var lines := [Joined(HEADER, ',')];
    for i := 0 to |leads|
      invariant |lines| == i + 1 && lines[0] == Joined(HEADER, ',')
      invariant forall k | 0 <= k < i :: lines[k + 1] == Line(Columns(leads[k]))
    {
      var r := leads[i];
      lines := lines + [Joined(
        [CsvEscape(r.companyName), CsvEscape(r.cui), CsvEscape(r.email), CsvEscape(r.phone), CsvEscape(r.state),
         CsvEscape(r.channel), CsvEscape(r.lastContact), CsvEscape(r.sentiment), CsvEscape(r.created)], ',')];
      EscapedColumns(r);
    }
    AllLines(lines, leads);
    csv := Joined(lines, '\n') + "\n";
    BreaksEndLines(lines, leads);
    ExportReadsBack(leads);
  }

  lemma EscapedColumns(r: Lead)
    ensures Line(Columns(r)) == Joined(
        [CsvEscape(r.companyName), CsvEscape(r.cui), CsvEscape(r.email), CsvEscape(r.phone), CsvEscape(r.state),
         CsvEscape(r.channel), CsvEscape(r.lastContact), CsvEscape(r.sentiment), CsvEscape(r.created)], ',')
  {
    var columns := Columns(r);
    assert seq(|columns|, i requires 0 <= i < |columns| => CsvEscape(columns[i])) ==
        [CsvEscape(r.companyName), CsvEscape(r.cui), CsvEscape(r.email), CsvEscape(r.phone), CsvEscape(r.state),
         CsvEscape(r.channel), CsvEscape(r.lastContact), CsvEscape(r.sentiment), CsvEscape(r.created)];
  }

  /** Two exports are the same text only if every field reads the same: nothing is confused or dropped. */
  lemma ExportsTellLeadsApart(a: seq<Lead>, b: seq<Lead>)
    ensures Joined(Lines(a), '\n') == Joined(Lines(b), '\n') <==> Records(a) == Records(b)
  {
    BreaksEndLines(Lines(a), a);
    BreaksEndLines(Lines(b), b);
    ExportReadsBack(a);
    ExportReadsBack(b);
    if Joined(Lines(a), '\n') == Joined(Lines(b), '\n') {
      assert ([HEADER] + Records(a))[1..] == Records(a) && ([HEADER] + Records(b))[1..] == Records(b);
    }
    if Records(a) == Records(b) {
      SameRecordsSameBody(a, b);
      var x, y := Joined(Lines(a), '\n'), Joined(Lines(b), '\n');
      assert (x + "\n")[..|x|] == x && (y + "\n")[..|y|] == y;
    }
  }

  lemma {:induction false} SameRecordsSameBody(a: seq<Lead>, b: seq<Lead>)
    requires Records(a) == Records(b)
    ensures Body(a) == Body(b)
  {
    assert |a| == |Records(a)| && |b| == |Records(b)|;
    if a != [] {
      assert Texts(Columns(a[0])) == Records(a)[0] == Records(b)[0] == Texts(Columns(b[0]));
      SameTextsSameLine(Columns(a[0]), Columns(b[0]));
      assert Records(a[1..]) == Records(a)[1..] == Records(b)[1..] == Records(b[1..]);
      SameRecordsSameBody(a[1..], b[1..]);
    }
  }

  lemma SameTextsSameLine(a: seq<Option<string>>, b: seq<Option<string>>)
    requires Texts(a) == Texts(b)
    ensures Line(a) == Line(b)
  {
    assert |a| == |Texts(a)| && |b| == |Texts(b)|;
    forall i | 0 <= i < |a| ensures CsvEscape(a[i]) == CsvEscape(b[i]) {
      assert Texts(a)[i] == Texts(b)[i];
    }
    assert seq(|a|, i requires 0 <= i < |a| => CsvEscape(a[i])) == seq(|b|, i requires 0 <= i < |b| => CsvEscape(b[i]));
  }
}
