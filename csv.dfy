/** `parseCSV` of frontend/csvScript.js: from the text of an uploaded file to the ordered
    list of `{eventName, parameters}` records that the configuration run consumes. */
module Csv {
  import opened Wrappers
  import opened Text
  import Seqs

  datatype EventRecord = EventRecord(eventName: string, parameters: seq<string>)

  const EventNameHeader: string := "GA4 Event Name (UI)"
  const ParametersHeader: string := "Parameters"
  const HeaderError: string := "CSV must contain \"GA4 Event Name (UI)\" and \"Parameters\" columns"

  // ---------------------------------------------------------------------------
  // Parameter cells: `split(/[\s,\n\r]+/).map(p => p.trim()).filter(p => p.length > 0)`
  // ---------------------------------------------------------------------------

  /** The character class `[\s,\n\r]`. */
  predicate IsParamSeparator(c: char) {
    IsWhitespace(c) || c == ','
  }

  predicate NoSeparator(s: string) {
    forall i :: 0 <= i < |s| ==> !IsParamSeparator(s[i])
  }

  /** `s.split(/[\s,\n\r]+/)`: the pieces between maximal runs of separators; a leading or
      trailing run gives an empty first or last piece, and no piece holds a separator. */
  function SplitOnSeparatorRuns(s: string): (r: seq<string>)
    ensures |r| >= 1
    ensures forall i :: 0 <= i < |r| ==> NoSeparator(r[i])
    ensures r[0] == "" <==> (s == [] || IsParamSeparator(s[0]))
  {
    if s == [] then [""]
    else
      var rest := SplitOnSeparatorRuns(s[1..]);
      if IsParamSeparator(s[0]) then
        (if s[1..] != [] && IsParamSeparator(s[1]) then rest else [""] + rest)
      else
        [[s[0]] + rest[0]] + rest[1..]
  }

  function TrimEach(pieces: seq<string>): (r: seq<string>)
    ensures |r| == |pieces|
  {
    seq(|pieces|, i requires 0 <= i < |pieces| => Trim(pieces[i]))
  }

  function NonEmptyOnly(pieces: seq<string>): seq<string> {
    if pieces == [] then []
    else (if |pieces[0]| > 0 then [pieces[0]] else []) + NonEmptyOnly(pieces[1..])
  }

  /** The parameter tokens of one (already trimmed) parameters cell. */
  function Tokens(cell: string): seq<string> {
    NonEmptyOnly(TrimEach(SplitOnSeparatorRuns(cell)))
  }

  /** Trimming and dropping empties, one piece at a time. */
  lemma CleanCons(p: string, ps: seq<string>)
    ensures NonEmptyOnly(TrimEach([p] + ps)) ==
            (if Trim(p) == "" then [] else [Trim(p)]) + NonEmptyOnly(TrimEach(ps))
  {
    var q, r := TrimEach([p] + ps), TrimEach(ps);
    assert q[0] == Trim(p);
    assert q[1..] == r by {
      forall i | 0 <= i < |r| ensures q[1..][i] == r[i] {
        assert ([p] + ps)[i + 1] == ps[i];
      }
    }
  }

  /** Trimming leaves separator-free pieces as they are. */
  lemma TrimEachNoSeparator(ps: seq<string>)
    requires forall i :: 0 <= i < |ps| ==> NoSeparator(ps[i])
    ensures TrimEach(ps) == ps
  {
    forall i | 0 <= i < |ps| ensures Trim(ps[i]) == ps[i] {
      TrimOfNoWhitespace(ps[i]);
    }
  }

  lemma {:induction false} NonEmptyOnlyWellFormed(ps: seq<string>)
    requires forall i :: 0 <= i < |ps| ==> NoSeparator(ps[i])
    ensures forall i :: 0 <= i < |NonEmptyOnly(ps)| ==> NonEmptyOnly(ps)[i] != "" && NoSeparator(NonEmptyOnly(ps)[i])
  {
    if ps != [] {
      NonEmptyOnlyWellFormed(ps[1..]);
      var head := if |ps[0]| > 0 then [ps[0]] else [];
      assert NonEmptyOnly(ps) == head + NonEmptyOnly(ps[1..]);
      forall i | 0 <= i < |NonEmptyOnly(ps)|
        ensures NonEmptyOnly(ps)[i] != "" && NoSeparator(NonEmptyOnly(ps)[i])
      {
        if i >= |head| {
          assert NonEmptyOnly(ps)[i] == NonEmptyOnly(ps[1..])[i - |head|];
        }
      }
    }
  }

  /** Every token is non-empty and holds no whitespace and no comma. */
  lemma TokensWellFormed(cell: string)
    ensures forall i :: 0 <= i < |Tokens(cell)| ==> Tokens(cell)[i] != "" && NoSeparator(Tokens(cell)[i])
  {
    var pieces := SplitOnSeparatorRuns(cell);
    TrimEachNoSeparator(pieces);
    NonEmptyOnlyWellFormed(pieces);
  }

  /** After the split, trimming changes nothing: the tokens are the non-empty pieces. */
  lemma TokensAsPieces(s: string)
    ensures Tokens(s) == NonEmptyOnly(SplitOnSeparatorRuns(s))
  {
    TrimEachNoSeparator(SplitOnSeparatorRuns(s));
  }

  /** How one more leading character changes the tokens: a separator is dropped, a character
      followed by a separator (or nothing) is a token of its own, and a character followed by
      another token character joins the first token. Tokens are thus the maximal runs of
      non-separator characters, in order, repeats kept. */
  lemma TokensCons(x: char, t: string)
    ensures IsParamSeparator(x) ==> Tokens([x] + t) == Tokens(t)
    ensures !IsParamSeparator(x) && (t == [] || IsParamSeparator(t[0])) ==>
              Tokens([x] + t) == [[x]] + Tokens(t)
    ensures !IsParamSeparator(x) && t != [] && !IsParamSeparator(t[0]) ==>
              |Tokens(t)| >= 1 && Tokens([x] + t) == [[x] + Tokens(t)[0]] + Tokens(t)[1..]
  {
    if IsParamSeparator(x) {
      ConsSeparator(x, t);
    } else if t == [] || IsParamSeparator(t[0]) {
      ConsWordEnd(x, t);
    } else {
      ConsWordJoin(x, t);
    }
  }

  lemma ConsSeparator(x: char, t: string)
    requires IsParamSeparator(x)
    ensures Tokens([x] + t) == Tokens(t)
  {
    var s := [x] + t;
    assert s[1..] == t;
    TokensAsPieces(s);
    TokensAsPieces(t);
    var rest := SplitOnSeparatorRuns(t);
    if !(t != [] && IsParamSeparator(t[0])) {
      assert SplitOnSeparatorRuns(s) == [""] + rest;
      assert ([""] + rest)[1..] == rest;
    }
  }

  lemma ConsWordEnd(x: char, t: string)
    requires !IsParamSeparator(x) && (t == [] || IsParamSeparator(t[0]))
    ensures Tokens([x] + t) == [[x]] + Tokens(t)
  {
    var s := [x] + t;
    assert s[1..] == t;
    TokensAsPieces(s);
    TokensAsPieces(t);
    var rest := SplitOnSeparatorRuns(t);
    assert rest[0] == "";
    assert SplitOnSeparatorRuns(s) == [[x]] + rest[1..];
    assert NonEmptyOnly(rest) == NonEmptyOnly(rest[1..]);
    assert ([[x]] + rest[1..])[1..] == rest[1..];
  }

  lemma ConsWordJoin(x: char, t: string)
    requires !IsParamSeparator(x) && t != [] && !IsParamSeparator(t[0])
    ensures |Tokens(t)| >= 1 && Tokens([x] + t) == [[x] + Tokens(t)[0]] + Tokens(t)[1..]
  {
    var s := [x] + t;
    assert s[1..] == t;
    TokensAsPieces(s);
    TokensAsPieces(t);
    var rest := SplitOnSeparatorRuns(t);
    assert rest[0] != "";
    assert NonEmptyOnly(rest) == [rest[0]] + NonEmptyOnly(rest[1..]);
    assert SplitOnSeparatorRuns(s) == [[x] + rest[0]] + rest[1..];
    assert ([[x] + rest[0]] + rest[1..])[1..] == rest[1..];
  }

  /** A separator splits the tokens: those of `a`, then those of `b`. */
  lemma {:induction false} TokensSeparated(a: string, c: char, b: string)
    requires IsParamSeparator(c)
    ensures Tokens(a + [c] + b) == Tokens(a) + Tokens(b)
  {
    if a == [] {
      SeparatedBase(c, b);
    } else {
      TokensSeparated(a[1..], c, b);
      SeparatedStep(a, c, b);
    }
  }

  lemma SeparatedBase(c: char, b: string)
    requires IsParamSeparator(c)
    ensures Tokens([] + [c] + b) == Tokens([]) + Tokens(b)
  {
    assert [] + [c] + b == [c] + b;
    ConsSeparator(c, b);
    TokensOfEmpty();
  }

  /** The induction step of `TokensSeparated`: one more leading character. */
  lemma SeparatedStep(a: string, c: char, b: string)
    requires IsParamSeparator(c) && a != []
    requires Tokens(a[1..] + [c] + b) == Tokens(a[1..]) + Tokens(b)
    ensures Tokens(a + [c] + b) == Tokens(a) + Tokens(b)
  {
    var x, rest := a[0], a[1..];
    assert a + [c] + b == [x] + (rest + [c] + b);
    assert a == [x] + rest;
    if IsParamSeparator(x) {
      ConsSeparator(x, rest + [c] + b);
      ConsSeparator(x, rest);
    } else if rest == [] || IsParamSeparator(rest[0]) {
      StepWordEnd(x, rest, c, b);
    } else {
      StepWordJoin(x, rest, c, b);
    }
  }

  lemma StepWordEnd(x: char, a: string, c: char, b: string)
    requires IsParamSeparator(c) && !IsParamSeparator(x) && (a == [] || IsParamSeparator(a[0]))
    requires Tokens(a + [c] + b) == Tokens(a) + Tokens(b)
    ensures Tokens([x] + (a + [c] + b)) == Tokens([x] + a) + Tokens(b)
  {
    var t := a + [c] + b;
    assert t[0] == if a == [] then c else a[0];
    ConsWordEnd(x, t);
    ConsWordEnd(x, a);
    AppendAssoc([[x]], Tokens(a), Tokens(b));
  }

  lemma AppendAssoc(u: seq<string>, v: seq<string>, w: seq<string>)
    ensures u + (v + w) == (u + v) + w
  {
  }

  lemma StepWordJoin(x: char, a: string, c: char, b: string)
    requires IsParamSeparator(c) && !IsParamSeparator(x) && a != [] && !IsParamSeparator(a[0])
    requires Tokens(a + [c] + b) == Tokens(a) + Tokens(b)
    ensures Tokens([x] + (a + [c] + b)) == Tokens([x] + a) + Tokens(b)
  {
    var t := a + [c] + b;
    assert t[0] == a[0];
    ConsWordJoin(x, t);
    ConsWordJoin(x, a);
    ExtendFirst(x, Tokens(a), Tokens(b));
  }

  /** Prepending to the first of `ws + vs` prepends to the first of `ws`. */
  lemma ExtendFirst(x: char, ws: seq<string>, vs: seq<string>)
    requires |ws| >= 1
    ensures [[x] + (ws + vs)[0]] + (ws + vs)[1..] == [[x] + ws[0]] + ws[1..] + vs
  {
    assert (ws + vs)[1..] == ws[1..] + vs;
  }

  /** A non-empty word without separators is one token. */
  lemma {:induction false} TokensOfWord(w: string)
    requires w != [] && NoSeparator(w)
    ensures Tokens(w) == [w]
  {
    assert w == [w[0]] + w[1..];
    TokensCons(w[0], w[1..]);
    if |w| > 1 {
      TokensOfWord(w[1..]);
    }
  }

  /** An empty cell has no tokens. */
  lemma TokensOfEmpty()
    ensures Tokens("") == []
  {
    CleanCons("", []);
  }

  /** Round trip: tokens written out comma-separated read back as the same tokens. */
  lemma {:induction false} TokensOfJoin(ts: seq<string>)
    requires |ts| >= 1
    requires forall i :: 0 <= i < |ts| ==> ts[i] != "" && NoSeparator(ts[i])
    ensures Tokens(Join(ts, ',')) == ts
  {
    TokensOfWord(ts[0]);
    if |ts| > 1 {
      TokensOfJoin(ts[1..]);
      TokensSeparated(ts[0], ',', Join(ts[1..], ','));
      assert [ts[0]] + ts[1..] == ts;
    }
  }

  /** A run of two separators (such as `", "`) separates exactly as one does. */
  lemma SeparatorRun(a: string, c: char, d: char, b: string)
    requires IsParamSeparator(c) && IsParamSeparator(d)
    ensures Tokens(a + [c, d] + b) == Tokens(a) + Tokens(b)
  {
    assert a + [c, d] + b == a + [c] + ([d] + b);
    TokensSeparated(a, c, [d] + b);
    ConsSeparator(d, b);
  }

  // ---------------------------------------------------------------------------
  // Rows
  // ---------------------------------------------------------------------------

  /** `lines[0].split(',').map(h => h.trim())`. */
  function Headers(line: string): (r: seq<string>)
    ensures |r| == |Split(line, ',')|
  {
    var cells := Split(line, ',');
    seq(|cells|, i requires 0 <= i < |cells| => Trim(cells[i]))
  }

  /** The header guard: at least two columns, both labels present (exactly, after trim). */
  predicate HeaderOk(headers: seq<string>) {
    |headers| >= 2 && EventNameHeader in headers && ParametersHeader in headers
  }

  /** `row.length >= 2 && row[eventNameIndex] && row[eventNameIndex].trim()`: a cell that is
      missing (`undefined`), empty, or blank keeps the row out. */
  predicate Selected(cells: seq<string>, nameIndex: nat) {
    |cells| >= 2 && nameIndex < |cells| && Trim(cells[nameIndex]) != ""
  }

  /** The record a selected row contributes. */
  function RecordOfRow(cells: seq<string>, nameIndex: nat, paramsIndex: nat): EventRecord
    requires Selected(cells, nameIndex)
  {
    var parametersString := if paramsIndex < |cells| then Trim(cells[paramsIndex]) else "";
    EventRecord(Trim(cells[nameIndex]), Tokens(parametersString))
  }

  /** What one data line contributes: its record when selected, nothing otherwise. */
  function LineRecord(line: string, nameIndex: nat, paramsIndex: nat): Option<EventRecord> {
    var cells := Split(line, ',');
    if Selected(cells, nameIndex) then Some(RecordOfRow(cells, nameIndex, paramsIndex)) else None
  }

  function LineRecordOf(nameIndex: nat, paramsIndex: nat): string -> Option<EventRecord> {
    (line: string) => LineRecord(line, nameIndex, paramsIndex)
  }

  /** The records of the data lines, in line order. */
  function RowsToRecords(lines: seq<string>, nameIndex: nat, paramsIndex: nat): seq<EventRecord> {
    Seqs.FilterMap(lines, LineRecordOf(nameIndex, paramsIndex))
  }

  /** What `parseCSV` computes: the thrown header error, or the records. */
  function ParseSpec(content: string): Result<seq<EventRecord>> {
    var lines := Split(Trim(content), '\n');
    var headers := Headers(lines[0]);
    if !HeaderOk(headers) then Failure(HeaderError)
    else
      Success(RowsToRecords(lines[1..], Seqs.FirstIndex(headers, EventNameHeader),
                            Seqs.FirstIndex(headers, ParametersHeader)))
  }

  /** `parseCSV` up to the hand-over to the form (lines 427-458): the header guard, then the
      record loop. */
  method ParseCsv(content: string) returns (r: Result<seq<EventRecord>>)
    ensures r == ParseSpec(content)
  {
    var lines := Split(Trim(content), '\n');
    var headers := Headers(lines[0]);
    if |headers| < 2 || EventNameHeader !in headers || ParametersHeader !in headers {
      return Failure(HeaderError);
    }
    var nameIndex := Seqs.FirstIndex(headers, EventNameHeader);
    var paramsIndex := Seqs.FirstIndex(headers, ParametersHeader);
    var records := CollectRecords(lines, nameIndex, paramsIndex);
    return Success(records);
  }

  /** The loop of `parseCSV` (lines 436-457): one record pushed per selected data line, the
      selection and the record being those of `LineRecord`. */
  method CollectRecords(lines: seq<string>, nameIndex: nat, paramsIndex: nat) returns (records: seq<EventRecord>)
    requires |lines| >= 1
    ensures records == RowsToRecords(lines[1..], nameIndex, paramsIndex)
  {
    records := [];
    var i := 1;
    while i < |lines|
      invariant 1 <= i <= |lines|
      invariant records == RowsToRecords(lines[1..i], nameIndex, paramsIndex)
    {
      var record := LineRecord(lines[i], nameIndex, paramsIndex);
      RowsSnoc(lines[1..i], lines[i], nameIndex, paramsIndex);
      assert lines[1..i + 1] == lines[1..i] + [lines[i]];
      if record.Some? {
        records := records + [record.value];
      }
      i := i + 1;
    }
    assert lines[1..i] == lines[1..];
  }

  // ---------------------------------------------------------------------------
  // Properties of the parse
  // ---------------------------------------------------------------------------

  /** The header check: the parse fails, with the one message, exactly when the trimmed first
      line lacks two columns or either exact label. */
  lemma HeaderValidation(content: string)
    ensures var headers := Headers(Split(Trim(content), '\n')[0]);
            (ParseSpec(content).Failure? <==> !HeaderOk(headers))
            && (ParseSpec(content).Failure? ==> ParseSpec(content).error == HeaderError)
  {
  }

  /** Records keep line order: the records of `a + b` are those of `a`, then those of `b`. */
  lemma RowsAppend(a: seq<string>, b: seq<string>, nameIndex: nat, paramsIndex: nat)
    ensures RowsToRecords(a + b, nameIndex, paramsIndex)
         == RowsToRecords(a, nameIndex, paramsIndex) + RowsToRecords(b, nameIndex, paramsIndex)
  {
    Seqs.FilterMapAppend(a, b, LineRecordOf(nameIndex, paramsIndex));
  }

  /** One more line adds its record, if it has one, at the end. */
  lemma RowsSnoc(lines: seq<string>, line: string, nameIndex: nat, paramsIndex: nat)
    ensures var record := LineRecord(line, nameIndex, paramsIndex);
            RowsToRecords(lines + [line], nameIndex, paramsIndex)
            == RowsToRecords(lines, nameIndex, paramsIndex) + (if record.Some? then [record.value] else [])
  {
    Seqs.FilterMapSnoc(lines, line, LineRecordOf(nameIndex, paramsIndex));
  }

  /** One line contributes exactly when it is selected, and then the trimmed name cell and
      the tokens of its parameters cell (none when that cell is missing). */
  lemma RowSelection(line: string, nameIndex: nat, paramsIndex: nat)
    ensures var cells := Split(line, ',');
            && (Selected(cells, nameIndex) ==>
                  RowsToRecords([line], nameIndex, paramsIndex)
                  == [EventRecord(Trim(cells[nameIndex]),
                                  if paramsIndex < |cells| then Tokens(Trim(cells[paramsIndex])) else [])])
            && (!Selected(cells, nameIndex) ==> RowsToRecords([line], nameIndex, paramsIndex) == [])
  {
    Seqs.FilterMapSnoc([], line, LineRecordOf(nameIndex, paramsIndex));
    assert [] + [line] == [line];
    TokensOfEmpty();
  }

  predicate WellFormedRecord(rec: EventRecord) {
    && rec.eventName != "" && Trim(rec.eventName) == rec.eventName
    && forall j :: 0 <= j < |rec.parameters| ==> rec.parameters[j] != "" && NoSeparator(rec.parameters[j])
  }

  lemma LineRecordWellFormed(line: string, nameIndex: nat, paramsIndex: nat)
    ensures LineRecord(line, nameIndex, paramsIndex).Some? ==>
              WellFormedRecord(LineRecord(line, nameIndex, paramsIndex).value)
  {
    var cells := Split(line, ',');
    if Selected(cells, nameIndex) {
      TrimIdempotent(cells[nameIndex]);
      TokensWellFormed(if paramsIndex < |cells| then Trim(cells[paramsIndex]) else "");
    }
  }

  /** Every parsed record has a non-empty, already trimmed event name, and parameter tokens that
      are non-empty and free of whitespace and commas. */
  lemma RecordsWellFormed(lines: seq<string>, nameIndex: nat, paramsIndex: nat)
    ensures forall k :: 0 <= k < |RowsToRecords(lines, nameIndex, paramsIndex)| ==>
              WellFormedRecord(RowsToRecords(lines, nameIndex, paramsIndex)[k])
  {
    var f := LineRecordOf(nameIndex, paramsIndex);
    Seqs.FilterMapFrom(lines, f);
    forall k | 0 <= k < |RowsToRecords(lines, nameIndex, paramsIndex)|
      ensures WellFormedRecord(RowsToRecords(lines, nameIndex, paramsIndex)[k])
    {
      var i :| 0 <= i < |lines| && f(lines[i]) == Some(RowsToRecords(lines, nameIndex, paramsIndex)[k]);
      LineRecordWellFormed(lines[i], nameIndex, paramsIndex);
    }
  }
}
