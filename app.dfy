/** The logic of app.py once "Analyze" is pressed: the comma-separated symbol
    list is parsed, and each symbol is fetched and given the selected
    indicators, with a failure on one symbol reported and the loop carried on
    to the next. Widgets, plots and the CSV download are not part of this
    model; the data provider is a parameter. */
module App {
  import opened Wrappers
  import opened Indicators

  // ---------------------------------------------------------------------------
  // Symbol parsing: [s.strip().upper() for s in symbols_input.split(',')]
  // ---------------------------------------------------------------------------

  /** The characters Python's `str.strip()` removes: the ASCII controls
      \t \n \v \f \r and \x1c-\x1f, the space, and the Unicode separators. */
  predicate IsSpace(c: char)
  {
    || ('\t' <= c <= '\r')
    || ('\U{1C}' <= c <= '\U{1F}')
    || c == ' ' || c == '\U{85}' || c == '\U{A0}' || c == '\U{1680}'
    || ('\U{2000}' <= c <= '\U{200A}')
    || c == '\U{2028}' || c == '\U{2029}' || c == '\U{202F}' || c == '\U{205F}' || c == '\U{3000}'
  }

  /** No leading and no trailing whitespace. */
  predicate Stripped(s: string)
  {
    s == [] || (!IsSpace(s[0]) && !IsSpace(s[|s| - 1]))
  }

  /** `str.lstrip()`. */
  function StripLeading(s: string): (r: string)
    ensures |r| <= |s|
    ensures r == [] || !IsSpace(r[0])
  {
    if |s| > 0 && IsSpace(s[0]) then StripLeading(s[1..]) else s
  }

  /** `str.rstrip()`. */
  function StripTrailing(s: string): (r: string)
    ensures |r| <= |s|
    ensures r == [] || !IsSpace(r[|r| - 1])
  {
    if |s| > 0 && IsSpace(s[|s| - 1]) then StripTrailing(s[..|s| - 1]) else s
  }

  /** How many whitespace characters `strip()` removes from the front. */
  function LeadingSpaces(s: string): nat
  {
    |s| - |StripLeading(s)|
  }

  /** `str.strip()`. */
  function Strip(s: string): (r: string)
    ensures |r| <= |s|
    ensures Stripped(r)
  {
    StripTrailingRemovesSpaces(StripLeading(s));
    StripTrailing(StripLeading(s))
  }

  /** `r` is `s` with `lead` characters of whitespace cut from the front and
      only whitespace cut from the back. */
  predicate Trims(s: string, r: string, lead: nat)
  {
    && lead + |r| <= |s|
    && r == s[lead .. lead + |r|]
    && (forall k :: 0 <= k < lead ==> IsSpace(s[k]))
    && (forall k :: lead + |r| <= k < |s| ==> IsSpace(s[k]))
  }

  /** `lstrip()` removes a whitespace prefix and stops at the first other
      character. */
  lemma {:induction false} StripLeadingRemovesSpaces(s: string)
    ensures StripLeading(s) == s[LeadingSpaces(s)..]
    ensures forall k :: 0 <= k < LeadingSpaces(s) ==> IsSpace(s[k])
    ensures StripLeading(s) == [] || !IsSpace(StripLeading(s)[0])
    decreases |s|
  {
    if |s| > 0 && IsSpace(s[0]) {
      StripLeadingRemovesSpaces(s[1..]);
    }
  }

  /** `rstrip()` removes a whitespace suffix and stops at the last other
      character. */
  lemma {:induction false} StripTrailingRemovesSpaces(s: string)
    ensures StripTrailing(s) == s[..|StripTrailing(s)|]
    ensures forall k :: |StripTrailing(s)| <= k < |s| ==> IsSpace(s[k])
    ensures StripTrailing(s) == [] || !IsSpace(StripTrailing(s)[|StripTrailing(s)| - 1])
    decreases |s|
  {
    if |s| > 0 && IsSpace(s[|s| - 1]) {
      StripTrailingRemovesSpaces(s[..|s| - 1]);
    }
  }

  /** `strip()` keeps the middle of `s` between a whitespace prefix and a
      whitespace suffix, and that middle has no whitespace at either end. */
  lemma StripTrims(s: string)
    ensures Stripped(Strip(s))
    ensures Trims(s, Strip(s), LeadingSpaces(s))
  {
    StripLeadingRemovesSpaces(s);
    var left := StripLeading(s);
    StripTrailingRemovesSpaces(left);
    var r := Strip(s);
    var lead := LeadingSpaces(s);
    assert r == s[lead .. lead + |r|];
    assert forall k :: lead + |r| <= k < |s| ==> s[k] == left[k - lead];
  }

  /** ASCII case mapping: a-z become A-Z, everything else is kept. */
  function UpperChar(c: char): char
  {
    if 'a' <= c <= 'z' then (c as int - 32) as char else c
  }

  /** `str.upper()` on the ASCII letters. */
  function Upper(s: string): (r: string)
    ensures |r| == |s|
  {
    seq(|s|, k requires 0 <= k < |s| => UpperChar(s[k]))
  }

  /** `str.split(sep)`: the fields between separators, empty ones included;
      there is always at least one field. */
  function Split(s: string, sep: char): (r: seq<string>)
    ensures |r| >= 1
    decreases |s|
  {
    if |s| == 0 then [""]
    else
      var rest := Split(s[1..], sep);
      if s[0] == sep then [""] + rest
      else [[s[0]] + rest[0]] + rest[1..]
  }

  /** `sep.join(parts)`. */
  function Join(parts: seq<string>, sep: char): (r: string)
    ensures |parts| >= 1 && (forall k :: 0 <= k < |parts| ==> sep !in parts[k]) ==>
              Occurrences(r, sep) == |parts| - 1
  {
    if |parts| == 0 then ""
    else if |parts| == 1 then
      OccurrencesAbsent(parts[0], sep);
      parts[0]
    else
      OccurrencesConcat(parts[0], [sep], sep);
      OccurrencesConcat(parts[0] + [sep], Join(parts[1..], sep), sep);
      OccurrencesAbsent(parts[0], sep);
      parts[0] + [sep] + Join(parts[1..], sep)
  }

  function Occurrences(s: string, c: char): nat
  {
    if |s| == 0 then 0 else (if s[0] == c then 1 else 0) + Occurrences(s[1..], c)
  }

  /** Occurrences in a concatenation add up. */
  lemma {:induction false} OccurrencesConcat(a: string, b: string, c: char)
    ensures Occurrences(a + b, c) == Occurrences(a, c) + Occurrences(b, c)
    decreases |a|
  {
    if |a| > 0 {
      OccurrencesConcat(a[1..], b, c);
      assert (a + b)[1..] == a[1..] + b;
    } else {
      assert a + b == b;
    }
  }

  /** A character that does not appear occurs zero times. */
  lemma {:induction false} OccurrencesAbsent(a: string, c: char)
    ensures c !in a ==> Occurrences(a, c) == 0
    decreases |a|
  {
    if |a| > 0 {
      OccurrencesAbsent(a[1..], c);
    }
  }

  /** One field per separator plus one, none containing the separator. */
  lemma {:induction false} SplitFields(s: string, sep: char)
    ensures |Split(s, sep)| == Occurrences(s, sep) + 1
    ensures forall k :: 0 <= k < |Split(s, sep)| ==> sep !in Split(s, sep)[k]
    decreases |s|
  {
    if |s| > 0 {
      SplitFields(s[1..], sep);
    }
  }

  /** Joining the fields with the separator gives back the input. */
  lemma {:induction false} JoinSplit(s: string, sep: char)
    ensures Join(Split(s, sep), sep) == s
    decreases |s|
  {
    if |s| > 0 {
      JoinSplit(s[1..], sep);
      var rest := Split(s[1..], sep);
      if |rest| > 1 {
        assert rest == [rest[0]] + rest[1..];
      }
    }
  }

  /** A string without the separator is a single field. */
  lemma {:induction false} SplitWithoutSeparator(a: string, sep: char)
    requires sep !in a
    ensures Split(a, sep) == [a]
    decreases |a|
  {
    if |a| > 0 {
      SplitWithoutSeparator(a[1..], sep);
      assert [a[0]] + a[1..] == a;
    }
  }

  /** A field followed by the separator splits off as the first field. */
  lemma {:induction false} SplitFirstField(a: string, sep: char, b: string)
    requires sep !in a
    ensures Split(a + [sep] + b, sep) == [a] + Split(b, sep)
    decreases |a|
  {
    if |a| == 0 {
      assert a + [sep] + b == [sep] + b;
      assert ([sep] + b)[1..] == b;
    } else {
      SplitFirstField(a[1..], sep, b);
      assert (a + [sep] + b)[1..] == a[1..] + [sep] + b;
      assert [a[0]] + a[1..] == a;
    }
  }

  /** Splitting a join of separator-free parts gives the parts back. */
  lemma {:induction false} SplitJoin(parts: seq<string>, sep: char)
    requires |parts| >= 1
    requires forall k :: 0 <= k < |parts| ==> sep !in parts[k]
    ensures Split(Join(parts, sep), sep) == parts
    decreases |parts|
  {
    if |parts| == 1 {
      SplitWithoutSeparator(parts[0], sep);
    } else {
      SplitJoin(parts[1..], sep);
      SplitFirstField(parts[0], sep, Join(parts[1..], sep));
      assert [parts[0]] + parts[1..] == parts;
    }
  }

  /** One symbol from one field: `s.strip().upper()`. */
  function ParseField(field: string): (symbol: string)
    ensures |symbol| <= |field|
    ensures Stripped(symbol)
  {
    UpperKeepsStripped(Strip(field));
    Upper(Strip(field))
  }

  /** Upper-casing neither creates nor removes whitespace or commas. */
  lemma UpperCharKeeps(c: char)
    ensures IsSpace(UpperChar(c)) == IsSpace(c)
    ensures (UpperChar(c) == ',') == (c == ',')
    ensures !('a' <= UpperChar(c) <= 'z')
  {
    if 'a' <= c <= 'z' {
      assert 'A' <= UpperChar(c) <= 'Z';
    }
  }

  /** `upper()` leaves no lower-case letter. */
  lemma UpperHasNoLowercase(s: string)
    ensures forall k :: 0 <= k < |Upper(s)| ==> !('a' <= Upper(s)[k] <= 'z')
  {
    forall k | 0 <= k < |s|
      ensures !('a' <= Upper(s)[k] <= 'z')
    {
      UpperCharKeeps(s[k]);
    }
  }

  /** A string without lower-case letters is left alone by `upper()`. */
  lemma UpperOfUpper(s: string)
    requires forall k :: 0 <= k < |s| ==> !('a' <= s[k] <= 'z')
    ensures Upper(s) == s
  {
  }

  /** An already stripped string is left alone by `strip()`. */
  lemma StripStripped(s: string)
    requires Stripped(s)
    ensures Strip(s) == s
  {
    assert StripLeading(s) == s;
    assert StripTrailing(s) == s;
  }

  /** Upper-casing keeps a string stripped. */
  lemma UpperKeepsStripped(s: string)
    requires Stripped(s)
    ensures Stripped(Upper(s))
  {
    if |s| > 0 {
      UpperCharKeeps(s[0]);
      UpperCharKeeps(s[|s| - 1]);
    }
  }

  /** Upper-casing adds no comma. */
  lemma UpperKeepsCommaFree(s: string)
    requires ',' !in s
    ensures ',' !in Upper(s)
  {
    forall k | 0 <= k < |s|
      ensures Upper(s)[k] != ','
    {
      UpperCharKeeps(s[k]);
    }
  }

  /** Stripping adds no comma. */
  lemma StripKeepsCommaFree(s: string)
    requires ',' !in s
    ensures ',' !in Strip(s)
  {
    StripTrims(s);
    var lead := LeadingSpaces(s);
    assert forall m :: 0 <= m < |Strip(s)| ==> Strip(s)[m] == s[lead + m];
  }

  /** A parsed symbol has no surrounding whitespace and no lower-case letter,
      contains a comma only if its field did, and parsing it again changes
      nothing. */
  lemma ParsedField(field: string)
    ensures Stripped(ParseField(field))
    ensures forall m :: 0 <= m < |ParseField(field)| ==> !('a' <= ParseField(field)[m] <= 'z')
    ensures ',' !in field ==> ',' !in ParseField(field)
    ensures ParseField(ParseField(field)) == ParseField(field)
  {
    var stripped := Strip(field);
    var symbol := Upper(stripped);
    StripTrims(field);
    UpperHasNoLowercase(stripped);
    UpperKeepsStripped(stripped);
    if ',' !in field {
      StripKeepsCommaFree(field);
      UpperKeepsCommaFree(stripped);
    }
    StripStripped(symbol);
    UpperOfUpper(symbol);
  }

  function ParseSymbols(input: string): (symbols: seq<string>)
    ensures |symbols| == Occurrences(input, ',') + 1
  {
    SplitFields(input, ',');
    var fields := Split(input, ',');
    seq(|fields|, k requires 0 <= k < |fields| => ParseField(fields[k]))
  }

  /** The parsed list has one symbol per comma-separated field, in input
      order, so its length is the number of commas plus one; each symbol is
      free of surrounding whitespace, has no lower-case letter and no comma. */
  lemma ParsedSymbols(input: string)
    ensures |ParseSymbols(input)| == Occurrences(input, ',') + 1
    ensures forall k :: 0 <= k < |ParseSymbols(input)| ==>
              ParseSymbols(input)[k] == ParseField(Split(input, ',')[k])
    ensures forall k :: 0 <= k < |ParseSymbols(input)| ==>
              && Stripped(ParseSymbols(input)[k])
              && (forall m :: 0 <= m < |ParseSymbols(input)[k]| ==> !('a' <= ParseSymbols(input)[k][m] <= 'z'))
              && ',' !in ParseSymbols(input)[k]
  {
    SplitFields(input, ',');
    var fields := Split(input, ',');
    forall k | 0 <= k < |fields|
      ensures && Stripped(ParseField(fields[k]))
              && (forall m :: 0 <= m < |ParseField(fields[k])| ==> !('a' <= ParseField(fields[k])[m] <= 'z'))
              && ',' !in ParseField(fields[k])
    {
      ParsedField(fields[k]);
    }
  }

  /** Empty fields are kept, and an empty input is one empty symbol. */
  lemma ParseKeepsEmptyFields()
    ensures ParseSymbols("A,,B") == ["A", "", "B"]
    ensures ParseSymbols("") == [""]
  {
    SplitWithoutSeparator("B", ',');
    SplitFirstField("", ',', "B");
    assert "" + [','] + "B" == ",B";
    SplitFirstField("A", ',', ",B");
    assert "A" + [','] + ",B" == "A,,B";
    StripStripped("A");
    StripStripped("B");
    assert Upper("A") == "A";
    assert Upper("B") == "B";
  }

  /** The two fields of the dashboard's default input. */
  lemma SplitDefaultInput()
    ensures Split("AAPL, MSFT", ',') == ["AAPL", " MSFT"]
  {
    SplitWithoutSeparator(" MSFT", ',');
    SplitFirstField("AAPL", ',', " MSFT");
    assert "AAPL" + [','] + " MSFT" == "AAPL, MSFT";
  }

  /** `strip()` on the second field removes its leading space. */
  lemma StripSecondField()
    ensures Strip(" MSFT") == "MSFT"
  {
    assert IsSpace(' ');
    assert " MSFT"[1..] == "MSFT";
    assert !IsSpace('M');
    assert StripLeading(" MSFT") == "MSFT";
    assert !IsSpace('T');
    assert StripTrailing("MSFT") == "MSFT";
  }

  /** The first field is already a symbol. */
  lemma ParseFirstField()
    ensures ParseField("AAPL") == "AAPL"
  {
    assert !IsSpace('A');
    assert StripLeading("AAPL") == "AAPL";
    assert !IsSpace('L');
    assert StripTrailing("AAPL") == "AAPL";
    UpperOfUpper("AAPL");
  }

  /** The second field parses to its symbol. */
  lemma ParseSecondField()
    ensures ParseField(" MSFT") == "MSFT"
  {
    StripSecondField();
    UpperOfUpper("MSFT");
  }

  /** An input of two fields parses to their two symbols. */
  lemma ParseTwoFields(input: string, first: string, second: string)
    requires Split(input, ',') == [first, second]
    ensures ParseSymbols(input) == [ParseField(first), ParseField(second)]
  {
  }

  /** The dashboard's default input gives its two symbols. */
  lemma ParseDefaultInput()
    ensures ParseSymbols("AAPL, MSFT") == ["AAPL", "MSFT"]
  {
    SplitDefaultInput();
    ParseTwoFields("AAPL, MSFT", "AAPL", " MSFT");
    ParseFirstField();
    ParseSecondField();
  }

  /** Re-parsing the comma-joined result gives the same list. */
  lemma ParseIdempotent(input: string)
    ensures ParseSymbols(Join(ParseSymbols(input), ',')) == ParseSymbols(input)
  {
    var symbols := ParseSymbols(input);
    ParsedSymbols(input);
    SplitJoin(symbols, ',');
    var fields := Split(input, ',');
    forall k | 0 <= k < |symbols|
      ensures ParseField(symbols[k]) == symbols[k]
    {
      ParsedField(fields[k]);
    }
  }

  // ---------------------------------------------------------------------------
  // The indicator pipeline (app.py lines 33-40)
  // ---------------------------------------------------------------------------

  const RsiWindow: nat := 14
  const BollingerWindow: nat := 20
  const SmaWindow: nat := 20
  const EmaSpan: nat := 20

  /** The columns each multiselect option adds to the table; `Volume` (and
      any other label) adds none. */
  function ColumnsOf(option: string): set<string>
  {
    if option == "RSI" then {RsiColumn}
    else if option == "Bollinger Bands" then {UpperBandColumn, LowerBandColumn}
    else if option == "SMA" then {SmaColumn(SmaWindow)}
    else if option == "EMA" then {EmaColumn(EmaSpan)}
    else {}
  }

  /** All columns the selected options add. */
  function AddedColumns(selected: seq<string>): set<string>
  {
    set option, name | option in selected && name in ColumnsOf(option) :: name
  }

  /** Line 34: the `RSI` column, when selected. */
  function RsiStage(close: seq<real>, columns: map<string, seq<Option<real>>>, selected: seq<string>)
    : (r: map<string, seq<Option<real>>>)
    ensures r.Keys == columns.Keys + (if "RSI" in selected then {RsiColumn} else {})
  {
    if "RSI" in selected then columns[RsiColumn := Rsi(close, RsiWindow)] else columns
  }

  /** Lines 35-36: the two band columns, when selected. */
  function BandsStage(close: seq<real>, columns: map<string, seq<Option<real>>>, selected: seq<string>,
                      sqrt: real -> real): (r: map<string, seq<Option<real>>>)
    ensures r.Keys == columns.Keys + (if "Bollinger Bands" in selected then {UpperBandColumn, LowerBandColumn} else {})
  {
    if "Bollinger Bands" in selected then
      var bands := BollingerBands(close, BollingerWindow, sqrt);
      columns[UpperBandColumn := bands.upper][LowerBandColumn := bands.lower]
    else columns
  }

  /** Lines 37-38: the `SMA_20` column, when selected. */
  function SmaStage(close: seq<real>, columns: map<string, seq<Option<real>>>, selected: seq<string>)
    : (r: map<string, seq<Option<real>>>)
    ensures r.Keys == columns.Keys + (if "SMA" in selected then {SmaColumn(SmaWindow)} else {})
  {
    if "SMA" in selected then columns[SmaColumn(SmaWindow) := Sma(close, SmaWindow)] else columns
  }

  /** Lines 39-40: the `EMA_20` column, when selected. */
  function EmaStage(close: seq<real>, columns: map<string, seq<Option<real>>>, selected: seq<string>)
    : (r: map<string, seq<Option<real>>>)
    ensures r.Keys == columns.Keys + (if "EMA" in selected then {EmaColumn(EmaSpan)} else {})
  {
    if "EMA" in selected then columns[EmaColumn(EmaSpan) := Ema(close, EmaSpan)] else columns
  }

  /** The table's columns after the four guarded `add_*` calls, applied in
      the fixed order RSI, Bollinger, SMA, EMA whatever the selection order. */
  function PipelineColumns(close: seq<real>, columns: map<string, seq<Option<real>>>,
                           selected: seq<string>, sqrt: real -> real): (r: map<string, seq<Option<real>>>)
    ensures r.Keys == columns.Keys + AddedColumns(selected)
  {
    AddedColumnsByOption(selected);
    EmaStage(close, SmaStage(close, BandsStage(close, RsiStage(close, columns, selected), selected, sqrt), selected), selected)
  }

  /** Lines 33-40: apply the selected indicators to the table in place. */
  method ApplyIndicators(df: Frame, selected: seq<string>, sqrt: real -> real)
    requires df.Valid()
    modifies df
    ensures df.Valid() && df.close == old(df.close)
    ensures df.columns == PipelineColumns(old(df.close), old(df.columns), selected, sqrt)
  {
    if "RSI" in selected {
      df.AddRsi(RsiWindow);
    }
    if "Bollinger Bands" in selected {
      df.AddBollingerBands(BollingerWindow, sqrt);
    }
    if "SMA" in selected {
      df.AddSma(SmaWindow);
    }
    if "EMA" in selected {
      df.AddEma(EmaSpan);
    }
  }

  /** The added columns, option by option. */
  lemma AddedColumnsByOption(selected: seq<string>)
    ensures AddedColumns(selected)
            == (if "RSI" in selected then {RsiColumn} else {})
             + (if "Bollinger Bands" in selected then {UpperBandColumn, LowerBandColumn} else {})
             + (if "SMA" in selected then {SmaColumn(SmaWindow)} else {})
             + (if "EMA" in selected then {EmaColumn(EmaSpan)} else {})
  {
    forall name | name in AddedColumns(selected)
      ensures || ("RSI" in selected && name == RsiColumn)
              || ("Bollinger Bands" in selected && name in {UpperBandColumn, LowerBandColumn})
              || ("SMA" in selected && name == SmaColumn(SmaWindow))
              || ("EMA" in selected && name == EmaColumn(EmaSpan))
    {
      var option :| option in selected && name in ColumnsOf(option);
    }
    if "RSI" in selected {
      assert RsiColumn in ColumnsOf("RSI");
    }
    if "Bollinger Bands" in selected {
      assert UpperBandColumn in ColumnsOf("Bollinger Bands");
      assert LowerBandColumn in ColumnsOf("Bollinger Bands");
    }
    if "SMA" in selected {
      assert SmaColumn(SmaWindow) in ColumnsOf("SMA");
    }
    if "EMA" in selected {
      assert EmaColumn(EmaSpan) in ColumnsOf("EMA");
    }
  }

  /** Writing a full-length column under a name other than Close keeps a
      table consistent. */
  lemma WriteKeepsWellFormed(close: seq<real>, columns: map<string, seq<Option<real>>>,
                             name: string, series: seq<Option<real>>)
    requires WellFormed(close, columns)
    requires name != CloseColumn && |series| == |close|
    ensures WellFormed(close, columns[name := series])
  {
  }

  /** The pipeline keeps every column it does not add as it was, and leaves
      a consistent table. */
  lemma PipelineKeepsTable(close: seq<real>, columns: map<string, seq<Option<real>>>,
                           selected: seq<string>, sqrt: real -> real)
    requires WellFormed(close, columns)
    ensures forall name :: name in columns && name !in AddedColumns(selected) ==>
              PipelineColumns(close, columns, selected, sqrt)[name] == columns[name]
    ensures WellFormed(close, PipelineColumns(close, columns, selected, sqrt))
  {
    AddedColumnsByOption(selected);
    var afterRsi := RsiStage(close, columns, selected);
    if "RSI" in selected {
      WriteKeepsWellFormed(close, columns, RsiColumn, Rsi(close, RsiWindow));
    }
    var afterBands := BandsStage(close, afterRsi, selected, sqrt);
    if "Bollinger Bands" in selected {
      var bands := BollingerBands(close, BollingerWindow, sqrt);
      WriteKeepsWellFormed(close, afterRsi, UpperBandColumn, bands.upper);
      WriteKeepsWellFormed(close, afterRsi[UpperBandColumn := bands.upper], LowerBandColumn, bands.lower);
    }
    var afterSma := SmaStage(close, afterBands, selected);
    if "SMA" in selected {
      WriteKeepsWellFormed(close, afterBands, SmaColumn(SmaWindow), Sma(close, SmaWindow));
    }
    if "EMA" in selected {
      WriteKeepsWellFormed(close, afterSma, EmaColumn(EmaSpan), Ema(close, EmaSpan));
    }
  }

  /** Each selected option's column holds its indicator with the dashboard's
      parameters: RSI over 14 bars, Bollinger bands, SMA and EMA over 20. */
  lemma PipelineValues(close: seq<real>, columns: map<string, seq<Option<real>>>,
                       selected: seq<string>, sqrt: real -> real)
    ensures "RSI" in selected ==>
              && RsiColumn in PipelineColumns(close, columns, selected, sqrt)
              && PipelineColumns(close, columns, selected, sqrt)[RsiColumn] == Rsi(close, 14)
    ensures "Bollinger Bands" in selected ==>
              && UpperBandColumn in PipelineColumns(close, columns, selected, sqrt)
              && LowerBandColumn in PipelineColumns(close, columns, selected, sqrt)
              && PipelineColumns(close, columns, selected, sqrt)[UpperBandColumn] == BollingerBands(close, 20, sqrt).upper
              && PipelineColumns(close, columns, selected, sqrt)[LowerBandColumn] == BollingerBands(close, 20, sqrt).lower
    ensures "SMA" in selected ==>
              && "SMA_20" in PipelineColumns(close, columns, selected, sqrt)
              && PipelineColumns(close, columns, selected, sqrt)["SMA_20"] == Sma(close, 20)
    ensures "EMA" in selected ==>
              && "EMA_20" in PipelineColumns(close, columns, selected, sqrt)
              && PipelineColumns(close, columns, selected, sqrt)["EMA_20"] == Ema(close, 20)
  {
    ColumnNamesAtTwenty();
  }

  /** Two selections that agree on which of the four indicator labels they
      hold give the same table: the order of the selection, repeats and any
      other label make no difference. */
  lemma PipelineDependsOnLabels(close: seq<real>, columns: map<string, seq<Option<real>>>,
                                selected: seq<string>, other: seq<string>, sqrt: real -> real)
    requires ("RSI" in selected) == ("RSI" in other)
    requires ("Bollinger Bands" in selected) == ("Bollinger Bands" in other)
    requires ("SMA" in selected) == ("SMA" in other)
    requires ("EMA" in selected) == ("EMA" in other)
    ensures PipelineColumns(close, columns, selected, sqrt) == PipelineColumns(close, columns, other, sqrt)
    ensures AddedColumns(selected) == AddedColumns(other)
  {
    var afterRsi := RsiStage(close, columns, selected);
    assert afterRsi == RsiStage(close, columns, other);
    var afterBands := BandsStage(close, afterRsi, selected, sqrt);
    assert afterBands == BandsStage(close, afterRsi, other, sqrt);
    var afterSma := SmaStage(close, afterBands, selected);
    assert afterSma == SmaStage(close, afterBands, other);
    assert EmaStage(close, afterSma, selected) == EmaStage(close, afterSma, other);
    AddedColumnsByOption(selected);
    AddedColumnsByOption(other);
  }

  /** Ticking `Volume` adds no column and changes none. */
  lemma PipelineIgnoresVolume(close: seq<real>, columns: map<string, seq<Option<real>>>,
                              selected: seq<string>, sqrt: real -> real)
    ensures PipelineColumns(close, columns, selected + ["Volume"], sqrt)
            == PipelineColumns(close, columns, selected, sqrt)
    ensures AddedColumns(selected + ["Volume"]) == AddedColumns(selected)
  {
    var extended := selected + ["Volume"];
    assert forall option :: option in extended <==> option in selected || option == "Volume";
    PipelineDependsOnLabels(close, columns, extended, selected, sqrt);
  }

  // ---------------------------------------------------------------------------
  // The per-symbol loop (app.py lines 28-40 and 85-86)
  // ---------------------------------------------------------------------------

  /** A table as the provider returns it. */
  datatype RawTable = RawTable(close: seq<real>, columns: map<string, seq<Option<real>>>)

  type Table = t: RawTable | WellFormed(t.close, t.columns) witness RawTable([], map[])

  /** What the provider's download call gives for a symbol over the chosen
      date range: a table, possibly empty, or an exception. */
  datatype Download = Downloaded(table: Table) | DownloadRaised(reason: string)

  /** Why a symbol produced no analysis. */
  datatype Failure = NoData(symbol: string) | ProviderError(symbol: string, reason: string)

  /** fetch_data: a provider exception propagates, and an empty table is
      turned into a "no data found" error. */
  function FetchData(symbol: string, download: string -> Download): (r: Result<Table, Failure>)
    ensures r.Ok? ==> download(symbol) == Downloaded(r.value) && |r.value.close| > 0
    ensures r.Err? <==> download(symbol).DownloadRaised? || |download(symbol).table.close| == 0
    ensures download(symbol).DownloadRaised? ==>
              r == Err(ProviderError(symbol, download(symbol).reason))
    ensures download(symbol).Downloaded? && |download(symbol).table.close| == 0 ==>
              r == Err(NoData(symbol))
  {
    match download(symbol)
    case DownloadRaised(reason) => Err(ProviderError(symbol, reason))
    case Downloaded(table) => if |table.close| == 0 then Err(NoData(symbol)) else Ok(table)
  }

  /** What the dashboard shows for one symbol: its table with the indicator
      columns, or the error line `st.error` prints. */
  datatype Report =
    | Analyzed(symbol: string, close: seq<real>, columns: map<string, seq<Option<real>>>)
    | Failed(symbol: string, failure: Failure)

  /** The outcome for one symbol, on its own. */
  function AnalyzeSymbol(symbol: string, selected: seq<string>, download: string -> Download,
                         sqrt: real -> real): (r: Report)
    ensures r.symbol == symbol
    ensures r.Failed? <==> FetchData(symbol, download).Err?
    ensures r.Failed? ==> r.failure == FetchData(symbol, download).error
    ensures r.Analyzed? ==>
              && r.close == download(symbol).table.close
              && |r.close| > 0
              && r.columns.Keys == download(symbol).table.columns.Keys + AddedColumns(selected)
              && WellFormed(r.close, r.columns)
  {
    if FetchData(symbol, download).Ok? then
      var table := FetchData(symbol, download).value;
      PipelineKeepsTable(table.close, table.columns, selected, sqrt);
      Analyzed(symbol, table.close, PipelineColumns(table.close, table.columns, selected, sqrt))
    else
      Failed(symbol, FetchData(symbol, download).error)
  }

  /** The body of the loop for one symbol (lines 29-40 and 85-86): fetch,
      apply the selected indicators to a fresh table, or catch the failure. */
  method AnalyzeOne(symbol: string, selected: seq<string>, download: string -> Download,
                    sqrt: real -> real) returns (report: Report)
    ensures report == AnalyzeSymbol(symbol, selected, download, sqrt)
    ensures report.symbol == symbol
    ensures report.Failed? <==> FetchData(symbol, download).Err?
  {
    var fetched := FetchData(symbol, download);
    match fetched
    case Err(failure) =>
      report := Failed(symbol, failure);
    case Ok(table) =>
      var df := new Frame(table.close, table.columns);
      ApplyIndicators(df, selected, sqrt);
      report := Analyzed(symbol, df.close, df.columns);
  }

  /** The "Analyze" handler: one report per parsed symbol, in order; a
      failure on one symbol is caught, reported for that symbol alone, and
      the loop moves on to the next. */
  method Analyze(symbolsInput: string, selected: seq<string>, download: string -> Download,
                 sqrt: real -> real) returns (reports: seq<Report>)
    ensures |reports| == |ParseSymbols(symbolsInput)|
    ensures forall k :: 0 <= k < |reports| ==>
              && reports[k] == AnalyzeSymbol(ParseSymbols(symbolsInput)[k], selected, download, sqrt)
              && reports[k].symbol == ParseSymbols(symbolsInput)[k]
              && (reports[k].Failed? <==> FetchData(ParseSymbols(symbolsInput)[k], download).Err?)
  {
    var symbols := ParseSymbols(symbolsInput);
    reports := [];
    for i := 0 to |symbols|
      invariant |reports| == i
      invariant forall k :: 0 <= k < i ==> reports[k] == AnalyzeSymbol(symbols[k], selected, download, sqrt)
    {
      var report := AnalyzeOne(symbols[i], selected, download, sqrt);
      reports := reports + [report];
    }
  }
}
