/** The line-driven reader of the Bravo SNIa yield file
    (flexCE/calc_yields/bravo_yields.py, lines 34-53).

    A line containing `DDT` is a header `<model> <metallicity>`; every other
    line is a row of `symbol: yield` items separated by three spaces.  The
    reader fills `data[model][metallicity]` with the yields of the last row
    under a header and keeps the symbols of the very first row as the
    element list `bravo_el`.  Float parsing is an opaque parameter.

    Reading is split in two: `Classify` says what one line is (the string
    work), and `Apply` says what that does to the script's state. */
module BravoParse {
  import opened Wrappers
  import opened PyStr

  /** What `data[model][metallicity]` holds: the `{}` a first header puts
      there, or the yields of a row. */
  datatype Slot = Placeholder | Yields(ylds: seq<real>)

  type Table = map<string, map<string, Slot>>

  /** The `model_name, model_metallicity` pair set by the last header. */
  datatype Current = Current(model: string, metallicity: string)

  /** The script's state between two lines: `data`, `bravo_el` (`None`
      until the first row) and the current header, if one was read. */
  datatype ParseState = ParseState(data: Table, bravoEl: Option<seq<string>>, current: Option<Current>)

  /** The symbols and yields of one row, in line order. */
  datatype Row = Row(syms: seq<string>, ylds: seq<real>)

  /** Why the script stops: a header that is not two tokens, an item that
      does not split into two on `': '` or whose yield `float` refuses
      (each a ValueError), or a row before any header (a NameError). */
  datatype ParseError = HeaderArity | ItemArity | BadFloat | NoHeader

  /** A line of the file: a header with its whitespace tokens, or a row
      with the outcome of parsing its items. */
  datatype LineKind = Header(tokens: seq<string>) | Data(row: Result<Row, ParseError>)

  /** Parses a yield such as `1.23E-02`, as Python's `float` does. */
  type FloatParser = string -> Option<real>

  const HeaderMark := "DDT"
  const ItemSeparator := "   "
  const SymbolSeparator := ": "

  const Init := ParseState(map[], None, None)

  /** Every header read so far has an entry in `data`. */
  ghost predicate Inv(st: ParseState) {
    st.current.Some? ==> st.current.value.model in st.data
  }

  predicate IsHeader(line: string) {
    Contains(line, HeaderMark)
  }

  /** `line.strip().split()`. */
  function HeaderTokens(line: string): seq<string> {
    SplitWhitespace(Strip(line))
  }

  /** One `sym: yld` item. */
  function ParseItem(item: string, parse: FloatParser): (r: Result<(string, real), ParseError>)
    ensures r.Success? <==> |SplitOn(item, SymbolSeparator)| == 2 && parse(SplitOn(item, SymbolSeparator)[1]).Some?
    ensures r.Success? ==> ItemHolds(item, r.value.0, r.value.1, parse)
  {
    var pieces := SplitOn(item, SymbolSeparator);
    if |pieces| != 2 then Failure(ItemArity)
    else match parse(pieces[1])
      case None => Failure(BadFloat)
      case Some(y) => Success((pieces[0], y))
  }

  /** `item` is `sym + ': ' + text` with `float(text) == yld`. */
  predicate ItemHolds(item: string, sym: string, yld: real, parse: FloatParser) {
    var pieces := SplitOn(item, SymbolSeparator);
    |pieces| == 2 && pieces[0] == sym && parse(pieces[1]) == Some(yld)
  }

  /** The items of a row, parsed left to right; the first bad item decides
      the error. */
  function ParseItems(items: seq<string>, parse: FloatParser): (r: Result<Row, ParseError>)
    ensures r.Success? ==> |r.value.syms| == |items| && |r.value.ylds| == |items|
    ensures r.Success? ==> forall k :: 0 <= k < |items| ==> ItemHolds(items[k], r.value.syms[k], r.value.ylds[k], parse)
    ensures r.Success? <==> forall k :: 0 <= k < |items| ==> ParseItem(items[k], parse).Success?
  {
    if items == [] then Success(Row([], []))
    else
      var front := items[..|items| - 1];
      assert forall k :: 0 <= k < |front| ==> front[k] == items[k];
      match ParseItems(front, parse)
      case Failure(e) => Failure(e)
      case Success(row) =>
        match ParseItem(items[|items| - 1], parse)
        case Failure(e) => Failure(e)
        case Success(p) => Success(Row(row.syms + [p.0], row.ylds + [p.1]))
  }

  /** A failure among the first `k` items is the failure of the whole row. */
  lemma {:induction false} ParseItemsPrefixFailure(items: seq<string>, k: nat, parse: FloatParser)
    requires k <= |items|
    requires ParseItems(items[..k], parse).Failure?
    ensures ParseItems(items, parse) == ParseItems(items[..k], parse)
    decreases |items| - k
  {
    if k < |items| {
      assert items[..k + 1][..k] == items[..k];
      ParseItemsPrefixFailure(items, k + 1, parse);
    } else {
      assert items[..k] == items;
    }
  }

  /** `line.strip().split('   ')`, each item split on `': '`. */
  function RowOf(line: string, parse: FloatParser): Result<Row, ParseError> {
    ParseItems(SplitOn(Strip(line), ItemSeparator), parse)
  }

  /** A line containing `DDT` is a header, split on whitespace; any other
      line is a row. */
  function Classify(line: string, parse: FloatParser): LineKind {
    if IsHeader(line) then Header(HeaderTokens(line)) else Data(RowOf(line, parse))
  }

  /** A line is a header exactly when `DDT` occurs in it. */
  lemma ClassifyHeader(line: string, parse: FloatParser)
    ensures Classify(line, parse).Header? <==> exists j :: OccursAt(line, HeaderMark, j)
  {
  }

  function Classified(lines: seq<string>, parse: FloatParser): (kinds: seq<LineKind>)
    ensures |kinds| == |lines|
    ensures forall i :: 0 <= i < |lines| ==> kinds[i] == Classify(lines[i], parse)
  {
    seq(|lines|, i requires 0 <= i < |lines| => Classify(lines[i], parse))
  }

  /** The effect of one line on the script's state. */
  function Apply(st: ParseState, kind: LineKind): (r: Result<ParseState, ParseError>)
    requires Inv(st)
    ensures r.Success? ==> Inv(r.value)
  {
    match kind
    case Header(tokens) =>
      if |tokens| != 2 then Failure(HeaderArity)
      else
        var model, met := tokens[0], tokens[1];
        var data := if model in st.data then st.data else st.data[model := map[met := Placeholder]];
        Success(ParseState(data, st.bravoEl, Some(Current(model, met))))
    case Data(row) =>
      match row
      case Failure(e) => Failure(e)
      case Success(row) =>
        var el := if st.bravoEl.None? then Some(row.syms) else st.bravoEl;
        match st.current
        case None => Failure(NoHeader)
        case Some(c) =>
          var entry := st.data[c.model][c.metallicity := Yields(row.ylds)];
          Success(ParseState(st.data[c.model := entry], el, st.current))
  }

  /** A classified file read line by line from the empty state, stopping at
      the first line that raises. */
  function ReadKinds(kinds: seq<LineKind>): (r: Result<ParseState, ParseError>)
    ensures r.Success? ==> Inv(r.value)
  {
    if kinds == [] then Success(Init)
    else
      match ReadKinds(kinds[..|kinds| - 1])
      case Failure(e) => Failure(e)
      case Success(st) => Apply(st, kinds[|kinds| - 1])
  }

  /** The whole yield file. */
  function Read(lines: seq<string>, parse: FloatParser): Result<ParseState, ParseError> {
    ReadKinds(Classified(lines, parse))
  }

  // ---- one line ----

  /** A header must have exactly two tokens, which become the current
      model and metallicity.  The first header of a model creates its
      entry with a `{}` slot for the metallicity; a later header of a model
      already seen leaves `data` as it is. */
  lemma HeaderEffect(st: ParseState, tokens: seq<string>)
    requires Inv(st)
    ensures Apply(st, Header(tokens)).Success? <==> |tokens| == 2
    ensures |tokens| != 2 ==> Apply(st, Header(tokens)) == Failure(HeaderArity)
    ensures |tokens| == 2 ==> Apply(st, Header(tokens)).value.current == Some(Current(tokens[0], tokens[1]))
    ensures |tokens| == 2 ==> Apply(st, Header(tokens)).value.bravoEl == st.bravoEl
    ensures |tokens| == 2 && tokens[0] in st.data ==> Apply(st, Header(tokens)).value.data == st.data
    ensures |tokens| == 2 && tokens[0] !in st.data ==>
      Apply(st, Header(tokens)).value.data == st.data[tokens[0] := map[tokens[1] := Placeholder]]
  {
  }

  /** A row read under a header replaces that model and metallicity's
      entry by its yields, whatever was there; nothing else in `data`
      changes, and `bravo_el` is set only if it was not set yet.  A row
      before any header raises. */
  lemma RowEffect(st: ParseState, row: Row)
    requires Inv(st)
    ensures Apply(st, Data(Success(row))).Success? <==> st.current.Some?
    ensures st.current.None? ==> Apply(st, Data(Success(row))) == Failure(NoHeader)
    ensures st.current.Some? ==>
      var c, next := st.current.value, Apply(st, Data(Success(row))).value;
      && next.current == st.current
      && next.bravoEl == (if st.bravoEl.None? then Some(row.syms) else st.bravoEl)
      && next.data.Keys == st.data.Keys
      && next.data[c.model] == st.data[c.model][c.metallicity := Yields(row.ylds)]
      && forall m :: m in st.data && m != c.model ==> next.data[m] == st.data[m]
  {
  }

  /** A row whose items do not parse raises its own error, before the
      missing-header test is reached: the row is split and its yields
      converted before `data[model][met]` is looked up. */
  lemma BadRowEffect(st: ParseState, e: ParseError)
    requires Inv(st)
    ensures Apply(st, Data(Failure(e))) == Failure(e)
  {
  }

  // ---- the whole file ----

  /** A line that raises ends the reading: nothing after it matters. */
  lemma {:induction false} ReadPrefixFailure(kinds: seq<LineKind>, k: nat)
    requires k <= |kinds|
    requires ReadKinds(kinds[..k]).Failure?
    ensures ReadKinds(kinds) == ReadKinds(kinds[..k])
    decreases |kinds| - k
  {
    if k < |kinds| {
      assert kinds[..k + 1][..k] == kinds[..k];
      ReadPrefixFailure(kinds, k + 1);
    } else {
      assert kinds[..k] == kinds;
    }
  }

  /** Reading a file that succeeds also succeeds on each of its prefixes. */
  lemma ReadPrefixSuccess(kinds: seq<LineKind>, k: nat)
    requires k <= |kinds| && ReadKinds(kinds).Success?
    ensures ReadKinds(kinds[..k]).Success?
  {
    if ReadKinds(kinds[..k]).Failure? {
      ReadPrefixFailure(kinds, k);
    }
  }

  /** Index of the first row (non-header line), if there is one. */
  function FirstRow(kinds: seq<LineKind>): (r: Option<nat>)
    ensures r.Some? ==> r.value < |kinds| && kinds[r.value].Data?
    ensures r.Some? ==> forall j :: 0 <= j < r.value ==> kinds[j].Header?
    ensures r.None? ==> forall j :: 0 <= j < |kinds| ==> kinds[j].Header?
  {
    if kinds == [] then None
    else
      var front := kinds[..|kinds| - 1];
      assert forall j :: 0 <= j < |front| ==> front[j] == kinds[j];
      match FirstRow(front)
      case Some(i) => Some(i)
      case None => if kinds[|kinds| - 1].Header? then None else Some(|kinds| - 1)
  }

  /** `bravo_el` is the symbol list of the first row of the file, and
      stays unset while only headers have been read. */
  lemma {:induction false} ElementsOfFirstRow(kinds: seq<LineKind>)
    requires ReadKinds(kinds).Success?
    ensures FirstRow(kinds).None? ==> ReadKinds(kinds).value.bravoEl.None?
    ensures FirstRow(kinds).Some? ==>
      var row := kinds[FirstRow(kinds).value].row;
      row.Success? && ReadKinds(kinds).value.bravoEl == Some(row.value.syms)
  {
    if kinds != [] {
      var front := kinds[..|kinds| - 1];
      assert forall j :: 0 <= j < |front| ==> front[j] == kinds[j];
      ElementsOfFirstRow(front);
    }
  }

  /** Once set, `bravo_el` is never changed by a later line. */
  lemma {:induction false} ElementsFixed(kinds: seq<LineKind>, k: nat)
    requires k <= |kinds| && ReadKinds(kinds).Success?
    requires ReadKinds(kinds[..k]).Success? && ReadKinds(kinds[..k]).value.bravoEl.Some?
    ensures ReadKinds(kinds).value.bravoEl == ReadKinds(kinds[..k]).value.bravoEl
  {
    if k < |kinds| {
      var front := kinds[..|kinds| - 1];
      assert front[..k] == kinds[..k];
      ElementsFixed(front, k);
    } else {
      assert kinds[..k] == kinds;
    }
  }

  /** `data` only grows: no line removes a model or a metallicity entry
      that an earlier line created. */
  lemma {:induction false} ReadNeverRemoves(kinds: seq<LineKind>, k: nat)
    requires k <= |kinds| && ReadKinds(kinds).Success?
    requires ReadKinds(kinds[..k]).Success?
    ensures var before, after := ReadKinds(kinds[..k]).value.data, ReadKinds(kinds).value.data;
      forall m :: m in before ==> m in after && before[m].Keys <= after[m].Keys
  {
    if k < |kinds| {
      var front := kinds[..|kinds| - 1];
      assert front[..k] == kinds[..k];
      ReadNeverRemoves(front, k);
    } else {
      assert kinds[..k] == kinds;
    }
  }

  /** Line `j` is a row read while `c` is the current header. */
  predicate WritesTo(kinds: seq<LineKind>, j: nat, c: Current) {
    j < |kinds| && kinds[j].Data? &&
    ReadKinds(kinds[..j]).Success? && ReadKinds(kinds[..j]).value.current == Some(c)
  }

  /** The last row read under a header decides that model and
      metallicity's entry: headers, and rows under other headers, that come
      after it leave the entry alone. */
  lemma {:induction false} LastRowWins(kinds: seq<LineKind>, k: nat, c: Current)
    requires ReadKinds(kinds).Success?
    requires WritesTo(kinds, k, c)
    requires forall j :: k < j < |kinds| ==> !WritesTo(kinds, j, c)
    ensures kinds[k].row.Success?
    ensures c.model in ReadKinds(kinds).value.data
    ensures c.metallicity in ReadKinds(kinds).value.data[c.model]
    ensures ReadKinds(kinds).value.data[c.model][c.metallicity] == Yields(kinds[k].row.value.ylds)
  {
    var n := |kinds|;
    var front := kinds[..n - 1];
    if k < n - 1 {
      assert forall j :: 0 <= j < |front| ==> front[..j] == kinds[..j] && front[j] == kinds[j];
      assert WritesTo(front, k, c);
      forall j | k < j < |front| ensures !WritesTo(front, j, c) {
        assert !WritesTo(kinds, j, c);
      }
      LastRowWins(front, k, c);
      assert !WritesTo(kinds, n - 1, c);
    } else {
      assert kinds[..k] == front;
    }
  }

  // ---- the string side ----

  /** A header written as `model + ' ' + metallicity` (two whitespace-free
      tokens, the model naming a `DDT` model) is classified as a header
      with exactly those two tokens. */
  lemma HeaderLine(model: string, met: string, parse: FloatParser)
    requires IsToken(model) && IsToken(met) && Contains(model, HeaderMark)
    ensures Classify(model + " " + met, parse) == Header([model, met])
  {
    var line := model + " " + met;
    ContainsExtends(model, " " + met, HeaderMark);
    assert line == model + (" " + met);
    HeaderTokensOf(model, met);
  }

  lemma HeaderTokensOf(model: string, met: string)
    requires IsToken(model) && IsToken(met)
    ensures HeaderTokens(model + " " + met) == [model, met]
  {
    var line := model + " " + met;
    assert line == Join([model, met], " ");
    StripUnpadded(line);
    SplitWhitespaceJoin([model, met]);
  }

  /** The module-level loop of the script over the lines of
      `DDT_Yields_Z.dat`. */
  method ReadYields(lines: seq<string>, parse: FloatParser) returns (r: Result<ParseState, ParseError>)
    ensures r == Read(lines, parse)
  {
    ghost var kinds := Classified(lines, parse);
    var st := Init;
    var i := 0;
    while i < |lines|
      invariant 0 <= i <= |lines|
      invariant ReadKinds(kinds[..i]) == Success(st)
    {
      ReadStep(kinds, i, st);
      var next := ReadLine(st, lines[i], parse, kinds[i]);
      assert next == ReadKinds(kinds[..i + 1]);
      if next.Failure? {
        ReadPrefixFailure(kinds, i + 1);
        return next;
      }
      st := next.value;
      i := i + 1;
    }
    assert kinds[..i] == kinds;
    r := Success(st);
  }

  /** Reading one more line applies it to the state reached so far. */
  lemma ReadStep(kinds: seq<LineKind>, i: nat, st: ParseState)
    requires i < |kinds| && ReadKinds(kinds[..i]) == Success(st)
    ensures Inv(st) && ReadKinds(kinds[..i + 1]) == Apply(st, kinds[i])
  {
    assert kinds[..i + 1][..i] == kinds[..i];
  }

  /** One pass of that loop: `data`, `bravo_el` and the current header
      after line `line`, or the exception the line raises. */
  method ReadLine(st: ParseState, line: string, parse: FloatParser, ghost kind: LineKind) returns (r: Result<ParseState, ParseError>)
    requires Inv(st) && kind == Classify(line, parse)
    ensures r == Apply(st, kind)
  {
    var data, bravoEl, current := st.data, st.bravoEl, st.current;
    if Contains(line, HeaderMark) {
      var tokens := SplitWhitespace(Strip(line));
      HeaderEffect(st, tokens);
      if |tokens| != 2 {
        return Failure(HeaderArity);
      }
      var model, met := tokens[0], tokens[1];
      if model !in data {
        // `data[model_name] = {}`, then `data[model_name][model_metallicity] = {}`
        data := data[model := map[met := Placeholder]];
      }
      current := Some(Current(model, met));
    } else {
      var parsed := ReadRow(SplitOn(Strip(line), ItemSeparator), parse);
      if parsed.Failure? {
        return Failure(parsed.error);
      }
      RowEffect(st, parsed.value);
      var tmpSym, tmpYld := parsed.value.syms, parsed.value.ylds;
      if bravoEl.None? {
        bravoEl := Some(tmpSym);
      }
      if current.None? {
        return Failure(NoHeader);
      }
      var c := current.value;
      data := data[c.model := data[c.model][c.metallicity := Yields(tmpYld)]];
    }
    r := Success(ParseState(data, bravoEl, current));
  }

  /** The inner loop of the script over the items of one row, appending
      each symbol to `tmp_sym` and each yield to `tmp_yld`. */
  method ReadRow(parsed: seq<string>, parse: FloatParser) returns (r: Result<Row, ParseError>)
    ensures r == ParseItems(parsed, parse)
  {
    var tmpSym: seq<string> := [];
    var tmpYld: seq<real> := [];
    var k := 0;
    while k < |parsed|
      invariant 0 <= k <= |parsed|
      invariant ParseItems(parsed[..k], parse) == Success(Row(tmpSym, tmpYld))
    {
      assert parsed[..k + 1][..k] == parsed[..k];
      var pieces := SplitOn(parsed[k], SymbolSeparator);
      if |pieces| != 2 {
        ParseItemsPrefixFailure(parsed, k + 1, parse);
        return Failure(ItemArity);
      }
      var yld := parse(pieces[1]);
      if yld.None? {
        ParseItemsPrefixFailure(parsed, k + 1, parse);
        return Failure(BadFloat);
      }
      tmpSym := tmpSym + [pieces[0]];
      tmpYld := tmpYld + [yld.value];
      k := k + 1;
    }
    assert parsed[..k] == parsed;
    r := Success(Row(tmpSym, tmpYld));
  }
}
