/**
 * The `selected_contracts.txt` file: the loader of the futures bot reads one FUT contract
 * per data line, and the selection tools write two comment lines followed by one
 * `symbol,month,exchange,currency,multiplier` line per contract.
 */
module ContractFile {
  import opened Wrappers
  import opened Seqs
  import opened Text
  import opened Broker
  import Config

  /**
   * Opening a text file for reading: missing, failing with an OSError while read, read but
   * not decodable as text (a UnicodeDecodeError, which is a ValueError), or its whole content.
   */
  datatype FileRead = Missing | Unreadable(error: string) | Undecodable(error: string) | Content(text: string)

  /** The contract the loader builds when no line of the file yields one. */
  function DefaultContract(): Contract
  {
    FutureContract(Config.ContractSymbol, Config.ContractMonth, Config.ContractExchange, Config.ContractCurrency)
  }

  /**
   * The contract one line of the file describes: none for a blank line, a comment or a line
   * with fewer than four comma fields; the multiplier is set only when a fifth field exists.
   */
  function ParseLine(raw: string): (r: Option<Contract>)
    ensures r.Some? ==> Strip(raw) != "" && !StartsWith(Strip(raw), "#") && |Split(Strip(raw), ',')| >= 4
    ensures r.Some? ==> r.value.secType == "FUT" && r.value.strike == 0.0 && r.value.right == ""
                        && r.value.tradingClass == ""
  {
    var line := Strip(raw);
    if line == "" || StartsWith(line, "#") then None
    else
      var parts := Split(line, ',');
      if |parts| < 4 then None
      else Some(Contract("FUT", parts[0], parts[1], 0.0, "", if |parts| > 4 then parts[4] else "",
                         parts[2], parts[3], ""))
  }

  /** The contracts of the surviving lines, in file order. */
  function ParseContractLines(lines: seq<string>): (r: seq<Contract>)
    ensures |r| <= |lines|
  {
    if lines == [] then []
    else
      var init := ParseContractLines(lines[..|lines| - 1]);
      match ParseLine(lines[|lines| - 1])
      case None => init
      case Some(c) => init + [c]
  }

  /** Lines are read independently: the contracts of two blocks of lines are the contracts of each, in order. */
  lemma {:induction false} ParseContractLinesAppend(a: seq<string>, b: seq<string>)
    ensures ParseContractLines(a + b) == ParseContractLines(a) + ParseContractLines(b)
    decreases |b|
  {
    if b == [] {
      assert a + b == a;
    } else {
      var b0, l := b[..|b| - 1], b[|b| - 1];
      var x := if ParseLine(l).Some? then [ParseLine(l).value] else [];
      ParseContractLinesAppend(a, b0);
      LastSplit(b);
      AppendAssoc(a, b0, [l]);
      ParseContractLinesSnoc(a + b0, l);
      ParseContractLinesSnoc(b0, l);
      AppendAssoc(ParseContractLines(a), ParseContractLines(b0), x);
    }
  }

  lemma ParseContractLinesSnoc(lines: seq<string>, l: string)
    ensures ParseContractLines(lines + [l])
         == ParseContractLines(lines) + (if ParseLine(l).Some? then [ParseLine(l).value] else [])
  {
    assert (lines + [l])[..|lines|] == lines;
  }

  /** What `load_selected_contracts` returns: the file's contracts, or the default one. */
  function SelectedOrDefault(file: FileRead): (r: seq<Contract>)
    ensures |r| > 0
    ensures file.Content? && ParseContractLines(FileLines(file.text)) != [] ==>
      r == ParseContractLines(FileLines(file.text))
    ensures !file.Content? || ParseContractLines(FileLines(file.text)) == [] ==> r == [DefaultContract()]
  {
    if file.Content? && ParseContractLines(FileLines(file.text)) != [] then
      ParseContractLines(FileLines(file.text))
    else [DefaultContract()]
  }

  /** `load_selected_contracts`: reads the file line by line, appending each contract it describes. */
  method LoadSelectedContracts(file: FileRead) returns (cs: seq<Contract>)
    ensures cs == SelectedOrDefault(file)
  {
    if file.Content? {
      var lines := FileLines(file.text);
      var found: seq<Contract> := [];
      var i := 0;
      while i < |lines|
        invariant 0 <= i <= |lines|
        invariant found == ParseContractLines(lines[..i])
      {
        var line := Strip(lines[i]);
        PrefixSnoc(lines, i);
        ParseContractLinesSnoc(lines[..i], lines[i]);
        if line != "" && !StartsWith(line, "#") {
          var parts := Split(line, ',');
          if |parts| >= 4 {
            var c := Contract("FUT", parts[0], parts[1], 0.0, "", "", parts[2], parts[3], "");
            if |parts| > 4 {
              c := c.(multiplier := parts[4]);
            }
            found := found + [c];
          }
        }
        i := i + 1;
      }
      assert lines[..i] == lines;
      if found != [] {
        return found;
      }
    }
    cs := [DefaultContract()];
  }

  // ---------------------------------------------------------------- writing

  /** The two comment lines that open a saved file, without their newlines. */
  const TitleComment: string := "# Selected ES Contracts for Trading"
  const FormatComment: string := "# Format: symbol," + "month,exchange,currency,multiplier"

  const HeaderLines: seq<string> := [TitleComment + "\n", FormatComment + "\n"]

  /** The data line written for one contract. */
  function ContractLine(c: Contract): string
  {
    c.symbol + "," + c.month + "," + c.exchange + "," + c.currency + "," + c.multiplier + "\n"
  }

  function DataLines(cs: seq<Contract>): (r: seq<string>)
    ensures |r| == |cs| && forall i | 0 <= i < |cs| :: r[i] == ContractLine(cs[i])
  {
    seq(|cs|, i requires 0 <= i < |cs| => ContractLine(cs[i]))
  }


  lemma DataLinesSnoc(cs: seq<Contract>, c: Contract)
    ensures DataLines(cs + [c]) == DataLines(cs) + [ContractLine(c)]
  {
  }

  /** The text of a sequence of written lines. */
  function Concat(ls: seq<string>): string
  {
    if ls == [] then "" else ls[0] + Concat(ls[1..])
  }

  lemma {:induction false} ConcatSnoc(ls: seq<string>, l: string)
    ensures Concat(ls + [l]) == Concat(ls) + l
  {
    if ls == [] {
      assert [] + [l] == [l];
      assert [l][1..] == [];
    } else {
      assert (ls + [l])[1..] == ls[1..] + [l];
      ConcatSnoc(ls[1..], l);
    }
  }

  /** The content `save_contract_selection` writes. */
  function SelectionFile(cs: seq<Contract>): string
  {
    Concat(HeaderLines + DataLines(cs))
  }

  /** A field that survives a write and a read: no comma, no newline, no whitespace at either end. */
  predicate Plain(f: string)
  {
    ',' !in f && '\n' !in f && (f == [] || (!IsSpace(f[0]) && !IsSpace(f[|f| - 1])))
  }

  predicate Writable(c: Contract)
  {
    Plain(c.symbol) && Plain(c.month) && Plain(c.exchange) && Plain(c.currency) && Plain(c.multiplier)
    && !StartsWith(c.symbol, "#")
  }

  /** The contract the loader builds from the line written for `c`: its five fields on a FUT contract. */
  function Reloaded(c: Contract): (r: Contract)
    ensures r.secType == "FUT" && r.symbol == c.symbol && r.month == c.month && r.exchange == c.exchange
            && r.currency == c.currency && r.multiplier == c.multiplier
  {
    FutureContract(c.symbol, c.month, c.exchange, c.currency).(multiplier := c.multiplier)
  }

  /** Each line in a list that ends in its only newline is one line of the file. */
  lemma {:induction false} FileLinesConcat(ls: seq<string>)
    requires forall i | 0 <= i < |ls| :: EndsLine(ls[i])
    ensures FileLines(Concat(ls)) == ls
  {
    if ls != [] {
      var a := ls[0][..|ls[0]| - 1];
      assert ls[0] == a + "\n";
      FileLinesConcat(ls[1..]);
      FileLinesCons(a, Concat(ls[1..]));
      assert [ls[0]] + ls[1..] == ls;
    }
  }

  /** The five fields of a contract's data line. */
  function Fields(c: Contract): seq<string>
  {
    [c.symbol, c.month, c.exchange, c.currency, c.multiplier]
  }

  /** The body of a data line is its fields joined by commas. */
  lemma LineIsJoin(c: Contract)
    ensures Join(Fields(c), ',') == c.symbol + "," + c.month + "," + c.exchange + "," + c.currency + "," + c.multiplier
  {
    var p := Fields(c);
    assert Join(p[4..], ',') == c.multiplier;
    assert p[3..][1..] == p[4..];
    assert Join(p[3..], ',') == c.currency + "," + c.multiplier;
    assert p[2..][1..] == p[3..];
    assert Join(p[2..], ',') == c.exchange + "," + c.currency + "," + c.multiplier;
    assert p[1..][1..] == p[2..];
    assert Join(p[1..], ',') == c.month + "," + c.exchange + "," + c.currency + "," + c.multiplier;
    assert Join(p, ',') == c.symbol + "," + Join(p[1..], ',');
  }

  /** A data line ends in its only newline, and its body has no whitespace at either end and is not a comment. */
  lemma LineShape(c: Contract)
    requires Writable(c)
    ensures var body := Join(Fields(c), ',');
      ContractLine(c) == body + "\n" && '\n' !in body && body != []
      && !IsSpace(body[0]) && !IsSpace(body[|body| - 1]) && !StartsWith(body, "#")
  {
    LineIsJoin(c);
    var body := c.symbol + "," + c.month + "," + c.exchange + "," + c.currency + "," + c.multiplier;
    assert body[|c.symbol|] == ',';
    assert body[|body| - 1] == (if c.multiplier == [] then ',' else c.multiplier[|c.multiplier| - 1]);
    assert body[0] == (if c.symbol == [] then ',' else c.symbol[0]);
    if c.symbol != [] {
      assert c.symbol[..1] == body[..1];
    }
  }

  lemma FieldsHaveNoComma(c: Contract)
    requires Writable(c)
    ensures NoSeparator(Fields(c), ',')
  {
    var p := Fields(c);
    assert p[0] == c.symbol && p[1] == c.month && p[2] == c.exchange && p[3] == c.currency && p[4] == c.multiplier;
    forall i | 0 <= i < |p|
      ensures ',' !in p[i]
    {
      assert i == 0 || i == 1 || i == 2 || i == 3 || i == 4;
    }
  }

  /** A line whose stripped text is a five-field data line yields the FUT contract of those fields. */
  lemma ParseFiveFields(raw: string, line: string, parts: seq<string>)
    requires Strip(raw) == line && line != [] && !StartsWith(line, "#")
    requires Split(line, ',') == parts && |parts| == 5
    ensures ParseLine(raw) == Some(Contract("FUT", parts[0], parts[1], 0.0, "", parts[4], parts[2], parts[3], ""))
  {
  }

  /** The loader reads the line written for a writable contract back as that contract's five fields. */
  lemma ReadWrittenLine(c: Contract)
    requires Writable(c)
    ensures ParseLine(ContractLine(c)) == Some(Reloaded(c))
  {
    LineShape(c);
    var body := Join(Fields(c), ',');
    StripLine(body);
    FieldsHaveNoComma(c);
    SplitJoin(Fields(c), ',');
    ParseFiveFields(ContractLine(c), body, Fields(c));
  }

  /** When every line yields a contract, the lines yield exactly those contracts, in order. */
  lemma {:induction false} ReadEveryLine(ls: seq<string>, rs: seq<Contract>)
    requires |ls| == |rs| && forall i | 0 <= i < |ls| :: ParseLine(ls[i]) == Some(rs[i])
    ensures ParseContractLines(ls) == rs
  {
    if ls != [] {
      var n := |ls| - 1;
      ReadEveryLine(ls[..n], rs[..n]);
      LastSplit(ls);
      LastSplit(rs);
      ParseContractLinesSnoc(ls[..n], ls[n]);
    }
  }

  lemma ReadDataLines(cs: seq<Contract>)
    requires forall i | 0 <= i < |cs| :: Writable(cs[i])
    ensures var r := ParseContractLines(DataLines(cs));
      |r| == |cs| && forall i | 0 <= i < |cs| :: r[i] == Reloaded(cs[i])
  {
    var ls := DataLines(cs);
    var rs := seq(|cs|, i requires 0 <= i < |cs| => Reloaded(cs[i]));
    forall i | 0 <= i < |ls|
      ensures ParseLine(ls[i]) == Some(rs[i])
    {
      ReadWrittenLine(cs[i]);
    }
    ReadEveryLine(ls, rs);
  }

  /** A line starting with `#` yields no contract. */
  lemma CommentLine(h: string)
    requires h != [] && h[0] == '#' && !IsSpace(h[|h| - 1])
    ensures ParseLine(h + "\n") == None
  {
    StripLine(h);
    assert StartsWith(h, "#");
  }

  lemma TitleEndsLine()
    ensures EndsLine(TitleComment + "\n")
  {
    EndsLineOf(TitleComment);
  }

  lemma FormatEndsLine()
    ensures EndsLine(FormatComment + "\n")
  {
    EndsLineOf(FormatComment);
  }

  /** The two header lines are comments. */
  lemma HeaderIsComment()
    ensures ParseContractLines(HeaderLines) == []
  {
    var h0 := TitleComment;
    var h1 := FormatComment;
    assert h0[0] == '#' && h0[|h0| - 1] == 'g';
    assert h1[0] == '#' && h1[|h1| - 1] == 'r';
    CommentLine(h0);
    CommentLine(h1);
    assert HeaderLines == [] + [h0 + "\n"] + [h1 + "\n"];
    ParseContractLinesSnoc([], h0 + "\n");
    ParseContractLinesSnoc([] + [h0 + "\n"], h1 + "\n");
  }

  /** The two header lines, one more comment line and the line of one writable contract. */
  function CommentedLines(comment: string, c: Contract): seq<string>
  {
    HeaderLines + [comment + "\n", ContractLine(c)]
  }

  lemma CommentedLinesEnd(comment: string, c: Contract)
    requires '\n' !in comment && Writable(c)
    ensures forall i | 0 <= i < |CommentedLines(comment, c)| :: EndsLine(CommentedLines(comment, c)[i])
  {
    var ls := CommentedLines(comment, c);
    LineShape(c);
    EndsLineOf(Join(Fields(c), ','));
    EndsLineOf(comment);
    TitleEndsLine();
    FormatEndsLine();
    assert ls[0] == TitleComment + "\n" && ls[1] == FormatComment + "\n";
    assert ls[2] == comment + "\n" && ls[3] == ContractLine(c) && |ls| == 4;
  }

  /** Those four lines each end in their only newline, so the file reads back as them. */
  lemma CommentedFileLines(comment: string, c: Contract)
    requires '\n' !in comment && Writable(c)
    ensures FileLines(Concat(CommentedLines(comment, c))) == CommentedLines(comment, c)
  {
    CommentedLinesEnd(comment, c);
    FileLinesConcat(CommentedLines(comment, c));
  }

  /** Of those four lines only the contract's line yields a contract. */
  lemma CommentedParse(comment: string, c: Contract)
    requires comment != [] && comment[0] == '#' && !IsSpace(comment[|comment| - 1]) && Writable(c)
    ensures ParseContractLines(CommentedLines(comment, c)) == [Reloaded(c)]
  {
    var h := comment + "\n";
    var data := ContractLine(c);
    ParseContractLinesAppend(HeaderLines, [h, data]);
    HeaderIsComment();
    CommentLine(comment);
    ReadWrittenLine(c);
    ParseContractLinesSnoc([], h);
    assert [h, data] == [] + [h] + [data];
    ParseContractLinesSnoc([] + [h], data);
  }

  /** Every line of a saved file ends in its only newline. */
  lemma SavedLinesShape(cs: seq<Contract>)
    requires forall i | 0 <= i < |cs| :: Writable(cs[i])
    ensures var ls := HeaderLines + DataLines(cs);
      forall i | 0 <= i < |ls| :: EndsLine(ls[i])
  {
    var ls := HeaderLines + DataLines(cs);
    TitleEndsLine();
    FormatEndsLine();
    forall i | 0 <= i < |ls|
      ensures EndsLine(ls[i])
    {
      if i >= 2 {
        LineShape(cs[i - 2]);
        EndsLineOf(Join(Fields(cs[i - 2]), ','));
        assert ls[i] == DataLines(cs)[i - 2];
      }
    }
  }

  /**
   * Round trip: loading the file saved for writable contracts gives one FUT contract per
   * saved contract, in the same order, with the same five fields.
   */
  lemma SaveLoadRoundTrip(cs: seq<Contract>)
    requires forall i | 0 <= i < |cs| :: Writable(cs[i])
    ensures var loaded := ParseContractLines(FileLines(SelectionFile(cs)));
      |loaded| == |cs| && forall i | 0 <= i < |cs| :: loaded[i] == Reloaded(cs[i])
  {
    var ls := HeaderLines + DataLines(cs);
    SavedLinesShape(cs);
    FileLinesConcat(ls);
    assert FileLines(SelectionFile(cs)) == ls;
    ParseContractLinesAppend(HeaderLines, DataLines(cs));
    HeaderIsComment();
    assert ParseContractLines(ls) == [] + ParseContractLines(DataLines(cs));
    ReadDataLines(cs);
  }
}
