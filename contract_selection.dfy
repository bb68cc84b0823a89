/**
 * The ES contract selector: it searches the broker for the ES futures family, keeps the CME
 * listings sorted by expiry, lets the user pick some of them by 1-based index, and saves the
 * pick to `selected_contracts.txt`, pointing the default contract month of `config.py` at
 * the first pick.
 */
module ContractSelection {
  import opened Wrappers
  import opened Seqs
  import opened Text
  import opened Broker
  import opened ContractFile
  import Config
  import FuturesBot

  // ---------------------------------------------------------------- family filter and expiry sort

  /** The candidates `find_es_contracts` keeps: ES futures listed on CME. */
  predicate IsEsFuture(c: Contract)
  {
    c.symbol == "ES" && c.secType == "FUT" && c.exchange == "CME"
  }

  function ContractItself(c: Contract): Contract
  {
    c
  }

  /** The kept candidates, in the order the broker listed them. */
  function EsFutures(cs: seq<Contract>): seq<Contract>
  {
    Collect(cs, IsEsFuture, ContractItself)
  }

  /** Exactly the ES/FUT/CME candidates are kept. */
  lemma EsFuturesMembers(cs: seq<Contract>)
    ensures forall c :: c in EsFutures(cs) <==> c in cs && IsEsFuture(c)
  {
    CollectMembers(cs, IsEsFuture, ContractItself);
  }

  /** Puts `c` in front of the first contract whose month is not earlier than its own. */
  function InsertByMonth(c: Contract, s: seq<Contract>): (r: seq<Contract>)
    ensures multiset(r) == multiset(s) + multiset{c}
  {
    if s == [] then [c]
    else if LexLe(c.month, s[0].month) then [c] + s
    else
      assert s == [s[0]] + s[1..];
      [s[0]] + InsertByMonth(c, s[1..])
  }

  /**
   * `list.sort(key=lambda x: x.lastTradeDateOrContractMonth)`. Python's sort is stable, so a
   * contract listed earlier goes in front of every later one of the same month.
   */
  function SortByMonth(s: seq<Contract>): (r: seq<Contract>)
    ensures multiset(r) == multiset(s)
  {
    if s == [] then []
    else
      assert s == [s[0]] + s[1..];
      InsertByMonth(s[0], SortByMonth(s[1..]))
  }

  predicate SortedByMonth(s: seq<Contract>)
  {
    forall i, j | 0 <= i < j < |s| :: LexLe(s[i].month, s[j].month)
  }

  /** The contracts of one month, in the order they appear. */
  function SameMonth(s: seq<Contract>, m: string): (r: seq<Contract>)
  {
    if s == [] then []
    else (if s[0].month == m then [s[0]] else []) + SameMonth(s[1..], m)
  }

  lemma {:induction false} LexLeReflexive(a: string)
    ensures LexLe(a, a)
  {
    if a != [] {
      LexLeReflexive(a[1..]);
    }
  }

  /** Every contract of `s` is no earlier than `lo`. */
  lemma NoEarlierThan(lo: string, s: seq<Contract>, k: int)
    requires SortedByMonth(s) && s != [] && LexLe(lo, s[0].month) && 0 <= k < |s|
    ensures LexLe(lo, s[k].month)
  {
    if k > 0 {
      LexLeTransitive(lo, s[0].month, s[k].month);
    }
  }

  /** In front of a sorted list that starts no earlier than itself, `c` keeps it sorted. */
  lemma InsertInFront(c: Contract, s: seq<Contract>)
    requires SortedByMonth(s) && s != [] && LexLe(c.month, s[0].month)
    ensures SortedByMonth([c] + s)
  {
    var r := [c] + s;
    forall i, j | 0 <= i < j < |r|
      ensures LexLe(r[i].month, r[j].month)
    {
      if i == 0 {
        NoEarlierThan(c.month, s, j - 1);
      } else {
        assert r[i] == s[i - 1] && r[j] == s[j - 1];
      }
    }
  }

  /** A head no later than every contract of a sorted tail keeps the list sorted. */
  lemma HeadBeforeTail(h: Contract, t: seq<Contract>)
    requires SortedByMonth(t) && forall k | 0 <= k < |t| :: LexLe(h.month, t[k].month)
    ensures SortedByMonth([h] + t)
  {
    var r := [h] + t;
    forall i, j | 0 <= i < j < |r|
      ensures LexLe(r[i].month, r[j].month)
    {
      if i > 0 {
        assert r[i] == t[i - 1] && r[j] == t[j - 1];
      }
    }
  }

  /** Every contract of a list that holds `c` and the rest of `s` is no earlier than `s[0]`. */
  lemma HeadBeforeInserted(c: Contract, s: seq<Contract>, t: seq<Contract>)
    requires SortedByMonth(s) && s != [] && LexLe(s[0].month, c.month)
    requires multiset(t) == multiset(s[1..]) + multiset{c}
    ensures forall k | 0 <= k < |t| :: LexLe(s[0].month, t[k].month)
  {
    forall k | 0 <= k < |t|
      ensures LexLe(s[0].month, t[k].month)
    {
      var x := t[k];
      assert x in multiset(t);
      if x != c {
        assert x in multiset(s[1..]);
        var j :| 0 <= j < |s[1..]| && s[1..][j] == x;
        assert s[j + 1] == x;
      }
    }
  }

  lemma {:induction false} InsertKeepsSorted(c: Contract, s: seq<Contract>)
    requires SortedByMonth(s)
    ensures SortedByMonth(InsertByMonth(c, s))
  {
    if s != [] {
      if LexLe(c.month, s[0].month) {
        InsertInFront(c, s);
      } else {
        var t := InsertByMonth(c, s[1..]);
        assert SortedByMonth(s[1..]) by {
          forall i, j | 0 <= i < j < |s[1..]|
            ensures LexLe(s[1..][i].month, s[1..][j].month)
          {
            assert s[1..][i] == s[i + 1] && s[1..][j] == s[j + 1];
          }
        }
        InsertKeepsSorted(c, s[1..]);
        LexLeTotal(c.month, s[0].month);
        HeadBeforeInserted(c, s, t);
        HeadBeforeTail(s[0], t);
      }
    }
  }

  lemma {:induction false} SortIsSorted(s: seq<Contract>)
    ensures SortedByMonth(SortByMonth(s))
  {
    if s != [] {
      SortIsSorted(s[1..]);
      InsertKeepsSorted(s[0], SortByMonth(s[1..]));
    }
  }

  lemma SameMonthCons(x: Contract, t: seq<Contract>, m: string)
    ensures SameMonth([x] + t, m) == (if x.month == m then [x] else []) + SameMonth(t, m)
  {
    assert ([x] + t)[1..] == t;
  }

  /** Putting `x` in front of a run that holds `c`'s month contracts, for `x` of another month. */
  lemma SameMonthPassOver(x: Contract, c: Contract, t: seq<Contract>, rest: seq<Contract>, m: string)
    requires x.month != c.month
    requires SameMonth(t, m) == (if c.month == m then [c] else []) + rest
    ensures SameMonth([x] + t, m) == (if c.month == m then [c] else []) + ((if x.month == m then [x] else []) + rest)
  {
    SameMonthCons(x, t, m);
  }

  /** Inserting `c` adds it in front of the contracts of its own month and moves no other. */
  lemma {:induction false} InsertSameMonth(c: Contract, s: seq<Contract>, m: string)
    ensures SameMonth(InsertByMonth(c, s), m) == (if c.month == m then [c] else []) + SameMonth(s, m)
  {
    if s == [] {
      SameMonthCons(c, [], m);
    } else if LexLe(c.month, s[0].month) {
      SameMonthCons(c, s, m);
    } else {
      InsertSameMonth(c, s[1..], m);
      LexLeReflexive(c.month);
      SameMonthPassOver(s[0], c, InsertByMonth(c, s[1..]), SameMonth(s[1..], m), m);
    }
  }

  /** Stability: the contracts of each month keep the order the broker listed them in. */
  lemma {:induction false} SortIsStable(s: seq<Contract>, m: string)
    ensures SameMonth(SortByMonth(s), m) == SameMonth(s, m)
  {
    if s != [] {
      SortIsStable(s[1..], m);
      InsertSameMonth(s[0], SortByMonth(s[1..]), m);
    }
  }

  /**
   * What `find_es_contracts` returns once connected, for the family search's answer: nothing
   * when the search raised or found nothing, else the kept candidates sorted by month.
   */
  function Found(q: Qualification): seq<Contract>
  {
    if q.QualifyRaised? || q.contracts == [] then [] else SortByMonth(EsFutures(q.contracts))
  }

  /**
   * The found list is sorted by month, holds exactly the ES/FUT/CME candidates (each as often
   * as the broker listed it), and keeps the broker's order among contracts of one month.
   */
  lemma FoundSpec(q: Qualification)
    ensures SortedByMonth(Found(q))
    ensures forall c :: c in Found(q) <==> q.Qualified? && c in q.contracts && IsEsFuture(c)
    ensures q.Qualified? ==> multiset(Found(q)) == multiset(EsFutures(q.contracts))
    ensures q.Qualified? ==> forall m :: SameMonth(Found(q), m) == SameMonth(EsFutures(q.contracts), m)
  {
    if q.Qualified? {
      EsFuturesMembers(q.contracts);
      if q.contracts != [] {
        var es := EsFutures(q.contracts);
        SortIsSorted(es);
        forall m
          ensures SameMonth(Found(q), m) == SameMonth(es, m)
        {
          SortIsStable(es, m);
        }
        forall c
          ensures c in Found(q) <==> c in es
        {
          assert c in multiset(Found(q)) <==> c in multiset(es);
        }
      } else {
        assert EsFutures(q.contracts) == [];
      }
    }
  }

  // ---------------------------------------------------------------- selection parsing

  /** One answer at the prompt: a typed line, or Ctrl-C. */
  datatype Typed = Line(text: string) | Interrupt

  /** What one typed line means. */
  datatype Reading = Quit | All | Picked(picks: seq<Contract>) | Reprompt

  /** How a prompt session ends: with a selection, by Ctrl-C, or with the input exhausted. */
  datatype Outcome = Chosen(contracts: seq<Contract>) | Cancelled | InputEnded

  const QuitWord: string := "q"
  const AllWord: string := "all"

  /** `input()` at the end of the input raises EOFError with this text. */
  const EndOfInput: string := "EOF when reading a line"

  /** `int(x.strip())` for one piece: None when it is not an integer. */
  function PieceValue(piece: string): Option<int>
  {
    ParseInt(Strip(piece))
  }

  /** `[int(x.strip()) for x in pieces]`: None when any piece is not an integer. */
  function Indices(pieces: seq<string>): (r: Option<seq<int>>)
    ensures r.Some? ==> |r.value| == |pieces|
  {
    MapAll(pieces, PieceValue)
  }

  /** The indices exist exactly when every piece is an integer, and are then their values in order. */
  lemma IndicesSpec(pieces: seq<string>)
    ensures Indices(pieces).Some? <==> forall k | 0 <= k < |pieces| :: PieceValue(pieces[k]).Some?
    ensures Indices(pieces).Some? ==>
      forall k | 0 <= k < |pieces| :: PieceValue(pieces[k]) == Some(Indices(pieces).value[k])
  {
    MapAllSpec(pieces, PieceValue);
  }

  /** The contracts at 1-based positions `idxs`, in typed order; None when one is out of range. */
  function Picks(avail: seq<Contract>, idxs: seq<int>): (r: Option<seq<Contract>>)
    ensures r.Some? <==> forall k | 0 <= k < |idxs| :: 1 <= idxs[k] <= |avail|
    ensures r.Some? ==> |r.value| == |idxs| && forall k | 0 <= k < |idxs| :: r.value[k] == avail[idxs[k] - 1]
    ensures r.Some? ==> forall c :: c in r.value ==> c in avail
  {
    if idxs == [] then Some([])
    else if 1 <= idxs[0] <= |avail| then
      match Picks(avail, idxs[1..])
      case None => None
      case Some(rest) => Some([avail[idxs[0] - 1]] + rest)
    else None
  }

  /**
   * The validation loop (`for idx in indices: ... else: return selected`): the picks when
   * every index is in range, else None at the first index that is not.
   */
  method PickIndices(avail: seq<Contract>, idxs: seq<int>) returns (r: Option<seq<Contract>>)
    ensures r == Picks(avail, idxs)
  {
    var selected: seq<Contract> := [];
    var i := 0;
    while i < |idxs|
      invariant 0 <= i <= |idxs| && |selected| == i
      invariant forall k | 0 <= k < i :: 1 <= idxs[k] <= |avail| && selected[k] == avail[idxs[k] - 1]
    {
      if 1 <= idxs[i] <= |avail| {
        selected := selected + [avail[idxs[i] - 1]];
      } else {
        return None;
      }
      i := i + 1;
    }
    assert Picks(avail, idxs).Some?;
    assert Picks(avail, idxs).value == selected;
    return Some(selected);
  }

  /**
   * What the comma-separated pieces of a line pick: every piece must be an integer naming an
   * available contract, else the prompt repeats. Each piece picks one contract.
   */
  function PickPieces(avail: seq<Contract>, pieces: seq<string>): (r: Reading)
    ensures r.Picked? || r.Reprompt?
    ensures r.Picked? ==> |r.picks| == |pieces| && forall c :: c in r.picks ==> c in avail
  {
    match Indices(pieces)
    case None => Reprompt
    case Some(idxs) =>
      match Picks(avail, idxs)
      case None => Reprompt
      case Some(cs) => Picked(cs)
  }

  /**
   * One line once stripped and lowercased: `q` quits (where the prompt offers it), `all` takes
   * every contract, and otherwise the pieces pick contracts; a pick is never empty, since
   * splitting gives at least one piece, and holds only available contracts.
   */
  function Interpret(avail: seq<Contract>, sel: string, allowQuit: bool): (r: Reading)
    ensures r.Quit? <==> allowQuit && sel == QuitWord
    ensures r.All? <==> !(allowQuit && sel == QuitWord) && sel == AllWord
    ensures r.Picked? ==> r.picks != [] && forall c :: c in r.picks ==> c in avail
  {
    if allowQuit && sel == QuitWord then Quit
    else if sel == AllWord then All
    else PickPieces(avail, Split(sel, ','))
  }

  /** One typed line: stripped, lowercased, then interpreted. */
  function ReadSelection(avail: seq<Contract>, text: string, allowQuit: bool): Reading
  {
    Interpret(avail, Lower(Strip(text)), allowQuit)
  }

  /** The prompt loop: each line that means nothing re-prompts; the first that does ends it. */
  function Selection(avail: seq<Contract>, inputs: seq<Typed>, allowQuit: bool): Outcome
    decreases |inputs|
  {
    if inputs == [] then InputEnded
    else
      match inputs[0]
      case Interrupt => Cancelled
      case Line(text) =>
        match ReadSelection(avail, text, allowQuit)
        case Quit => Chosen([])
        case All => Chosen(avail)
        case Picked(cs) => Chosen(cs)
        case Reprompt => Selection(avail, inputs[1..], allowQuit)
  }

  /** A line that re-prompts. */
  predicate Rejected(avail: seq<Contract>, t: Typed, allowQuit: bool)
  {
    t.Line? && ReadSelection(avail, t.text, allowQuit).Reprompt?
  }

  /** Lines that re-prompt before the `k`-th answer do not change how the session ends. */
  lemma {:induction false} RejectedLinesAreSkipped(avail: seq<Contract>, inputs: seq<Typed>, allowQuit: bool, k: int)
    requires 0 <= k <= |inputs|
    requires forall j | 0 <= j < k :: Rejected(avail, inputs[j], allowQuit)
    ensures Selection(avail, inputs, allowQuit) == Selection(avail, inputs[k..], allowQuit)
  {
    if k > 0 {
      assert Rejected(avail, inputs[0], allowQuit);
      forall j | 0 <= j < k - 1
        ensures Rejected(avail, inputs[1..][j], allowQuit)
      {
        assert inputs[1..][j] == inputs[j + 1];
      }
      RejectedLinesAreSkipped(avail, inputs[1..], allowQuit, k - 1);
      assert inputs[1..][k - 1..] == inputs[k..];
    }
  }

  /** Every contract of a selection is one of the available contracts. */
  lemma {:induction false} ChosenAreAvailable(avail: seq<Contract>, inputs: seq<Typed>, allowQuit: bool)
    ensures Selection(avail, inputs, allowQuit).Chosen? ==>
      forall c :: c in Selection(avail, inputs, allowQuit).contracts ==> c in avail
    decreases |inputs|
  {
    if inputs != [] && inputs[0].Line? && ReadSelection(avail, inputs[0].text, allowQuit).Reprompt? {
      ChosenAreAvailable(avail, inputs[1..], allowQuit);
    }
  }

  /** Without a `q` exit, a selection from a non-empty list is never empty. */
  lemma {:induction false} ChosenNonEmpty(avail: seq<Contract>, inputs: seq<Typed>)
    requires avail != []
    ensures Selection(avail, inputs, false).Chosen? ==> Selection(avail, inputs, false).contracts != []
    decreases |inputs|
  {
    if inputs != [] && inputs[0].Line? && ReadSelection(avail, inputs[0].text, false).Reprompt? {
      ChosenNonEmpty(avail, inputs[1..]);
    }
  }

  /** Without a `q` exit, typing `q` is a piece that is not an integer, and re-prompts. */
  lemma QuitNeedsTheExit(avail: seq<Contract>, text: string)
    requires Lower(Strip(text)) == QuitWord
    ensures ReadSelection(avail, text, false) == Reprompt
    ensures ReadSelection(avail, text, true) == Quit
  {
    var sel := QuitWord;
    assert sel[0] == 'q' && sel[|sel| - 1] == 'q';
    StripUnchanged(sel);
    assert Split(sel, ',')[0] == sel;
  }

  /**
   * One pass of the prompt loop's body: the line stripped and lowercased, the exits tested,
   * then the pieces parsed and every index checked.
   */
  method ReadLine(avail: seq<Contract>, text: string, allowQuit: bool) returns (r: Reading)
    ensures r == ReadSelection(avail, text, allowQuit)
  {
    var sel := Lower(Strip(text));
    if allowQuit && sel == QuitWord {
      return Quit;
    }
    if sel == AllWord {
      return All;
    }
    var idxs := Indices(Split(sel, ','));
    if idxs.None? {
      return Reprompt;
    }
    var picked := PickIndices(avail, idxs.value);
    if picked.None? {
      return Reprompt;
    }
    return Picked(picked.value);
  }

  /**
   * The prompt loop of both selection scripts: reads lines until one means something,
   * `q` ending it only where `allowQuit` offers that exit.
   */
  method AskSelection(avail: seq<Contract>, inputs: seq<Typed>, allowQuit: bool) returns (o: Outcome)
    ensures o == Selection(avail, inputs, allowQuit)
  {
    var i := 0;
    while i < |inputs|
      invariant 0 <= i <= |inputs|
      invariant Selection(avail, inputs[i..], allowQuit) == Selection(avail, inputs, allowQuit)
      decreases |inputs| - i
    {
      assert inputs[i..][1..] == inputs[i + 1..];
      if inputs[i].Interrupt? {
        return Cancelled;
      }
      var reading := ReadLine(avail, inputs[i].text, allowQuit);
      match reading
      case Quit => return Chosen([]);
      case All => return Chosen(avail);
      case Picked(cs) => return Chosen(cs);
      case Reprompt =>
      i := i + 1;
    }
    return InputEnded;
  }

  // ---------------------------------------------------------------- saving

  /** `save_contract_selection`'s writing loop: the two comment lines, then one line per contract. */
  method WriteSelection(cs: seq<Contract>) returns (text: string)
    ensures text == SelectionFile(cs)
  {
    text := Concat(HeaderLines);
    var i := 0;
    assert DataLines(cs[..0]) == [];
    AppendEmpty(HeaderLines);
    while i < |cs|
      invariant 0 <= i <= |cs|
      invariant text == Concat(HeaderLines + DataLines(cs[..i]))
    {
      PrefixSnoc(cs, i);
      DataLinesSnoc(cs[..i], cs[i]);
      AppendAssoc(HeaderLines, DataLines(cs[..i]), [ContractLine(cs[i])]);
      ConcatSnoc(HeaderLines + DataLines(cs[..i]), ContractLine(cs[i]));
      text := text + ContractLine(cs[i]);
      i := i + 1;
    }
    assert cs[..i] == cs;
    assert HeaderLines + DataLines([]) == HeaderLines;
  }

  const MonthLineStart: string := "CONTRACT_MONTH = os.getenv('CONTRACT_MONTH', '"
  const MonthLineEnd: string := "')"

  /** The line of `config.py` that sets the default contract month. */
  function MonthLine(month: string): (r: string)
    ensures |r| > 0
  {
    MonthLineStart + month + MonthLineEnd
  }

  /** `update_config_file`: the default-month line for the configured month, set to the primary's month. */
  function UpdatedConfig(content: string, primary: Contract): string
  {
    Replace(content, MonthLine(Config.ContractMonth), MonthLine(primary.month))
  }

  /** Without the exact default-month line the configuration text is written back unchanged. */
  lemma ConfigWithoutMonthLine(content: string, primary: Contract)
    requires !Contains(content, MonthLine(Config.ContractMonth))
    ensures UpdatedConfig(content, primary) == content
  {
    ReplaceAbsent(content, MonthLine(Config.ContractMonth), MonthLine(primary.month));
  }

  /** The first default-month line becomes the primary's month line; the scan goes on after it. */
  lemma ConfigFirstMonthLine(before: string, after: string, primary: Contract)
    requires var pat := MonthLine(Config.ContractMonth); !Contains(before + pat[..|pat| - 1], pat)
    ensures UpdatedConfig(before + MonthLine(Config.ContractMonth) + after, primary)
         == before + MonthLine(primary.month) + UpdatedConfig(after, primary)
  {
    ReplaceFirst(before, MonthLine(Config.ContractMonth), after, MonthLine(primary.month));
  }

  /** A primary of the configured month leaves the configuration text as it was. */
  lemma ConfigAlreadyCurrent(content: string, primary: Contract)
    requires primary.month == Config.ContractMonth
    ensures UpdatedConfig(content, primary) == content
  {
    ReplaceSame(content, MonthLine(Config.ContractMonth));
  }

  /**
   * `save_contract_selection` followed by `update_config_file`: the selection file, and the
   * rewritten `config.py` when there is a primary contract and the file could be read.
   */
  method SaveContractSelection(cs: seq<Contract>, config: FileRead) returns (selection: string, newConfig: Option<string>)
    ensures selection == SelectionFile(cs)
    ensures newConfig == (if cs != [] && config.Content? then Some(UpdatedConfig(config.text, cs[0])) else None)
  {
    selection := WriteSelection(cs);
    newConfig := None;
    if cs != [] {
      var primary := cs[0];
      if config.Content? {
        newConfig := Some(UpdatedConfig(config.text, primary));
      }
    }
  }

  // ---------------------------------------------------------------- the selector

  /** The session the selector opens: the configured host, port and client id. */
  const SelectorSession: Session := Session(Config.IbkrHost, Config.IbkrPort, Config.IbkrClientId)

  /** `ESContractSelector`. */
  class ContractSelector {
    var connected: bool
    var availableContracts: seq<Contract>
    const ib: Gateway

    constructor (ib: Gateway)
      ensures this.ib == ib && !connected && availableContracts == []
    {
      this.ib := ib;
      connected := false;
      availableContracts := [];
    }

    /** `connect`: opens the configured session; on failure the error is re-raised and nothing changes. */
    method Connect() returns (err: Option<string>)
      modifies this`connected, ib`connected, ib`session
      ensures err == ib.connectError(SelectorSession)
      ensures err.None? ==> connected && ib.connected && ib.session == Some(SelectorSession)
      ensures err.Some? ==> connected == old(connected) && ib.connected == old(ib.connected)
                            && ib.session == old(ib.session)
    {
      err := ib.ConnectAsync(SelectorSession.host, SelectorSession.port, SelectorSession.clientId);
      if err.None? {
        connected := true;
      }
    }

    method Disconnect()
      modifies this`connected, ib`connected, ib`session
      ensures !connected
      ensures old(connected) ==> !ib.connected && ib.session.None?
      ensures !old(connected) ==> ib.connected == old(ib.connected) && ib.session == old(ib.session)
    {
      if connected {
        ib.Disconnect();
        connected := false;
      }
    }

    /**
     * `find_es_contracts`: the family search's ES/FUT/CME candidates sorted by month, also
     * stored as the available contracts; nothing, with the stored list kept, when not
     * connected or when the search raised or found nothing.
     */
    method FindEsContracts() returns (cs: seq<Contract>)
      modifies this`availableContracts
      ensures var q := ib.qualify(FuturesBot.SearchContract);
        if connected && q.Qualified? && q.contracts != [] then
          cs == Found(q) && availableContracts == cs
        else
          cs == [] && availableContracts == old(availableContracts)
    {
      if !connected {
        return [];
      }
      var q := ib.qualify(FuturesBot.SearchContract);
      if q.QualifyRaised? || q.contracts == [] {
        return [];
      }
      var candidates := q.contracts;
      var es: seq<Contract> := [];
      var i := 0;
      while i < |candidates|
        invariant 0 <= i <= |candidates|
        invariant es == EsFutures(candidates[..i])
      {
        PrefixSnoc(candidates, i);
        CollectSnoc(candidates[..i], candidates[i], IsEsFuture, ContractItself);
        var c := candidates[i];
        if c.symbol == "ES" && c.secType == "FUT" && c.exchange == "CME" {
          es := es + [c];
        }
        i := i + 1;
      }
      assert candidates[..i] == candidates;
      es := SortByMonth(es);
      availableContracts := es;
      return es;
    }

    /**
     * `select_contracts`: nothing, without prompting, when no contract is available;
     * otherwise the prompt session with its `q` exit, Ctrl-C giving nothing and the end of
     * the input raising EOFError.
     */
    method SelectContracts(inputs: seq<Typed>) returns (r: Result<seq<Contract>>)
      ensures availableContracts == [] ==> r == Ok([])
      ensures availableContracts != [] ==>
        match Selection(availableContracts, inputs, true)
        case Chosen(cs) => r == Ok(cs)
        case Cancelled => r == Ok([])
        case InputEnded => r == Err(EndOfInput)
    {
      if availableContracts == [] {
        return Ok([]);
      }
      var o := AskSelection(availableContracts, inputs, true);
      match o
      case Chosen(cs) => r := Ok(cs);
      case Cancelled => r := Ok([]);
      case InputEnded => r := Err(EndOfInput);
    }
  }
}
