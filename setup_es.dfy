/**
 * The ES DEC 2025 setup script: it writes a contracts file holding the December 2025
 * contract, checks with the broker that the contract is listed, and otherwise offers to
 * switch to another listed ES contract, rewriting the contracts file and `.env` for it.
 */
module SetupEs {
  import opened Wrappers
  import opened Seqs
  import opened Text
  import opened Broker
  import opened ContractFile
  import opened ContractSelection
  import FuturesBot

  const DecMonth: string := "20251219"
  const DecComment: string := "# ES DEC 2025 CME Future"

  /** The contract of the data line `create_contracts_file` writes. */
  const DecContract: Contract := FutureContract("ES", DecMonth, "CME", "USD").(multiplier := "50")

  /** `create_contracts_file`: the two comment lines, a third comment, and the December line. */
  function DecContractsFile(): string
  {
    Concat(CommentedLines(DecComment, DecContract))
  }

  lemma DecNamesPlain()
    ensures Plain(DecContract.symbol) && Plain(DecContract.exchange) && Plain(DecContract.currency)
    ensures !StartsWith(DecContract.symbol, "#")
  {
    var c := DecContract;
    assert Plain(c.symbol) by { assert c.symbol == "ES"; }
    assert Plain(c.exchange) by { assert c.exchange == "CME"; }
    assert Plain(c.currency) by { assert c.currency == "USD"; }
    assert !StartsWith(c.symbol, "#") by { assert c.symbol[0] == 'E'; }
  }

  lemma DecNumbersPlain()
    ensures Plain(DecContract.month) && Plain(DecContract.multiplier)
  {
    var c := DecContract;
    assert Plain(c.month) by { assert c.month == DecMonth; }
    assert Plain(c.multiplier) by { assert c.multiplier == "50"; }
  }

  /** The December contract survives a write and a read unchanged. */
  lemma DecContractWritable()
    ensures Writable(DecContract) && Reloaded(DecContract) == DecContract
  {
    DecNamesPlain();
    DecNumbersPlain();
  }

  /** The loader reads the December file as exactly the December contract with multiplier 50. */
  lemma DecFileHoldsOneContract()
    ensures SelectedOrDefault(Content(DecContractsFile())) == [DecContract]
  {
    DecContractWritable();
    assert DecComment[0] == '#' && DecComment[|DecComment| - 1] == 'e' && '\n' !in DecComment;
    CommentedFileLines(DecComment, DecContract);
    CommentedParse(DecComment, DecContract);
  }

  // ---------------------------------------------------------------- the December check

  /** A December 2025 contract: its month text holds `20251219`. */
  predicate IsDecember(c: Contract)
  {
    Contains(c.month, DecMonth)
  }

  function DecemberContracts(cs: seq<Contract>): seq<Contract>
  {
    Collect(cs, IsDecember, ContractItself)
  }

  /** Exactly the contracts whose month holds the December text are December contracts. */
  lemma DecemberMembers(cs: seq<Contract>)
    ensures forall c :: c in DecemberContracts(cs) <==> c in cs && Contains(c.month, DecMonth)
  {
    CollectMembers(cs, IsDecember, ContractItself);
  }

  /** How the alternative prompt ends: a contract picked, Ctrl-C, or the input exhausted. */
  datatype Pick = PickedContract(contract: Contract) | PickCancelled | PickEnded

  /** The index one typed choice names: `int(choice) - 1`, accepted when it indexes `cs`. */
  function ChoiceIndex(cs: seq<Contract>, text: string): Option<nat>
  {
    Position(cs, PieceValue(text))
  }

  /** `select_alternative_contract`'s loop: the first line naming a position in `cs`. */
  function AlternativePick(cs: seq<Contract>, inputs: seq<Typed>): (r: Pick)
    ensures r.PickedContract? ==> r.contract in cs
    decreases |inputs|
  {
    if inputs == [] then PickEnded
    else
      match inputs[0]
      case Interrupt => PickCancelled
      case Line(text) =>
        match ChoiceIndex(cs, text)
        case Some(i) => PickedContract(cs[i])
        case None => AlternativePick(cs, inputs[1..])
  }

  /** One pass of the loop body: the choice stripped, read as an integer, less one, range-checked. */
  method ReadChoice(cs: seq<Contract>, text: string) returns (idx: Option<nat>)
    ensures idx == ChoiceIndex(cs, text)
  {
    var choice := Strip(text);
    var n := ParseInt(choice);
    if n.None? {
      return None;
    }
    var i := n.value - 1;
    if 0 <= i < |cs| {
      return Some(i);
    }
    return None;
  }

  /** The contracts file written for the picked contract: its four fields and multiplier 50. */
  function AlternativeFile(c: Contract): string
  {
    SelectionFile([c.(multiplier := "50")])
  }

  /** A picked contract with plain fields is read back as the only contract, with multiplier 50. */
  lemma AlternativeFileHoldsOne(c: Contract)
    requires Writable(c.(multiplier := "50"))
    ensures var r := SelectedOrDefault(Content(AlternativeFile(c)));
      |r| == 1 && r[0] == Reloaded(c.(multiplier := "50")) && r[0].multiplier == "50"
  {
    SaveLoadRoundTrip([c.(multiplier := "50")]);
  }

  const EnvMonthKey: string := "CONTRACT_MONTH="

  /** The `.env` text with every `CONTRACT_MONTH=20251219` set to the picked month. */
  function UpdatedEnv(content: string, c: Contract): string
  {
    Replace(content, EnvMonthKey + DecMonth, EnvMonthKey + c.month)
  }

  /** An `.env` text without the December month setting is written back unchanged. */
  lemma EnvWithoutDecMonth(content: string, c: Contract)
    requires !Contains(content, EnvMonthKey + DecMonth)
    ensures UpdatedEnv(content, c) == content
  {
    ReplaceAbsent(content, EnvMonthKey + DecMonth, EnvMonthKey + c.month);
  }

  /** The first December month setting takes the picked month; the scan goes on after it. */
  lemma EnvFirstDecMonth(before: string, after: string, c: Contract)
    requires var pat := EnvMonthKey + DecMonth; !Contains(before + pat[..|pat| - 1], pat)
    ensures UpdatedEnv(before + EnvMonthKey + DecMonth + after, c)
         == before + EnvMonthKey + c.month + UpdatedEnv(after, c)
  {
    var pat := EnvMonthKey + DecMonth;
    assert before + EnvMonthKey + DecMonth + after == before + pat + after;
    ReplaceFirst(before, pat, after, EnvMonthKey + c.month);
    assert before + (EnvMonthKey + c.month) + UpdatedEnv(after, c)
        == before + EnvMonthKey + c.month + UpdatedEnv(after, c);
  }

  /** Opening a missing `.env` raises FileNotFoundError with this text. */
  const MissingEnv: string := "[Errno 2] No such file or directory: '.env'"

  /** The files the December check rewrites. */
  datatype Written = Written(contractsFile: Option<string>, envFile: Option<string>)

  const NothingWritten: Written := Written(None, None)

  /** How `select_alternative_contract` ends, and the files it has rewritten by then. */
  datatype Switch = Switch(result: Result<bool>, written: Written)

  /**
   * `select_alternative_contract`'s loop over the remaining typed lines, `file` being the
   * contracts file an earlier pass already rewrote. A valid choice rewrites the contracts
   * file and then reads `.env`: a decode error is a ValueError, which the loop catches before
   * prompting again; a missing or failing file escapes, and so does EOFError.
   */
  function AlternativeRun(cs: seq<Contract>, inputs: seq<Typed>, env: FileRead, file: Option<string>): Switch
    decreases |inputs|
  {
    if inputs == [] then Switch(Err(EndOfInput), Written(file, None))
    else
      match inputs[0]
      case Interrupt => Switch(Ok(false), Written(file, None))
      case Line(text) =>
        match ChoiceIndex(cs, text)
        case None => AlternativeRun(cs, inputs[1..], env, file)
        case Some(i) =>
          var c := cs[i];
          match env
          case Undecodable(_) => AlternativeRun(cs, inputs[1..], env, Some(AlternativeFile(c)))
          case Missing => Switch(Err(MissingEnv), Written(Some(AlternativeFile(c)), None))
          case Unreadable(e) => Switch(Err(e), Written(Some(AlternativeFile(c)), None))
          case Content(t) => Switch(Ok(true), Written(Some(AlternativeFile(c)), Some(UpdatedEnv(t, c))))
  }

  /**
   * With an `.env` that is missing, fails or decodes, the loop ends at the first valid
   * choice: True after rewriting both files, or the escaping error with only the contracts
   * file rewritten; Ctrl-C before any choice gives False and the end of input EOFError, with
   * nothing rewritten.
   */
  lemma {:induction false} ReadableEnvRun(cs: seq<Contract>, inputs: seq<Typed>, env: FileRead)
    requires !env.Undecodable?
    ensures var s := AlternativeRun(cs, inputs, env, None);
      match AlternativePick(cs, inputs)
      case PickedContract(c) =>
        s.written.contractsFile == Some(AlternativeFile(c))
        && (env.Content? ==> s.result == Ok(true) && s.written.envFile == Some(UpdatedEnv(env.text, c)))
        && (!env.Content? ==> s.result.Err? && s.written.envFile.None?)
      case PickCancelled => s == Switch(Ok(false), NothingWritten)
      case PickEnded => s == Switch(Err(EndOfInput), NothingWritten)
    decreases |inputs|
  {
    if inputs != [] && inputs[0].Line? && ChoiceIndex(cs, inputs[0].text).None? {
      ReadableEnvRun(cs, inputs[1..], env);
    }
  }

  /**
   * With an `.env` that does not decode, no choice succeeds: the loop reads every line until
   * Ctrl-C (False) or the end of input (EOFError), and `.env` is never rewritten.
   */
  lemma {:induction false} UndecodableEnvRun(cs: seq<Contract>, inputs: seq<Typed>, env: FileRead, file: Option<string>)
    requires env.Undecodable?
    ensures var s := AlternativeRun(cs, inputs, env, file);
      s.result == (if Interrupt in inputs then Ok(false) else Err(EndOfInput)) && s.written.envFile.None?
    decreases |inputs|
  {
    if inputs != [] {
      assert inputs == [inputs[0]] + inputs[1..];
      if inputs[0].Line? {
        match ChoiceIndex(cs, inputs[0].text)
        case None => UndecodableEnvRun(cs, inputs[1..], env, file);
        case Some(i) => UndecodableEnvRun(cs, inputs[1..], env, Some(AlternativeFile(cs[i])));
      }
    }
  }

  /** The contracts file the loop leaves is the earlier one or the one for a contract of `cs`. */
  lemma {:induction false} RunWritesListed(cs: seq<Contract>, inputs: seq<Typed>, env: FileRead, file: Option<string>)
    ensures var f := AlternativeRun(cs, inputs, env, file).written.contractsFile;
      f == file || exists c :: c in cs && f == Some(AlternativeFile(c))
    decreases |inputs|
  {
    if inputs != [] && inputs[0].Line? {
      match ChoiceIndex(cs, inputs[0].text)
      case None => RunWritesListed(cs, inputs[1..], env, file);
      case Some(i) =>
        var w := Some(AlternativeFile(cs[i]));
        var f := AlternativeRun(cs, inputs, env, file).written.contractsFile;
        if env.Undecodable? {
          assert f == AlternativeRun(cs, inputs[1..], env, w).written.contractsFile;
          RunWritesListed(cs, inputs[1..], env, w);
        } else {
          assert f == w;
        }
        assert cs[i] in cs;
    }
  }

  /**
   * Typing "2" over an `.env` that does not decode rewrites the contracts file for the second
   * contract and prompts again; Ctrl-C then gives False with that file kept.
   */
  lemma DecodeErrorThenCancel(cs: seq<Contract>, e: string)
    requires |cs| >= 2
    ensures AlternativeRun(cs, [Line("2"), Interrupt], Undecodable(e), None)
         == Switch(Ok(false), Written(Some(AlternativeFile(cs[1])), None))
  {
    ChoiceTwo(cs);
    var inputs := [Line("2"), Interrupt];
    assert inputs[1..] == [Interrupt];
    assert AlternativeRun(cs, inputs, Undecodable(e), None)
        == AlternativeRun(cs, [Interrupt], Undecodable(e), Some(AlternativeFile(cs[1])));
  }

  /** Typing "2" names the second contract. */
  lemma ChoiceTwo(cs: seq<Contract>)
    requires |cs| >= 2
    ensures ChoiceIndex(cs, "2") == Some(1)
  {
    assert NatToString(2) == "2";
    ParseNatToString(2);
    StripUnchanged("2");
  }

  /**
   * `select_alternative_contract`: the prompt loop, rewriting the contracts file for every
   * valid choice and `.env` once it decodes.
   */
  method SelectAlternativeContract(cs: seq<Contract>, inputs: seq<Typed>, env: FileRead) returns (s: Switch)
    ensures s == AlternativeRun(cs, inputs, env, None)
  {
    var file: Option<string> := None;
    var i := 0;
    assert inputs[0..] == inputs;
    while i < |inputs|
      invariant 0 <= i <= |inputs|
      invariant AlternativeRun(cs, inputs[i..], env, file) == AlternativeRun(cs, inputs, env, None)
      decreases |inputs| - i
    {
      assert inputs[i..][1..] == inputs[i + 1..];
      if inputs[i].Interrupt? {
        return Switch(Ok(false), Written(file, None));
      }
      var idx := ReadChoice(cs, inputs[i].text);
      if idx.Some? {
        var c := cs[idx.value];
        var text := WriteSelection([c.(multiplier := "50")]);
        file := Some(text);
        match env {
          case Undecodable(_) =>
          case Missing =>
            return Switch(Err(MissingEnv), Written(file, None));
          case Unreadable(e) =>
            return Switch(Err(e), Written(file, None));
          case Content(content) =>
            return Switch(Ok(true), Written(file, Some(UpdatedEnv(content, c))));
        }
      }
      i := i + 1;
    }
    return Switch(Err(EndOfInput), Written(file, None));
  }

  const SwitchChoice: string := "1"

  /** How `verify_contract` ends: it returns a flag, or Ctrl-C at its own prompt escapes it. */
  datatype Verdict = Returned(ok: bool) | Interrupted

  datatype Verification = Verification(verdict: Verdict, written: Written)

  /** The flag `verify_contract` returns for the switch: its result, or True once it raised. */
  function SwitchVerdict(r: Result<bool>): Verdict
  {
    if r.Ok? then Returned(r.value) else Returned(true)
  }

  /**
   * `verify_contract`, for the session's connect answer, the family search's answer, the
   * typed lines and `.env`: every exception it catches continues with True.
   */
  function VerifyResult(connectError: Option<string>, q: Qualification, inputs: seq<Typed>, env: FileRead): Verification
  {
    if connectError.Some? then Verification(Returned(true), NothingWritten)
    else
      var found := Found(q);
      if found == [] then Verification(Returned(false), NothingWritten)
      else if DecemberContracts(found) != [] then Verification(Returned(true), NothingWritten)
      else if inputs == [] then Verification(Returned(true), NothingWritten)
      else if inputs[0].Interrupt? then Verification(Interrupted, NothingWritten)
      else if Strip(inputs[0].text) != SwitchChoice then Verification(Returned(true), NothingWritten)
      else
        var s := AlternativeRun(found, inputs[1..], env, None);
        Verification(SwitchVerdict(s.result), s.written)
  }

  /**
   * False is returned only when no ES contract was found, or when the switch was chosen and
   * Ctrl-C later cancelled its prompt; `.env` is then unchanged. The contracts file is then
   * unchanged too, unless `.env` does not decode: each valid choice has rewritten it before
   * the prompt repeated.
   */
  lemma VerifyFalseOnlyWhenCancelled(connectError: Option<string>, q: Qualification, inputs: seq<Typed>, env: FileRead)
    ensures var v := VerifyResult(connectError, q, inputs, env);
      v.verdict == Returned(false) ==>
        connectError.None? && v.written.envFile.None?
        && ((Found(q) == [] && v.written == NothingWritten) || (inputs != [] && Interrupt in inputs[1..]))
        && (!env.Undecodable? ==>
              v.written == NothingWritten
              && (Found(q) == [] || (inputs != [] && AlternativePick(Found(q), inputs[1..]) == PickCancelled)))
  {
    var found := Found(q);
    if connectError.None? && found != [] && DecemberContracts(found) == [] && inputs != []
       && inputs[0].Line? && Strip(inputs[0].text) == SwitchChoice
    {
      var s := AlternativeRun(found, inputs[1..], env, None);
      assert VerifyResult(connectError, q, inputs, env) == Verification(SwitchVerdict(s.result), s.written);
      if env.Undecodable? {
        UndecodableEnvRun(found, inputs[1..], env, None);
      } else {
        ReadableEnvRun(found, inputs[1..], env);
        CancelSeesInterrupt(found, inputs[1..]);
      }
    }
  }

  /** The alternative prompt is cancelled only by a Ctrl-C among the typed lines. */
  lemma {:induction false} CancelSeesInterrupt(cs: seq<Contract>, inputs: seq<Typed>)
    ensures AlternativePick(cs, inputs) == PickCancelled ==> Interrupt in inputs
    decreases |inputs|
  {
    if inputs != [] {
      assert inputs == [inputs[0]] + inputs[1..];
      if inputs[0].Line? {
        CancelSeesInterrupt(cs, inputs[1..]);
      }
    }
  }

  /**
   * Files are rewritten only for a picked contract: a found ES/FUT/CME contract that is not
   * a December one.
   */
  lemma RewritesOnlyForAlternative(connectError: Option<string>, q: Qualification, inputs: seq<Typed>, env: FileRead)
    ensures var v := VerifyResult(connectError, q, inputs, env);
      v.written.contractsFile.Some? ==>
        exists c :: c in q.contracts && q.Qualified? && IsEsFuture(c) && !Contains(c.month, DecMonth)
                    && v.written.contractsFile == Some(AlternativeFile(c))
  {
    var v := VerifyResult(connectError, q, inputs, env);
    if v.written.contractsFile.Some? {
      var found := Found(q);
      RunWritesListed(found, inputs[1..], env, None);
      var c :| c in found && v.written.contractsFile == Some(AlternativeFile(c));
      FoundSpec(q);
      DecemberMembers(found);
      assert c in found && c !in DecemberContracts(found);
    }
  }

  /**
   * `verify_contract`: opens a selector session, looks for a December contract, and
   * otherwise asks whether to switch; the session is closed on every path.
   */
  method VerifyContract(ib: Gateway, inputs: seq<Typed>, env: FileRead) returns (v: Verification)
    modifies ib`connected, ib`session
    ensures v == VerifyResult(ib.connectError(SelectorSession), ib.qualify(FuturesBot.SearchContract), inputs, env)
    ensures ib.connectError(SelectorSession).None? ==> !ib.connected && ib.session.None?
    ensures ib.connectError(SelectorSession).Some? ==>
      ib.connected == old(ib.connected) && ib.session == old(ib.session)
  {
    var selector := new ContractSelector(ib);
    var err := selector.Connect();
    if err.Some? {
      v := Verification(Returned(true), NothingWritten);
    } else {
      var contracts := selector.FindEsContracts();
      if contracts == [] {
        v := Verification(Returned(false), NothingWritten);
      } else if DecemberContracts(contracts) != [] {
        v := Verification(Returned(true), NothingWritten);
      } else if inputs == [] {
        v := Verification(Returned(true), NothingWritten);
      } else if inputs[0].Interrupt? {
        v := Verification(Interrupted, NothingWritten);
      } else {
        var choice := Strip(inputs[0].text);
        if choice == SwitchChoice {
          var s := SelectAlternativeContract(contracts, inputs[1..], env);
          v := Verification(SwitchVerdict(s.result), s.written);
        } else {
          v := Verification(Returned(true), NothingWritten);
        }
      }
    }
    selector.Disconnect();
  }
}
