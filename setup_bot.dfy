/**
 * The setup script's contract step: it opens a selector session, finds the ES contracts,
 * asks for a selection (no `q` exit here) and saves it in the selector's file format.
 */
module SetupBot {
  import opened Wrappers
  import opened Broker
  import opened ContractFile
  import opened ContractSelection
  import FuturesBot

  /**
   * The contracts the setup's `select_contracts` saves, or None where it returns False: the
   * session failed to open, nothing was found, Ctrl-C was pressed, the input ran out, or the
   * selection was empty.
   */
  function SetupSelection(connectError: Option<string>, q: Qualification, inputs: seq<Typed>): Option<seq<Contract>>
  {
    if connectError.Some? then None
    else
      var found := Found(q);
      if found == [] then None
      else
        match Selection(found, inputs, false)
        case Chosen(cs) => if cs != [] then Some(cs) else None
        case _ => None
  }

  /**
   * The setup saves exactly when the session opened, contracts were found and a line chose
   * some; what it saves is never empty and holds only found ES/FUT/CME contracts.
   */
  lemma SetupSavesChosen(connectError: Option<string>, q: Qualification, inputs: seq<Typed>)
    ensures SetupSelection(connectError, q, inputs).Some? <==>
      connectError.None? && Found(q) != [] && Selection(Found(q), inputs, false).Chosen?
    ensures SetupSelection(connectError, q, inputs).Some? ==>
      var cs := SetupSelection(connectError, q, inputs).value;
      cs == Selection(Found(q), inputs, false).contracts && cs != []
      && forall c :: c in cs ==> q.Qualified? && c in q.contracts && IsEsFuture(c)
  {
    if connectError.None? && Found(q) != [] {
      ChosenNonEmpty(Found(q), inputs);
      ChosenAreAvailable(Found(q), inputs, false);
      FoundSpec(q);
    }
  }

  /**
   * `select_contracts` of the setup script: True with the selection file written exactly
   * when a selection was made; the session is closed on every path.
   */
  method SelectContracts(ib: Gateway, inputs: seq<Typed>) returns (ok: bool, saved: Option<string>)
    modifies ib`connected, ib`session
    ensures ok <==> saved.Some?
    ensures var chosen := SetupSelection(ib.connectError(SelectorSession), ib.qualify(FuturesBot.SearchContract), inputs);
      saved == (if chosen.Some? then Some(SelectionFile(chosen.value)) else None)
    ensures ib.connectError(SelectorSession).None? ==> !ib.connected && ib.session.None?
    ensures ib.connectError(SelectorSession).Some? ==>
      ib.connected == old(ib.connected) && ib.session == old(ib.session)
  {
    var selector := new ContractSelector(ib);
    ok, saved := false, None;
    var err := selector.Connect();
    if err.None? {
      var contracts := selector.FindEsContracts();
      if contracts != [] {
        var o := AskSelection(contracts, inputs, false);
        if o.Chosen? && o.contracts != [] {
          var text := WriteSelection(o.contracts);
          ok, saved := true, Some(text);
        }
      }
    }
    selector.Disconnect();
  }
}
