/** The stand-alone condition-search client `kiwoom_condition_search.py`:
    connect, wait for login, list the saved condition formulas and run the
    first one, collecting `{code, name}` entries either from the immediate
    reply of `SendCondition` or from the `OnReceiveTrCondition` event. */
module ConditionSearch {
  import opened Base
  import opened Text
  import opened Candles
  import opened Broker

  /** The result `run` prints for a search: the condition name used and
      the entries returned. */
  datatype Searched = Searched(conditionName: string, result: seq<StockRef>)

  /** Whether the polling loop of `connect` raises: it runs outside any
      `try`, after `CommConnect` has returned. */
  predicate PollEscapes(h: Handshake)
  {
    h.probe.Answers? && h.probe.state != 1 && h.commConnect.None? && h.connectPolls.PollThrows?
  }

  class KiwoomConditionSearch {
    var connected: bool
    var loggedIn: bool
    var conditionReceived: bool
    var conditionResult: seq<StockRef>

    constructor ()
      ensures !connected && !loggedIn && !conditionReceived && conditionResult == []
    {
      connected := false;
      loggedIn := false;
      conditionReceived := false;
      conditionResult := [];
    }

    /** `on_event_connect`: error code 0 means connected, any other code
      means not connected. */
    method OnEventConnect(errCode: int)
      modifies this
      ensures connected == (errCode == 0)
      ensures loggedIn == old(loggedIn) && conditionReceived == old(conditionReceived)
      ensures conditionResult == old(conditionResult)
    {
      connected := errCode == 0;
    }

    /** `on_receive_tr_condition`: one entry per `;`-separated code that is
      not whitespace only, appended in order; the search is marked as
      received even when the code string is empty. */
    method OnReceiveTrCondition(codes: string, nameOf: string -> string)
      modifies this
      ensures conditionResult == old(conditionResult) + CodeEntries(CodesOf(codes), nameOf)
      ensures conditionReceived
      ensures connected == old(connected) && loggedIn == old(loggedIn)
    {
      if codes != "" {
        var entries := CollectCodes(Split(codes, ';'), nameOf);
        conditionResult := conditionResult + entries;
      }
      conditionReceived := true;
    }

    /** `connect`: the first state probe and the polling loop are outside
      any `try`, so their exceptions escape; a raising `CommConnect`
      gives False. */
    method Connect(h: Handshake) returns (a: Attempt)
      modifies this
      ensures h.probe.Throws? ==> a == Threw(h.probe.message)
      ensures PollEscapes(h) ==> a == Threw(h.connectPolls.message)
      ensures h.probe.Answers? && !PollEscapes(h) ==> a == Returned(Connects(h))
      ensures connected == ConnectedAfter(old(connected), h)
      ensures loggedIn == old(loggedIn) && conditionReceived == old(conditionReceived)
      ensures conditionResult == old(conditionResult)
    {
      match h.probe {
        case Throws(message) =>
          return Threw(message);
        case Answers(state) =>
          if state == 1 {
            connected := true;
            return Returned(true);
          }
          if h.connectEvent.Some? {
            OnEventConnect(h.connectEvent.value);
          }
          if h.commConnect.Some? {
            return Returned(false);
          }
          match h.connectPolls {
            case Reached =>
              connected := true;
              return Returned(true);
            case NeverReached =>
              return Returned(false);
            case PollThrows(message) =>
              return Threw(message);
          }
      }
    }

    /** `login`: False at once when not connected, otherwise up to fifteen
      state probes, an exception among them caught as False. */
    method Login(loginPolls: Polls) returns (ok: bool)
      modifies this
      ensures ok == (old(connected) && loginPolls == Reached)
      ensures loggedIn == (old(loggedIn) || ok)
      ensures connected == old(connected) && conditionReceived == old(conditionReceived)
      ensures conditionResult == old(conditionResult)
    {
      if !connected {
        return false;
      }
      ok := loginPolls == Reached;
      if ok {
        loggedIn := true;
      }
    }

    /** `get_condition_list`: `[]` before login; otherwise the loaded list,
      together with the catalogue it prints (the `index: name` lines of a
      list's tuples, or the parsed non-blank pieces of a string). */
    method GetConditionList(load: Option<string>, names: ConditionNames)
      returns (list: seq<ConditionItem>, report: seq<Listed>)
      ensures !loggedIn ==> list == [] && report == []
      ensures loggedIn ==> list == LoadedConditionList(load, names)
      ensures loggedIn && list != [] && names.NamesList? ==> report == Keep(names.items, ListedItemOf)
      ensures loggedIn && list != [] && names.NamesText? ==> report == Catalogue(Split(names.text, ';'))
      ensures list == [] ==> report == []
    {
      if !loggedIn || load.Some? {
        return [], [];
      }
      list := ConditionListOf(names);
      match names {
        case NamesList(items) =>
          report := Keep(items, ListedItemOf);
        case NamesText(text) =>
          report := if text == "" then [] else Catalogue(Split(text, ';'));
        case NamesOther(_) =>
          report := [];
        case NamesRaised(_) =>
          report := [];
      }
      if list == [] {
        report := [];
      }
    }

    /** `search_condition`: `[]` before login; otherwise the result is
      cleared, the request sent, and the entries come from the returned
      list or from the event awaited after a 0 or 1 answer. */
    method SearchCondition(send: SendOutcome, event: Option<string>, nameOf: string -> string)
      returns (result: seq<StockRef>)
      modifies this
      ensures !old(loggedIn) ==> result == [] && conditionResult == old(conditionResult) &&
                                 conditionReceived == old(conditionReceived)
      ensures old(loggedIn) ==> result == SearchResult(send, event, nameOf)
      ensures old(loggedIn) ==> conditionResult == result && conditionReceived == Delivers(send, event)
      ensures connected == old(connected) && loggedIn == old(loggedIn)
    {
      if !loggedIn {
        return [];
      }
      conditionResult := [];
      conditionReceived := false;
      match send {
        case SendRaised(_) =>
          return [];
        case SentCodes(codes) =>
          var entries := CollectCodes(codes, nameOf);
          conditionResult := conditionResult + entries;
          return conditionResult;
        case SentStatus(status) =>
          if status == 0 || status == 1 {
            if event.Some? {
              OnReceiveTrCondition(event.value, nameOf);
              return conditionResult;
            }
            return [];
          }
          return [];
      }
    }

    /** `run`: connect, log in, list the conditions and, when there are
      any, search with the name of the first tuple. It returns False when
      connecting or logging in fails and True otherwise; `searched` is what
      it prints. */
    method Run(h: Handshake, load: Option<string>, names: ConditionNames, send: SendOutcome,
               event: Option<string>, nameOf: string -> string)
      returns (a: Attempt, searched: Option<Searched>)
      modifies this
      ensures h.probe.Throws? ==> a == Threw(h.probe.message) && searched == None
      ensures PollEscapes(h) ==> a == Threw(h.connectPolls.message) && searched == None
      ensures h.probe.Answers? && !PollEscapes(h) && !Connects(h) ==> a == Returned(false) && searched == None
      ensures Connects(h) && h.loginPolls != Reached ==> a == Returned(false) && searched == None
      ensures Connects(h) && h.loginPolls == Reached ==>
        var list := LoadedConditionList(load, names);
        && a == Returned(true)
        && searched == (if list == [] then None
                        else Some(Searched(ConditionNameOf(list), SearchResult(send, event, nameOf))))
      ensures connected == ConnectedAfter(old(connected), h)
      ensures loggedIn == (old(loggedIn) || (Connects(h) && h.loginPolls == Reached))
      ensures searched.Some? ==> conditionResult == searched.value.result &&
                                 conditionReceived == Delivers(send, event)
      ensures searched.None? ==> conditionResult == old(conditionResult) &&
                                 conditionReceived == old(conditionReceived)
    {
      a := Connect(h);
      if a.Threw? || !a.ok {
        return a, None;
      }
      var ok := Login(h.loginPolls);
      if !ok {
        return Returned(false), None;
      }
      var list, report := GetConditionList(load, names);
      if list == [] {
        return Returned(true), None;
      }
      var name := ConditionNameOf(list);
      var result := SearchCondition(send, event, nameOf);
      return Returned(true), Some(Searched(name, result));
    }
  }
}
