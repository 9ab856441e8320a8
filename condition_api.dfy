/** The web-facing condition-search client `server/kiwoom_condition_api.py`:
    the same connect / login / list / search sequence as the stand-alone
    client, with every broker exception after the first state probe
    caught, a `success/count/result` envelope, and one shared instance
    created on first use. */
module ConditionApi {
  import opened Base
  import opened Text
  import opened Candles
  import opened Broker

  const ConnectFailed := "API 연결 실패"
  const LoginFailed := "로그인 실패"
  const NoConditions := "조건식이 없습니다"

  /** What `run_condition_search` gives back: an envelope, or the
      exception of the first state probe, which nothing inside catches. */
  datatype Reply = Replied(envelope: Envelope<StockRef>) | Escaped(message: string)

  /** The envelope of `run_condition_search` for a probe that answers. */
  function RunEnvelope(h: Handshake, load: Option<string>, names: ConditionNames, send: SendOutcome,
                       event: Option<string>, nameOf: string -> string): (e: Envelope<StockRef>)
    requires h.probe.Answers?
    ensures CountMatches(e)
    ensures !Connects(h) ==> e == Failure(ConnectFailed)
    ensures Connects(h) && h.loginPolls != Reached ==> e == Failure(LoginFailed)
    ensures e.Success? ==>
      Connects(h) && h.loginPolls == Reached && LoadedConditionList(load, names) != [] &&
      e.conditionName == ConditionNameOf(LoadedConditionList(load, names)) &&
      e.result == SearchResult(send, event, nameOf)
  {
    if !Connects(h) then Failure(ConnectFailed)
    else if h.loginPolls != Reached then Failure(LoginFailed)
    else
      var list := LoadedConditionList(load, names);
      if list == [] then Failure(NoConditions)
      else SuccessOf(ConditionNameOf(list), SearchResult(send, event, nameOf))
  }

  /** The three failures are told apart by their messages, and a run that
      gets past them always succeeds. */
  lemma RunEnvelopeCases(h: Handshake, load: Option<string>, names: ConditionNames, send: SendOutcome,
                         event: Option<string>, nameOf: string -> string)
    requires h.probe.Answers?
    ensures var e := RunEnvelope(h, load, names, send, event, nameOf);
      && (e == Failure(ConnectFailed) <==> !Connects(h))
      && (e == Failure(LoginFailed) <==> Connects(h) && h.loginPolls != Reached)
      && (e == Failure(NoConditions) <==>
            Connects(h) && h.loginPolls == Reached && LoadedConditionList(load, names) == [])
      && (e.Success? <==>
            Connects(h) && h.loginPolls == Reached && LoadedConditionList(load, names) != [])
  {
    assert ConnectFailed != LoginFailed && ConnectFailed != NoConditions && LoginFailed != NoConditions;
  }

  class KiwoomConditionApi {
    var connected: bool
    var loggedIn: bool
    var conditionReceived: bool
    var conditionResult: seq<StockRef>

    constructor ()
      ensures !connected && !loggedIn && !conditionReceived && conditionResult == []
    {
      connected := false;
      loggedIn := false;
      conditionReceived := false;
      conditionResult := [];
    }

    /** `on_event_connect`: error code 0 means connected, any other code
      means not connected. */
    method OnEventConnect(errCode: int)
      modifies this
      ensures connected == (errCode == 0)
      ensures loggedIn == old(loggedIn) && conditionReceived == old(conditionReceived)
      ensures conditionResult == old(conditionResult)
    {
      connected := errCode == 0;
    }

    /** `on_receive_tr_condition`: one entry per `;`-separated code that is
      not whitespace only, appended in order, then the search is marked
      as received. */
    method OnReceiveTrCondition(codes: string, nameOf: string -> string)
      modifies this
      ensures conditionResult == old(conditionResult) + CodeEntries(CodesOf(codes), nameOf)
      ensures conditionReceived
      ensures connected == old(connected) && loggedIn == old(loggedIn)
    {
      if codes != "" {
        var entries := CollectCodes(Split(codes, ';'), nameOf);
        conditionResult := conditionResult + entries;
      }
      conditionReceived := true;
    }

    /** `connect`: the first state probe is outside the `try` and its
      exception escapes; a raising `CommConnect` or polling loop gives
      False. */
    method Connect(h: Handshake) returns (a: Attempt)
      modifies this
      ensures h.probe.Throws? ==> a == Threw(h.probe.message)
      ensures h.probe.Answers? ==> a == Returned(Connects(h))
      ensures connected == ConnectedAfter(old(connected), h)
      ensures loggedIn == old(loggedIn) && conditionReceived == old(conditionReceived)
      ensures conditionResult == old(conditionResult)
    {
      match h.probe {
        case Throws(message) =>
          return Threw(message);
        case Answers(state) =>
          if state == 1 {
            connected := true;
            return Returned(true);
          }
          if h.connectEvent.Some? {
            OnEventConnect(h.connectEvent.value);
          }
          if h.commConnect.Some? {
            return Returned(false);
          }
          if h.connectPolls == Reached {
            connected := true;
            return Returned(true);
          }
          return Returned(false);
      }
    }

    /** `login`: False at once when not connected, otherwise up to fifteen
      state probes, an exception among them caught as False. */
    method Login(loginPolls: Polls) returns (ok: bool)
      modifies this
      ensures ok == (old(connected) && loginPolls == Reached)
      ensures loggedIn == (old(loggedIn) || ok)
      ensures connected == old(connected) && conditionReceived == old(conditionReceived)
      ensures conditionResult == old(conditionResult)
    {
      if !connected {
        return false;
      }
      ok := loginPolls == Reached;
      if ok {
        loggedIn := true;
      }
    }

    /** `get_condition_list`: `[]` before login, otherwise the loaded list
      (every exception caught as `[]`). */
    method GetConditionList(load: Option<string>, names: ConditionNames) returns (list: seq<ConditionItem>)
      ensures !loggedIn ==> list == []
      ensures loggedIn ==> list == LoadedConditionList(load, names)
    {
      if !loggedIn || load.Some? {
        return [];
      }
      list := ConditionListOf(names);
    }

    /** `search_condition`: `[]` before login; otherwise the result is
      cleared, the request sent, and the entries come from the returned
      list or from the event awaited after a 0 or 1 answer. */
    method SearchCondition(send: SendOutcome, event: Option<string>, nameOf: string -> string)
      returns (result: seq<StockRef>)
      modifies this
      ensures !old(loggedIn) ==> result == [] && conditionResult == old(conditionResult) &&
                                 conditionReceived == old(conditionReceived)
      ensures old(loggedIn) ==> result == SearchResult(send, event, nameOf)
      ensures old(loggedIn) ==> conditionResult == result && conditionReceived == Delivers(send, event)
      ensures connected == old(connected) && loggedIn == old(loggedIn)
    {
      if !loggedIn {
        return [];
      }
      conditionResult := [];
      conditionReceived := false;
      match send {
        case SendRaised(_) =>
          return [];
        case SentCodes(codes) =>
          var entries := CollectCodes(codes, nameOf);
          conditionResult := conditionResult + entries;
          return conditionResult;
        case SentStatus(status) =>
          if status == 0 || status == 1 {
            if event.Some? {
              OnReceiveTrCondition(event.value, nameOf);
              return conditionResult;
            }
            return [];
          }
          return [];
      }
    }

    /** `run_condition_search`: connect, log in, list and search, each
      failure with its own message. */
    method RunConditionSearch(h: Handshake, load: Option<string>, names: ConditionNames,
                              send: SendOutcome, event: Option<string>, nameOf: string -> string)
      returns (r: Reply)
      modifies this
      ensures h.probe.Throws? ==> r == Escaped(h.probe.message)
      ensures h.probe.Answers? ==> r == Replied(RunEnvelope(h, load, names, send, event, nameOf))
      ensures connected == ConnectedAfter(old(connected), h)
      ensures loggedIn == (old(loggedIn) || (Connects(h) && h.loginPolls == Reached))
      ensures r.Replied? && r.envelope.Success? ==>
        conditionResult == r.envelope.result && conditionReceived == Delivers(send, event)
      ensures !(r.Replied? && r.envelope.Success?) ==>
        conditionResult == old(conditionResult) && conditionReceived == old(conditionReceived)
    {
      var a := Connect(h);
      if a.Threw? {
        return Escaped(a.message);
      }
      if !a.ok {
        return Replied(Failure(ConnectFailed));
      }
      var ok := Login(h.loginPolls);
      if !ok {
        return Replied(Failure(LoginFailed));
      }
      var list := GetConditionList(load, names);
      if list == [] {
        return Replied(Failure(NoConditions));
      }
      var name := ConditionNameOf(list);
      var result := SearchCondition(send, event, nameOf);
      return Replied(SuccessOf(name, result));
    }
  }

  /** The module-level `kiwoom_api` slot of `get_kiwoom_api`, with a count
      of the instances it has created. */
  class Registry {
    var kiwoomApi: KiwoomConditionApi?
    var created: nat

    /** At most one instance is ever created, and it is the one held. */
    ghost predicate Valid()
      reads this
    {
      created == (if kiwoomApi == null then 0 else 1)
    }

    constructor ()
      ensures Valid() && kiwoomApi == null
    {
      kiwoomApi := null;
      created := 0;
    }

    /** `get_kiwoom_api`: create the instance on the first call, return the
      held one on every later call. */
    method GetKiwoomApi() returns (api: KiwoomConditionApi)
      requires Valid()
      modifies this
      ensures Valid() && kiwoomApi == api
      ensures old(kiwoomApi) != null ==> api == old(kiwoomApi) && created == old(created)
      ensures old(kiwoomApi) == null ==>
        fresh(api) && created == 1 &&
        !api.connected && !api.loggedIn && !api.conditionReceived && api.conditionResult == []
    {
      if kiwoomApi == null {
        kiwoomApi := new KiwoomConditionApi();
        created := created + 1;
      }
      api := kiwoomApi;
    }
  }

  /** `run_condition_search_api`: the shared instance runs the search and
      any exception becomes `{success: False, error: str(e)}`. The
      envelope does not depend on what earlier runs left behind. */
  method RunConditionSearchApi(registry: Registry, h: Handshake, load: Option<string>,
                               names: ConditionNames, send: SendOutcome, event: Option<string>,
                               nameOf: string -> string)
    returns (e: Envelope<StockRef>)
    requires registry.Valid()
    modifies registry, registry.kiwoomApi
    ensures registry.Valid() && registry.kiwoomApi != null
    ensures old(registry.kiwoomApi) != null ==> registry.kiwoomApi == old(registry.kiwoomApi)
    ensures CountMatches(e)
    ensures h.probe.Throws? ==> e == Failure(h.probe.message)
    ensures h.probe.Answers? ==> e == RunEnvelope(h, load, names, send, event, nameOf)
  {
    var api := registry.GetKiwoomApi();
    var r := api.RunConditionSearch(h, load, names, send, event, nameOf);
    match r {
      case Escaped(message) =>
        return Failure(message);
      case Replied(envelope) =>
        return envelope;
    }
  }
}
