/** What the screeners receive from the Kiwoom OpenAPI through pykiwoom,
    as values: the answers to the connection calls, the condition-name
    list, the reply of `SendCondition`, and the `;`-separated code strings
    of a condition search. Also the `success/count/result` envelope every
    entry point returns. */
module Broker {
  import opened Base
  import opened Text
  import opened Candles

  // ---------------------------------------------------------------------
  // Connection handshake

  /** The answer of one `GetConnectState()` call. */
  datatype Probe = Answers(state: int) | Throws(message: string)

  /** What a polling loop over `GetConnectState()` observes within its
      attempt limit: a state of 1, no state of 1, or an exception. */
  datatype Polls = Reached | NeverReached | PollThrows(message: string)

  /** The broker's behaviour during one connect-and-login sequence: the
      first state probe, the `OnEventConnect` error code delivered while
      `CommConnect` runs (if any), whether `CommConnect` raises, and what
      the connect and login polling loops observe. */
  datatype Handshake = Handshake(
    probe: Probe,
    connectEvent: Option<int>,
    commConnect: Option<string>,
    connectPolls: Polls,
    loginPolls: Polls)

  /** Whether `connect` returns True: the first probe answers 1, or
      `CommConnect` returns and one of the later probes answers 1. */
  predicate Connects(h: Handshake)
  {
    h.probe.Answers? && (h.probe.state == 1 || (h.commConnect.None? && h.connectPolls == Reached))
  }

  /** The `connected` flag after `connect` in the two condition-search
      clients, whose `on_event_connect` sets it to `err_code == 0`: set on
      success, left alone when the first probe raises, and otherwise as
      the connect event (if one arrives) leaves it. */
  function ConnectedAfter(was: bool, h: Handshake): bool
  {
    if Connects(h) then true
    else if h.probe.Answers? && h.connectEvent.Some? then h.connectEvent.value == 0
    else was
  }

  /** The outcome of a connection step: it returns a flag, or the
      exception of the first state probe (taken outside any `try`)
      escapes. */
  datatype Attempt = Returned(ok: bool) | Threw(message: string)

  // ---------------------------------------------------------------------
  // Condition names

  /** One element of the list `GetConditionNameList()` may return. */
  datatype ConditionItem = TupleItem(fields: seq<string>) | TextItem(text: string) | OtherItem

  /** The value `GetConditionNameList()` returns, or its exception: a list,
      a string, some other value (with its Python truthiness). */
  datatype ConditionNames =
    | NamesList(items: seq<ConditionItem>)
    | NamesText(text: string)
    | NamesOther(truthy: bool)
    | NamesRaised(message: string)

  predicate Truthy(names: ConditionNames)
  {
    match names
    case NamesList(items) => items != []
    case NamesText(text) => text != ""
    case NamesOther(truthy) => truthy
    case NamesRaised(_) => false
  }

  /** The list both `get_condition_list` variants return for a successful
      call: a list as it is, a non-empty string split on `;` (empty pieces
      kept), anything else `[]`. */
  function ConditionListOf(names: ConditionNames): (list: seq<ConditionItem>)
    ensures names.NamesList? && names.items != [] ==> list == names.items
    ensures names.NamesText? && names.text != "" ==>
      |list| == |Split(names.text, ';')| &&
      forall k :: 0 <= k < |list| ==> list[k] == TextItem(Split(names.text, ';')[k])
    ensures !Truthy(names) ==> list == []
    ensures names.NamesOther? ==> list == []
  {
    match names
    case NamesList(items) => items
    case NamesText(text) => if text == "" then [] else TextItems(Split(text, ';'))
    case NamesOther(_) => []
    case NamesRaised(_) => []
  }

  function TextItems(pieces: seq<string>): (r: seq<ConditionItem>)
    ensures |r| == |pieces|
    ensures forall k :: 0 <= k < |pieces| ==> r[k] == TextItem(pieces[k])
  {
    if pieces == [] then [] else TextItems(pieces[..|pieces| - 1]) + [TextItem(pieces[|pieces| - 1])]
  }

  /** A non-empty condition string always yields a non-empty list. */
  lemma ConditionListTruthy(names: ConditionNames)
    requires !names.NamesOther?
    ensures ConditionListOf(names) != [] <==> Truthy(names)
  {
  }

  /** The names rebuild the received string: joining the pieces with `;`
      gives it back. */
  lemma ConditionTextRoundTrip(text: string)
    requires text != ""
    ensures var list := ConditionListOf(NamesText(text));
      Join(seq(|list|, k requires 0 <= k < |list| => list[k].text), ';') == text
  {
    var list := ConditionListOf(NamesText(text));
    var pieces := Split(text, ';');
    assert seq(|list|, k requires 0 <= k < |list| => list[k].text) == pieces;
    JoinSplit(text, ';');
  }

  /** The condition name a run uses: the second field of the first element
      when that element is a tuple of at least two fields, else "". */
  function ConditionNameOf(list: seq<ConditionItem>): (name: string)
    ensures name != "" ==> |list| > 0 && list[0].TupleItem? && |list[0].fields| >= 2 &&
                           name == list[0].fields[1]
    ensures |list| > 0 && list[0].TupleItem? && |list[0].fields| >= 2 ==> name == list[0].fields[1]
  {
    if |list| > 0 && list[0].TupleItem? && |list[0].fields| >= 2 then list[0].fields[1] else ""
  }

  /** Python `index, name = condition.split('^')`: succeeds exactly when the
      piece holds one `^`. */
  function ParseIndexName(piece: string): Option<(string, string)>
  {
    var parts := Split(piece, '^');
    if |parts| == 2 then Some((parts[0], parts[1])) else None
  }

  /** A parsed piece is `index ^ name` with no further `^`, and every such
      piece parses back to its two halves. */
  lemma ParseIndexNameRoundTrip(index: string, name: string)
    requires '^' !in index && '^' !in name
    ensures ParseIndexName(index + ['^'] + name) == Some((index, name))
  {
    SplitConcat(index, name, '^');
    SplitNoSeparator(index, '^');
    SplitNoSeparator(name, '^');
  }

  lemma ParseIndexNameSound(piece: string)
    requires ParseIndexName(piece).Some?
    ensures var (index, name) := ParseIndexName(piece).value;
      piece == index + ['^'] + name && '^' !in index && '^' !in name
  {
    var parts := Split(piece, '^');
    JoinSplit(piece, '^');
    SplitPiecesAvoidSeparator(piece, '^');
    assert Join(parts, '^') == parts[0] + ['^'] + Join(parts[1..], '^');
    assert parts[1..] == [parts[1]];
  }

  /** A line of the catalogue `get_condition_list` reports for a string
      list. */
  datatype Listed = Parsed(index: string, name: string) | Unparsable(piece: string)

  /** The report for the pieces of a string list: whitespace-only pieces
      are skipped, the rest parsed as `index^name`, a bad piece reported
      and tolerated. */
  function Catalogue(pieces: seq<string>): seq<Listed>
  {
    Keep(pieces, ListedOf)
  }

  function ListedOf(piece: string): Option<Listed>
  {
    if Strip(piece) == "" then None
    else match ParseIndexName(piece)
      case Some((index, name)) => Some(Parsed(index, name))
      case None => Some(Unparsable(piece))
  }

  /** Every catalogue line comes, in order, from a piece that is not
      whitespace only: a parsed line from a piece that is exactly
      `index ^ name`, an unparsable line from a piece that does not split
      in two; and every such piece has its line. */
  lemma CatalogueCharacterised(pieces: seq<string>)
    ensures var idx := KeptIndices(pieces, ListedOf); var c := Catalogue(pieces);
      && |idx| == |c|
      && Increasing(idx)
      && (forall k :: 0 <= k < |idx| ==>
            && 0 <= idx[k] < |pieces| && Strip(pieces[idx[k]]) != ""
            && (c[k].Parsed? ==>
                  pieces[idx[k]] == c[k].index + ['^'] + c[k].name &&
                  '^' !in c[k].index && '^' !in c[k].name)
            && (c[k].Unparsable? ==>
                  c[k].piece == pieces[idx[k]] && ParseIndexName(pieces[idx[k]]).None?))
      && (forall i :: 0 <= i < |pieces| && Strip(pieces[i]) != "" ==> i in idx)
  {
    var idx := KeptIndices(pieces, ListedOf);
    var c := Catalogue(pieces);
    KeepCharacterised(pieces, ListedOf);
    forall k | 0 <= k < |idx| && c[k].Parsed?
      ensures pieces[idx[k]] == c[k].index + ['^'] + c[k].name
      ensures '^' !in c[k].index && '^' !in c[k].name
    {
      ParseIndexNameSound(pieces[idx[k]]);
    }
  }

  /** The catalogue line printed for an element of a returned list: a
      tuple of at least two fields shows its first two. */
  function ListedItemOf(item: ConditionItem): Option<Listed>
  {
    if item.TupleItem? && |item.fields| >= 2 then Some(Parsed(item.fields[0], item.fields[1])) else None
  }

  /** The list `get_condition_list` returns once logged in: `[]` when
      `GetConditionLoad` raises (`load` holds its message), else the list
      the names give. */
  function LoadedConditionList(load: Option<string>, names: ConditionNames): (list: seq<ConditionItem>)
    ensures list != [] ==> load.None? && Truthy(names) && list == ConditionListOf(names)
    ensures load.None? && Truthy(names) && !names.NamesOther? ==> list != []
  {
    if load.Some? then [] else ConditionListOf(names)
  }

  // ---------------------------------------------------------------------
  // Condition search results

  /** The reply of `SendCondition`: a list of codes returned at once, a
      status code, or an exception. */
  datatype SendOutcome = SentCodes(codes: seq<string>) | SentStatus(status: int) | SendRaised(message: string)

  /** The entry appended for one received code: the code with the name
      `GetMasterCodeName` gives it, unless the code is whitespace only. */
  function CodeEntryOf(nameOf: string -> string): string -> Option<StockRef>
  {
    (code: string) => if Strip(code) != "" then Some(StockRef(nameOf(code), code)) else None
  }

  /** The `{code, name}` entries a list of received codes yields. */
  function CodeEntries(codes: seq<string>, nameOf: string -> string): seq<StockRef>
  {
    Keep(codes, CodeEntryOf(nameOf))
  }

  /** The entries are, in order, exactly the codes that are not
      whitespace only, each named by `nameOf` and kept unstripped. */
  lemma CodeEntriesCharacterised(codes: seq<string>, nameOf: string -> string)
    ensures var idx := KeptIndices(codes, CodeEntryOf(nameOf)); var es := CodeEntries(codes, nameOf);
      && |idx| == |es|
      && Increasing(idx)
      && (forall k :: 0 <= k < |idx| ==>
            0 <= idx[k] < |codes| && Strip(codes[idx[k]]) != "" &&
            es[k] == StockRef(nameOf(codes[idx[k]]), codes[idx[k]]))
      && (forall i :: 0 <= i < |codes| && Strip(codes[i]) != "" ==> i in idx)
  {
    KeepCharacterised(codes, CodeEntryOf(nameOf));
  }

  /** The append loop every code handler runs over received codes. */
  method CollectCodes(codes: seq<string>, nameOf: string -> string) returns (entries: seq<StockRef>)
    ensures entries == CodeEntries(codes, nameOf)
  {
    entries := [];
    for i := 0 to |codes|
      invariant entries == CodeEntries(codes[..i], nameOf)
    {
      assert codes[..i + 1][..i] == codes[..i];
      if Strip(codes[i]) != "" {
        entries := entries + [StockRef(nameOf(codes[i]), codes[i])];
      }
    }
    assert codes[..|codes|] == codes;
  }

  /** The codes of a `;`-separated code string as `on_receive_tr_condition`
      handles it: an empty string gives no codes at all. */
  function CodesOf(codes: string): seq<string>
  {
    if codes == "" then [] else Split(codes, ';')
  }

  /** The codes a logged-in `search_condition` receives: the list
      `SendCondition` returns, or, when it answers 0 or 1, the code string
      of the `OnReceiveTrCondition` event that arrives within the wait
      (`event`), split as the handler splits it; nothing otherwise. */
  function ReceivedCodes(send: SendOutcome, event: Option<string>): seq<string>
  {
    match send
    case SentCodes(codes) => codes
    case SentStatus(status) =>
      if (status == 0 || status == 1) && event.Some? then CodesOf(event.value) else []
    case SendRaised(_) => []
  }

  /** Whether the search ends through the event handler. */
  predicate Delivers(send: SendOutcome, event: Option<string>)
  {
    send.SentStatus? && (send.status == 0 || send.status == 1) && event.Some?
  }

  /** What a logged-in `search_condition` returns. */
  function SearchResult(send: SendOutcome, event: Option<string>, nameOf: string -> string): seq<StockRef>
  {
    CodeEntries(ReceivedCodes(send, event), nameOf)
  }

  /** A search that raises, is refused, or waits in vain returns no
      entries; otherwise its entries are, in order, exactly the received
      codes that are not whitespace only, each with its master name. */
  lemma SearchResultCharacterised(send: SendOutcome, event: Option<string>, nameOf: string -> string)
    ensures send.SendRaised? ==> SearchResult(send, event, nameOf) == []
    ensures send.SentStatus? && !Delivers(send, event) ==> SearchResult(send, event, nameOf) == []
    ensures var codes := ReceivedCodes(send, event);
      var idx := KeptIndices(codes, CodeEntryOf(nameOf)); var es := SearchResult(send, event, nameOf);
      && |idx| == |es|
      && Increasing(idx)
      && (forall k :: 0 <= k < |idx| ==>
            0 <= idx[k] < |codes| && Strip(codes[idx[k]]) != "" &&
            es[k] == StockRef(nameOf(codes[idx[k]]), codes[idx[k]]))
      && (forall i :: 0 <= i < |codes| && Strip(codes[i]) != "" ==> i in idx)
  {
    CodeEntriesCharacterised(ReceivedCodes(send, event), nameOf);
  }

  /** A non-empty code string gives the same entries whether it comes back
      from `SendCondition` at once or through the event. */
  lemma DeliveryPathsAgree(text: string, status: int, nameOf: string -> string)
    requires text != "" && (status == 0 || status == 1)
    ensures SearchResult(SentStatus(status), Some(text), nameOf) ==
            SearchResult(SentCodes(Split(text, ';')), None, nameOf)
  {
  }

  /** No whitespace-only piece and no empty string makes an entry; an
      empty code string makes none. */
  lemma EmptyCodeStringYieldsNothing(nameOf: string -> string)
    ensures CodeEntries(CodesOf(""), nameOf) == []
    ensures CodeEntries(Split("", ';'), nameOf) == []
  {
    assert Split("", ';') == [""];
    assert Strip("") == "";
    assert [""][..0] == [];
  }

  // ---------------------------------------------------------------------
  // Result envelope

  /** `{"success": True, "condition_name", "count", "result"}` or
      `{"success": False, "error"}`. */
  datatype Envelope<T> = Success(conditionName: string, count: nat, result: seq<T>) | Failure(error: string)

  function SuccessOf<T>(name: string, result: seq<T>): (e: Envelope<T>)
    ensures e.Success? && e.conditionName == name && e.result == result && e.count == |result|
  {
    Success(name, |result|, result)
  }

  predicate CountMatches<T>(e: Envelope<T>)
  {
    e.Success? ==> e.count == |e.result|
  }
}
