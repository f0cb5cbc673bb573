/**
 * The background router: the handlers it registers on the message bus and
 * the state they share. Every observable effect (a message sent, a reply to
 * a requester, a post to a worker, a call into the voice engine, the
 * context menu or the tabs API) is appended to a trace; the persistent
 * key-value store is a map the handlers read and write.
 */
module Routes {
  import opened Wrappers
  import opened JsString
  import opened Messaging
  import opened Commands
  import GoToCommand

  /** A correlation id pairing a worker request with its reply. */
  type Uid = nat
  /** Identifies the responder of one incoming bus request. */
  type ReqId = nat

  datatype Language = Language(code: string, labelText: string)

  /** A stored setting. */
  datatype Value =
    | Flag(b: bool)
    | Text(s: string)
    | Lang(language: Language)
    | Dict(entries: map<string, string>)

  type Store = map<string, Value>

  /** `db.get(key)[key]`; None is `undefined`. */
  function Get(store: Store, key: string): Option<Value> {
    if key in store then Some(store[key]) else None
  }

  /** JavaScript truthiness of a setting. */
  predicate Truthy(v: Option<Value>)
    ensures v.None? ==> !Truthy(v)
    ensures v.Some? && v.value.Flag? ==> (Truthy(v) <==> v.value.b)
    ensures v.Some? && v.value.Text? ==> (Truthy(v) <==> |v.value.s| > 0)
    ensures v.Some? && (v.value.Lang? || v.value.Dict?) ==> Truthy(v)
  {
    match v
    case None => false
    case Some(Flag(b)) => b
    case Some(Text(s)) => s != ""
    case Some(_) => true
  }

  /** The stored `defaultLanguage`; None where reading its `code` fails. */
  function LanguageOf(store: Store): (r: Option<Language>)
    ensures r.Some? <==> "defaultLanguage" in store && store["defaultLanguage"].Lang?
    ensures r.Some? ==> store["defaultLanguage"] == Lang(r.value)
  {
    match Get(store, "defaultLanguage")
    case Some(Lang(l)) => Some(l)
    case _ => None
  }

  /** The stored `textReplacementMap`; None where it is not an object. */
  function ReplacementsOf(store: Store): (r: Option<map<string, string>>)
    ensures r.Some? <==> "textReplacementMap" in store && store["textReplacementMap"].Dict?
    ensures r.Some? ==> store["textReplacementMap"] == Dict(r.value)
  {
    match Get(store, "textReplacementMap")
    case Some(Dict(m)) => Some(m)
    case _ => None
  }

  /** The `if (isMicListening)` test on the stored flag. */
  predicate MicListening(store: Store)
    ensures MicListening(store) ==> "isMicListening" in store
    ensures "isMicListening" in store && store["isMicListening"].Flag? ==>
      (MicListening(store) <==> store["isMicListening"].b)
  {
    Truthy(Get(store, "isMicListening"))
  }

  const StartTitle: string := "Start Speech Recognition Toolkit"
  const StopTitle: string := "Stop Speech Recognition Toolkit"

  datatype Worker = EmojiWorker | TranslationWorker

  /** What a handler posts to a worker: `{..., uid, action}`. */
  datatype WorkerRequest =
    | EmojiQuery(langId: string, emojiName: string, uid: Uid)
    | EmojiListQuery(langId: string, uid: Uid)
    | MessageQuery(langId: string, key: string, uid: Uid)
  {
    /** The `action` field; each kind of request has its own. */
    function Action(): string
      ensures EmojiQuery? <==> Action() == "emoji"
      ensures EmojiListQuery? <==> Action() == "emoji_list"
      ensures MessageQuery? <==> Action() == "getMessage"
    {
      match this
      case EmojiQuery(_, _, _) => "emoji"
      case EmojiListQuery(_, _) => "emoji_list"
      case MessageQuery(_, _, _) => "getMessage"
    }
  }

  /** The `data` of a worker's message event; a field the worker leaves out is empty. */
  datatype WorkerData = WorkerData(uid: Uid, emoji: string, emojiList: seq<string>, message: string)

  /** What a registered worker listener does with a reply that carries its uid. */
  datatype ListenerKind = ForEmoji | ForEmojiList | ForTranslation(localKey: string) {
    /** The worker the listener is added to with `addEventListener`. */
    function Source(): Worker {
      match this
      case ForTranslation(_) => TranslationWorker
      case _ => EmojiWorker
    }
  }

  /** A message listener added to a worker for the request of `requester`. */
  datatype Listener = Listener(kind: ListenerKind, uid: Uid, requester: ReqId)

  /** One entry of the translated command list: `[match.join(", "), description, id]`. */
  datatype Row = Row(triggers: string, description: string, id: string)

  /** What a handler or a worker listener passes to the requester's responder. */
  datatype Response =
    | MicState(isMicListening: bool)
    | StoredData(data: Option<Value>)
    | MountAck(mountAckId: Option<Value>)
    | EmojiFound(emoji: string)
    | EmojiListFound(emojiList: seq<string>)
    | Translated(message: string)
    | CommandList(rows: seq<Row>)

  datatype Event =
    | Sent(envelope: Envelope)
    | Responded(requester: ReqId, response: Response)
    | Posted(worker: Worker, request: WorkerRequest)
    | VoiceStarted
    | VoiceStopped
    | LanguageSet(code: string)
    | Spoken(text: string, lang: string)
    | MenuRetitled(menuId: string, title: string)
    | HelpPageOpened(subPath: string)
    | TabCreated(url: string)

  /** The memo key of a translation: `${langId}-${key}`. */
  function LocalKey(langId: string, key: string): (k: string)
    ensures |k| == |langId| + 1 + |key|
    ensures k[..|langId|] == langId && k[|langId|] == '-' && k[|langId| + 1..] == key
  {
    langId + "-" + key
  }

  /** For one language the memo keys of different message keys differ. */
  lemma LocalKeysOfOneLanguage(langId: string, key1: string, key2: string)
    requires LocalKey(langId, key1) == LocalKey(langId, key2)
    ensures key1 == key2
  {
    assert key1 == LocalKey(langId, key1)[|langId| + 1..];
  }

  /** Two different (language, key) pairs can share one memo entry. */
  lemma LocalKeysCollide()
    ensures LocalKey("zh-CN", "hello") == LocalKey("zh", "CN-hello")
  {
  }

  /**
   * `text[0].toUpperCase()` on ASCII letters; the capitalisation branch of
   * `processInput` computes it and throws the result away.
   */
  function UpperChar(c: char): char {
    if 'a' <= c <= 'z' then (c as int - 32) as char else c
  }

  /**
   * The text `processInput` hands to the matcher. A truthy replacement for
   * the whole text wins; otherwise the capitalisation branch computes an
   * upper-case first character and drops it, so the text stays as it came.
   */
  function MatcherInput(replacements: map<string, string>, capitalization: bool, text: string): (t: string)
    ensures text in replacements && replacements[text] != "" ==> t == replacements[text]
    ensures !(text in replacements && replacements[text] != "") ==> t == text
  {
    if text in replacements && replacements[text] != "" then replacements[text]
    else if capitalization && text != "" then
      var discarded := UpperChar(text[0]);
      text
    else text
  }

  /** The capitalisation setting never changes what the matcher receives. */
  lemma CapitalizationHasNoEffect(replacements: map<string, string>, text: string)
    ensures MatcherInput(replacements, true, text) == MatcherInput(replacements, false, text)
  {
  }

  /** `command.exec(commandContent, {originalText}, callback)` for the matched command. */
  function Execute(service: Service, m: Match): (out: ExecOutcome)
    ensures m.command.action.GoToAction? ==>
      && out.sends == [Envelope(Background, "/go_to", Url(GoToCommand.Content(m.command.action.alias, m.commandContent)))]
      && !out.callback.HasMessage()
    ensures m.command.action.External? ==> out == service.execExternal(m.command, m.commandContent, m.originalText)
  {
    match m.command.action
    case GoToAction(alias) => GoToCommand.Exec(alias, m.commandContent)
    case External => service.execExternal(m.command, m.commandContent, m.originalText)
  }

  function SendsOf(envelopes: seq<Envelope>): (events: seq<Event>)
    ensures |events| == |envelopes|
    ensures forall i :: 0 <= i < |envelopes| ==> events[i] == Sent(envelopes[i])
  {
    seq(|envelopes|, i requires 0 <= i < |envelopes| => Sent(envelopes[i]))
  }

  /** The "/sr_text" message for unmatched text. */
  function SrTextEvent(text: string, language: Language, mode: Mode): (e: Event)
    ensures e.Sent? && e.envelope.target == ActiveTab && e.envelope.topic == "/sr_text"
    ensures e.envelope.payload.SrText?
    ensures var p := e.envelope.payload;
      p.text == text && p.langId == language.code && p.langLabel == language.labelText && p.mode == mode
  {
    Sent(Envelope(ActiveTab, "/sr_text", SrText(text, language.code, language.labelText, mode)))
  }

  /**
   * What one call of `processInput` emits once the replacement map is an
   * object: a matched command's own messages followed by a "/message" if
   * its callback got a truthy message, or else a single "/sr_text".
   */
  function InputEffects(service: Service, commands: seq<Command>, language: Language,
                        replacements: map<string, string>, capitalization: bool,
                        text: string, mode: Mode): (effects: seq<Event>)
    ensures var t := MatcherInput(replacements, capitalization, text);
      service.getMatchingCommand(commands, t, mode).None? ==>
        effects == [SrTextEvent(t, language, mode)]
    ensures var m := service.getMatchingCommand(commands, MatcherInput(replacements, capitalization, text), mode);
      m.Some? ==>
        var out := Execute(service, m.value);
        && |effects| == |out.sends| + (if out.callback.HasMessage() then 1 else 0)
        && effects[..|out.sends|] == SendsOf(out.sends)
        && (out.callback.HasMessage() ==>
              effects[|out.sends|] == Sent(Envelope(ActiveTab, "/message", Notice(out.callback.message.value))))
  {
    var t := MatcherInput(replacements, capitalization, text);
    match service.getMatchingCommand(commands, t, mode)
    case None => [SrTextEvent(t, language, mode)]
    case Some(m) =>
      var out := Execute(service, m);
      SendsOf(out.sends) +
        (if out.callback.HasMessage()
         then [Sent(Envelope(ActiveTab, "/message", Notice(out.callback.message.value)))]
         else [])
  }

  /**
   * When the matcher picks the "go to" command, the only message is the
   * command's own "/go_to" to the background: no "/message", no "/sr_text".
   */
  lemma GoToMatchSendsOnlyGoTo(service: Service, commands: seq<Command>, language: Language,
                               replacements: map<string, string>, capitalization: bool,
                               text: string, mode: Mode)
    requires var m := service.getMatchingCommand(commands, MatcherInput(replacements, capitalization, text), mode);
      m.Some? && m.value.command.action.GoToAction?
    ensures var m := service.getMatchingCommand(commands, MatcherInput(replacements, capitalization, text), mode).value;
      InputEffects(service, commands, language, replacements, capitalization, text, mode)
        == [Sent(Envelope(Background, "/go_to", Url(GoToCommand.Content(m.command.action.alias, m.commandContent))))]
  {
  }

  /** A listener runs its responder for a reply only when the reply comes from its worker and carries its uid. */
  predicate Fires(l: Listener, worker: Worker, data: WorkerData)
    ensures Fires(l, worker, data) ==> l.uid == data.uid
    ensures Fires(l, worker, data) ==> (l.kind.ForTranslation? <==> worker == TranslationWorker)
  {
    l.kind.Source() == worker && l.uid == data.uid
  }

  /** What a firing listener passes to its responder. */
  function ReplyOf(kind: ListenerKind, data: WorkerData): (r: Response)
    ensures kind.ForEmoji? <==> r.EmojiFound?
    ensures kind.ForEmojiList? <==> r.EmojiListFound?
    ensures kind.ForTranslation? <==> r.Translated?
    ensures r.EmojiFound? ==> r.emoji == data.emoji
    ensures r.EmojiListFound? ==> r.emojiList == data.emojiList
    ensures r.Translated? ==> r.message == data.message
  {
    match kind
    case ForEmoji => EmojiFound(data.emoji)
    case ForEmojiList => EmojiListFound(data.emojiList)
    case ForTranslation(_) => Translated(data.message)
  }

  /** The positions of the listeners that a worker message fires. */
  ghost function FiringAt(ls: seq<Listener>, worker: Worker, data: WorkerData): set<int> {
    set i | 0 <= i < |ls| && Fires(ls[i], worker, data)
  }

  /** The firing positions of `ls` are those of all but its last listener, and the last one's if it fires. */
  lemma FiringAtLast(ls: seq<Listener>, worker: Worker, data: WorkerData)
    requires ls != []
    ensures var n := |ls| - 1;
      |FiringAt(ls, worker, data)| == |FiringAt(ls[..n], worker, data)| + (if Fires(ls[n], worker, data) then 1 else 0)
  {
    var n := |ls| - 1;
    var before := FiringAt(ls[..n], worker, data);
    assert forall i :: 0 <= i < n ==> ls[i] == ls[..n][i];
    if Fires(ls[n], worker, data) {
      assert FiringAt(ls, worker, data) == before + {n};
      assert n !in before;
    } else {
      assert FiringAt(ls, worker, data) == before;
    }
  }

  /**
   * The responses one worker message causes, listener by listener in the
   * order they were added: every one goes to the requester of a listener of
   * that worker whose uid is the reply's (`DeliveriesComplete` gives the
   * converse and the count).
   */
  function Deliveries(ls: seq<Listener>, worker: Worker, data: WorkerData): (es: seq<Event>)
    ensures |es| <= |ls|
    ensures forall e :: e in es ==>
      exists l :: l in ls && Fires(l, worker, data) && e == Responded(l.requester, ReplyOf(l.kind, data))
  {
    if ls == [] then []
    else
      var init := Deliveries(ls[..|ls| - 1], worker, data);
      var l := ls[|ls| - 1];
      if Fires(l, worker, data) then init + [Responded(l.requester, ReplyOf(l.kind, data))] else init
  }

  /**
   * Every firing listener answers its requester, and there is exactly one
   * response per firing listener.
   */
  lemma {:induction false} DeliveriesComplete(ls: seq<Listener>, worker: Worker, data: WorkerData)
    ensures |Deliveries(ls, worker, data)| == |FiringAt(ls, worker, data)|
    ensures forall i :: 0 <= i < |ls| && Fires(ls[i], worker, data) ==>
      Responded(ls[i].requester, ReplyOf(ls[i].kind, data)) in Deliveries(ls, worker, data)
  {
    if ls != [] {
      var n := |ls| - 1;
      DeliveriesComplete(ls[..n], worker, data);
      FiringAtLast(ls, worker, data);
      forall i | 0 <= i < n && Fires(ls[i], worker, data)
        ensures Responded(ls[i].requester, ReplyOf(ls[i].kind, data)) in Deliveries(ls, worker, data)
      {
        assert ls[..n][i] == ls[i];
      }
    }
  }

  /**
   * The translation memo after one worker message: each firing translation
   * listener stores the reply's message under its key; nothing else changes.
   */
  function MemoAfter(ls: seq<Listener>, worker: Worker, data: WorkerData, memo: map<string, string>): (m: map<string, string>)
    ensures memo.Keys <= m.Keys
    ensures forall k :: k in m && (k !in memo || m[k] != memo[k]) ==>
      m[k] == data.message && exists l :: l in ls && Fires(l, worker, data) && l.kind == ForTranslation(k)
  {
    if ls == [] then memo
    else
      var before := MemoAfter(ls[..|ls| - 1], worker, data, memo);
      var l := ls[|ls| - 1];
      if Fires(l, worker, data) && l.kind.ForTranslation? then before[l.kind.localKey := data.message] else before
  }

  /** Correlation ids strictly increase along the listeners, hence are distinct. */
  ghost predicate IncreasingUids(ls: seq<Listener>) {
    forall i, j :: 0 <= i < j < |ls| ==> ls[i].uid < ls[j].uid
  }

  /** A reply that no listener's uid matches reaches no requester and leaves the memo alone. */
  lemma {:induction false} MismatchIsIgnored(ls: seq<Listener>, worker: Worker, data: WorkerData, memo: map<string, string>)
    requires forall l :: l in ls ==> l.uid != data.uid
    ensures Deliveries(ls, worker, data) == []
    ensures MemoAfter(ls, worker, data, memo) == memo
  {
    if ls != [] {
      MismatchIsIgnored(ls[..|ls| - 1], worker, data, memo);
    }
  }

  /** With distinct uids, a reply matching the listener at `i` answers exactly that listener's requester, once. */
  lemma {:induction false} SingleDelivery(ls: seq<Listener>, i: nat, worker: Worker, data: WorkerData)
    requires IncreasingUids(ls)
    requires i < |ls| && Fires(ls[i], worker, data)
    ensures Deliveries(ls, worker, data) == [Responded(ls[i].requester, ReplyOf(ls[i].kind, data))]
  {
    var init := ls[..|ls| - 1];
    if i == |ls| - 1 {
      forall l | l in init ensures l.uid != data.uid {
        var j :| 0 <= j < |init| && init[j] == l;
        assert ls[j].uid < ls[i].uid;
      }
      MismatchIsIgnored(init, worker, data, map[]);
    } else {
      assert init[i] == ls[i];
      SingleDelivery(init, i, worker, data);
      assert ls[i].uid < ls[|ls| - 1].uid;
    }
  }

  /** A reply matching a translation listener leaves its message in the memo under that listener's key. */
  lemma {:induction false} ReplyFillsMemo(ls: seq<Listener>, i: nat, worker: Worker, data: WorkerData, memo: map<string, string>)
    requires i < |ls| && Fires(ls[i], worker, data) && ls[i].kind.ForTranslation?
    ensures var m := MemoAfter(ls, worker, data, memo);
      ls[i].kind.localKey in m && m[ls[i].kind.localKey] == data.message
  {
    if i < |ls| - 1 {
      assert ls[..|ls| - 1][i] == ls[i];
      ReplyFillsMemo(ls[..|ls| - 1], i, worker, data, memo);
    }
  }

  /**
   * `/commands_list_translated`: one row per command, in order. A command
   * whose `match` is not an array (a strategy tag) has no `join`, so the
   * handler fails and answers nothing (None).
   */
  function CommandRows(cmds: seq<Command>): (rows: Option<seq<Row>>)
    ensures rows.Some? <==> forall i :: 0 <= i < |cmds| ==> cmds[i].matching.Triggers?
    ensures rows.Some? ==> |rows.value| == |cmds|
    ensures rows.Some? ==> forall i :: 0 <= i < |cmds| ==>
      rows.value[i] == Row(Join(cmds[i].matching.phrases, ", "), cmds[i].description, cmds[i].id)
  {
    if cmds == [] then Some([])
    else
      match cmds[0].matching
      case Strategy(_) => None
      case Triggers(phrases) =>
        match CommandRows(cmds[1..])
        case None => None
        case Some(rest) => Some([Row(Join(phrases, ", "), cmds[0].description, cmds[0].id)] + rest)
  }

  /** The background router of one extension instance, set up by `Routes(voice, contextMenus)`. */
  class Router {
    const service: Service
    /** `contextMenus.startStopSRContextMenu` */
    const menuId: string
    /** `defaultLanguage`, read once at start-up */
    const language: Language
    /** `capitalization`, read once at start-up */
    const capitalization: bool
    /** `commands` */
    var commands: seq<Command>
    /** `textReplacementObj`; None is `undefined` */
    var replacements: Option<map<string, string>>
    /** `translationsLocal` */
    var translations: map<string, string>
    /** the persistent settings behind `db` */
    var store: Store
    /** message listeners added to the two workers, in order */
    var listeners: seq<Listener>
    /** the next id `guid.generateGuid()` returns */
    var nextUid: Uid
    var trace: seq<Event>

    ghost predicate Valid()
      reads this
    {
      && IncreasingUids(listeners)
      && (forall i :: 0 <= i < |listeners| ==> listeners[i].uid < nextUid)
    }

    /**
     * Start-up: read the language, the capitalisation flag and the
     * replacement map, and fetch the backend commands for the language.
     * Without a stored language the start-up fails and no router exists.
     */
    constructor (service: Service, menuId: string, store: Store)
      requires LanguageOf(store).Some?
      ensures Valid()
      ensures this.service == service && this.menuId == menuId && this.store == store
      ensures language == LanguageOf(store).value
      ensures capitalization == Truthy(Get(store, "capitalization"))
      ensures replacements == ReplacementsOf(store)
      ensures commands == service.getCommands(language.code, "backend")
      ensures translations == map[] && listeners == [] && trace == []
    {
      this.service := service;
      this.menuId := menuId;
      this.store := store;
      language := LanguageOf(store).value;
      capitalization := Truthy(Get(store, "capitalization"));
      replacements := ReplacementsOf(store);
      commands := service.getCommands(LanguageOf(store).value.code, "backend");
      translations := map[];
      listeners := [];
      nextUid := 0;
      trace := [];
    }

    /** `processInput(text, {mode})`; indexing an undefined replacement map throws before anything is sent. */
    method ProcessInput(text: string, mode: Mode)
      modifies this`trace
      ensures replacements.None? ==> trace == old(trace)
      ensures replacements.Some? ==>
        trace == old(trace) + InputEffects(service, commands, language, replacements.value, capitalization, text, mode)
    {
      if replacements.None? {
        return;
      }
      var obj := replacements.value;
      var t := text;
      if t in obj && obj[t] != "" {
        t := obj[t];
      } else if capitalization && t != "" {
        var discarded := UpperChar(t[0]);
      }
      var m := service.getMatchingCommand(commands, t, mode);
      if m.Some? {
        var out := Execute(service, m.value);
        trace := trace + SendsOf(out.sends);
        if out.callback.HasMessage() {
          trace := trace + [Sent(Envelope(ActiveTab, "/message", Notice(out.callback.message.value)))];
        }
      } else {
        trace := trace + [SrTextEvent(t, language, mode)];
      }
    }

    /** The voice engine's catch-all command `*text`. */
    method OnSpeech(text: string)
      modifies this`trace
      ensures replacements.None? ==> trace == old(trace)
      ensures replacements.Some? ==>
        trace == old(trace) + InputEffects(service, commands, language, replacements.value, capitalization, text, Speech)
    {
      ProcessInput(text, Speech);
    }

    /** "/process_input": text typed in the commands popup. */
    method OnProcessInput(text: string)
      modifies this`trace
      ensures replacements.None? ==> trace == old(trace)
      ensures replacements.Some? ==>
        trace == old(trace) + InputEffects(service, commands, language, replacements.value, capitalization, text, Typed)
    {
      ProcessInput(text, Typed);
    }

    /** "/navigation_req": open an internal extension page. */
    method OnNavigationReq(subPath: string)
      modifies this`trace
      ensures trace == old(trace) + [HelpPageOpened(subPath)]
    {
      trace := trace + [HelpPageOpened(subPath)];
    }

    /** "/set_selected_text": keep the selected text in the store. */
    method OnSetSelectedText(data: Value)
      modifies this`store
      ensures store == old(store)["data" := data]
    {
      store := store["data" := data];
    }

    /** "/get_data": answer with the stored selection. */
    method OnGetData(req: ReqId)
      modifies this`trace
      ensures trace == old(trace) + [Responded(req, StoredData(Get(store, "data")))]
    {
      trace := trace + [Responded(req, StoredData(Get(store, "data")))];
    }

    /** "/start_speech_recognition": with the microphone permission granted, set the language and start. */
    method OnStartSpeechRecognition(permissionState: string)
      modifies this`trace
      ensures permissionState != "granted" || LanguageOf(store).None? ==> trace == old(trace)
      ensures permissionState == "granted" && LanguageOf(store).Some? ==>
        trace == old(trace) + [LanguageSet(LanguageOf(store).value.code), VoiceStarted]
    {
      if permissionState == "granted" {
        var lang := LanguageOf(store);
        if lang.Some? {
          trace := trace + [LanguageSet(lang.value.code), VoiceStarted];
        }
      }
    }

    /** "/stop_speech_recognition" */
    method OnStopSpeechRecognition()
      modifies this`trace
      ensures trace == old(trace) + [VoiceStopped]
    {
      trace := trace + [VoiceStopped];
    }

    /**
     * "/toggle_sr": the two-state machine over the stored `isMicListening`.
     * Listening: stop and offer "Start"; idle: set the language, start and
     * offer "Stop". The stored flag and the answer are both the negation of
     * the flag read. Idle without a stored language fails before any effect.
     */
    method OnToggleSr(req: ReqId)
      modifies this`store, this`trace
      ensures var was := MicListening(old(store));
        !was && LanguageOf(old(store)).None? ==> store == old(store) && trace == old(trace)
      ensures var was := MicListening(old(store));
        was || LanguageOf(old(store)).Some? ==>
          && store == old(store)["isMicListening" := Flag(!was)]
          && MicListening(store) == !was
      ensures MicListening(old(store)) ==>
        trace == old(trace) + [VoiceStopped, MenuRetitled(menuId, StartTitle), Responded(req, MicState(false))]
      ensures !MicListening(old(store)) && LanguageOf(old(store)).Some? ==>
        trace == old(trace) + [LanguageSet(LanguageOf(old(store)).value.code), VoiceStarted,
                               MenuRetitled(menuId, StopTitle), Responded(req, MicState(true))]
    {
      var title := "";
      var isMicListening := MicListening(store);
      if isMicListening {
        trace := trace + [VoiceStopped];
        title := StartTitle;
      } else {
        var lang := LanguageOf(store);
        if lang.None? {
          return;
        }
        trace := trace + [LanguageSet(lang.value.code), VoiceStarted];
        title := StopTitle;
      }
      store := store["isMicListening" := Flag(!isMicListening)];
      trace := trace + [MenuRetitled(menuId, title), Responded(req, MicState(!isMicListening))];
    }

    /**
     * "/restart_sr": replace the command set for the stored language and,
     * only when listening, stop, set the language and start again. The
     * stored flag is never written.
     */
    method OnRestartSr()
      modifies this`commands, this`trace
      ensures LanguageOf(store).None? ==> commands == old(commands) && trace == old(trace)
      ensures LanguageOf(store).Some? ==> commands == service.getCommands(LanguageOf(store).value.code, "backend")
      ensures LanguageOf(store).Some? && MicListening(store) ==>
        trace == old(trace) + [VoiceStopped, LanguageSet(LanguageOf(store).value.code), VoiceStarted]
      ensures !MicListening(store) ==> trace == old(trace)
    {
      var lang := LanguageOf(store);
      if lang.None? {
        return;
      }
      commands := service.getCommands(lang.value.code, "backend");
      if MicListening(store) {
        trace := trace + [VoiceStopped, LanguageSet(lang.value.code), VoiceStarted];
      }
    }

    /** "/speak_sr": read `text` aloud in the stored language. */
    method OnSpeakSr(text: string)
      modifies this`trace
      ensures LanguageOf(store).None? ==> trace == old(trace)
      ensures LanguageOf(store).Some? ==> trace == old(trace) + [Spoken(text, LanguageOf(store).value.code)]
    {
      var lang := LanguageOf(store);
      if lang.Some? {
        trace := trace + [Spoken(text, lang.value.code)];
      }
    }

    /** "/get_cs_mountAck": answer with the stored mount acknowledgement id. */
    method OnGetMountAck(req: ReqId)
      modifies this`trace
      ensures trace == old(trace) + [Responded(req, MountAck(Get(store, "mountAckId")))]
    {
      trace := trace + [Responded(req, MountAck(Get(store, "mountAckId")))];
    }

    /** A fresh correlation id and a listener for it; nothing is ever removed. */
    method AddListener(kind: ListenerKind, req: ReqId) returns (uid: Uid)
      requires Valid()
      modifies this`nextUid, this`listeners
      ensures Valid()
      ensures uid == old(nextUid) && nextUid == uid + 1
      ensures listeners == old(listeners) + [Listener(kind, uid, req)]
      ensures forall l :: l in old(listeners) ==> l.uid != uid
    {
      uid := nextUid;
      nextUid := nextUid + 1;
      listeners := listeners + [Listener(kind, uid, req)];
    }

    /** "/get_emoji": post the query with a fresh uid and wait for the reply carrying it. */
    method OnGetEmoji(req: ReqId, langId: string, emojiName: string)
      requires Valid()
      modifies this`nextUid, this`listeners, this`trace
      ensures Valid()
      ensures nextUid == old(nextUid) + 1
      ensures listeners == old(listeners) + [Listener(ForEmoji, old(nextUid), req)]
      ensures trace == old(trace) + [Posted(EmojiWorker, EmojiQuery(langId, emojiName, old(nextUid)))]
      ensures forall l :: l in old(listeners) ==> l.uid != old(nextUid)
    {
      var uid := AddListener(ForEmoji, req);
      trace := trace + [Posted(EmojiWorker, EmojiQuery(langId, emojiName, uid))];
    }

    /** "/get_emoji_list": the same exchange for the list of a language. */
    method OnGetEmojiList(req: ReqId, langId: string)
      requires Valid()
      modifies this`nextUid, this`listeners, this`trace
      ensures Valid()
      ensures nextUid == old(nextUid) + 1
      ensures listeners == old(listeners) + [Listener(ForEmojiList, old(nextUid), req)]
      ensures trace == old(trace) + [Posted(EmojiWorker, EmojiListQuery(langId, old(nextUid)))]
      ensures forall l :: l in old(listeners) ==> l.uid != old(nextUid)
    {
      var uid := AddListener(ForEmojiList, req);
      trace := trace + [Posted(EmojiWorker, EmojiListQuery(langId, uid))];
    }

    /**
     * "/get_translated_message": a truthy memo entry answers at once;
     * otherwise one "getMessage" post and a listener that fills the memo
     * when the reply arrives. The memo itself is not written here.
     */
    method OnGetTranslatedMessage(req: ReqId, langId: string, key: string)
      requires Valid()
      modifies this`nextUid, this`listeners, this`trace
      ensures Valid()
      ensures var k := LocalKey(langId, key);
        k in translations && translations[k] != "" ==>
          && trace == old(trace) + [Responded(req, Translated(translations[k]))]
          && listeners == old(listeners) && nextUid == old(nextUid)
      ensures var k := LocalKey(langId, key);
        !(k in translations && translations[k] != "") ==>
          && trace == old(trace) + [Posted(TranslationWorker, MessageQuery(langId, key, old(nextUid)))]
          && nextUid == old(nextUid) + 1
          && listeners == old(listeners) + [Listener(ForTranslation(k), old(nextUid), req)]
          && (forall l :: l in old(listeners) ==> l.uid != old(nextUid))
    {
      var localKey := LocalKey(langId, key);
      if localKey in translations && translations[localKey] != "" {
        trace := trace + [Responded(req, Translated(translations[localKey]))];
      } else {
        var uid := AddListener(ForTranslation(localKey), req);
        trace := trace + [Posted(TranslationWorker, MessageQuery(langId, key, uid))];
      }
    }

    /**
     * A worker's message event: every listener added to that worker runs,
     * in the order it was added; those whose uid is the reply's answer
     * their requester, and a translation listener first stores the message.
     */
    method OnWorkerMessage(worker: Worker, data: WorkerData)
      modifies this`translations, this`trace
      ensures trace == old(trace) + Deliveries(listeners, worker, data)
      ensures translations == MemoAfter(listeners, worker, data, old(translations))
    {
      var i := 0;
      while i < |listeners|
        invariant 0 <= i <= |listeners|
        invariant trace == old(trace) + Deliveries(listeners[..i], worker, data)
        invariant translations == MemoAfter(listeners[..i], worker, data, old(translations))
      {
        var l := listeners[i];
        assert listeners[..i + 1][..i] == listeners[..i];
        if Fires(l, worker, data) {
          if l.kind.ForTranslation? {
            translations := translations[l.kind.localKey := data.message];
          }
          trace := trace + [Responded(l.requester, ReplyOf(l.kind, data))];
        }
        i := i + 1;
      }
      assert listeners[..i] == listeners;
    }

    /** "/open_text_replacement_view": open the option page's text replacer in a new tab. */
    method OnOpenTextReplacementView(optionPageUrl: string, text: string)
      modifies this`trace
      ensures trace == old(trace) + [TabCreated(optionPageUrl + "?path=textReplacer&text=" + text)]
    {
      var helpUrl := optionPageUrl + "?path=textReplacer&text=" + text;
      trace := trace + [TabCreated(helpUrl)];
    }

    /** "/update_text_replacement_obj": re-read the replacement map into the cache. */
    method OnUpdateTextReplacementObj()
      modifies this`replacements
      ensures replacements == ReplacementsOf(store)
    {
      replacements := ReplacementsOf(store);
    }

    /** "/commands_list_translated": the rows of every command of a language. */
    method OnCommandsListTranslated(req: ReqId, langId: string)
      modifies this`trace
      ensures var rows := CommandRows(service.getAllCommands(langId));
        && (rows.None? ==> trace == old(trace))
        && (rows.Some? ==> trace == old(trace) + [Responded(req, CommandList(rows.value))])
    {
      var rows := CommandRows(service.getAllCommands(langId));
      if rows.Some? {
        trace := trace + [Responded(req, CommandList(rows.value))];
      }
    }

    /**
     * Another context writes a setting (the options page, say); the handlers
     * that read the store afterwards see the new value.
     */
    method SettingChanged(key: string, value: Value)
      modifies this`store
      ensures store == old(store)[key := value]
    {
      store := store[key := value];
    }
  }
}
