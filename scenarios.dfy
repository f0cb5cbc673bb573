/**
 * Clients of the router: sequences of handler calls and what the trace
 * holds afterwards, proved from the handlers' contracts alone.
 */
module Scenarios {
  import opened Wrappers
  import opened Messaging
  import opened Commands
  import opened Routes
  import GoToCommand

  /** From idle, two toggles answer "listening" and then "idle", and the store agrees each time. */
  method ToggleTwice(r: Router, first: ReqId, second: ReqId)
    requires !MicListening(r.store) && LanguageOf(r.store).Some?
    modifies r
    ensures !MicListening(r.store)
    ensures r.trace == old(r.trace) + [
      LanguageSet(LanguageOf(old(r.store)).value.code), VoiceStarted,
      MenuRetitled(r.menuId, StopTitle), Responded(first, MicState(true)),
      VoiceStopped, MenuRetitled(r.menuId, StartTitle), Responded(second, MicState(false))]
  {
    r.OnToggleSr(first);
    assert MicListening(r.store) && LanguageOf(r.store) == LanguageOf(old(r.store));
    r.OnToggleSr(second);
  }

  /**
   * A translation asked for twice: the first request posts once and is
   * answered by the worker's reply, which fills the memo; the second is
   * answered from the memo without a post.
   */
  method TranslationIsMemoized(r: Router, first: ReqId, second: ReqId, langId: string, key: string, message: string)
    requires r.Valid() && message != ""
    requires LocalKey(langId, key) !in r.translations
    modifies r
    ensures r.Valid()
    ensures r.translations == old(r.translations)[LocalKey(langId, key) := message]
    ensures r.trace == old(r.trace) + [
      Posted(TranslationWorker, MessageQuery(langId, key, old(r.nextUid))),
      Responded(first, Translated(message)),
      Responded(second, Translated(message))]
  {
    var uid := r.nextUid;
    ghost var k := LocalKey(langId, key);
    r.OnGetTranslatedMessage(first, langId, key);
    ghost var posted := r.trace;
    var data := WorkerData(uid, "", [], message);
    ghost var ls := r.listeners;
    SingleDelivery(ls, |ls| - 1, TranslationWorker, data);
    MemoOnlyAtKey(ls, TranslationWorker, data, r.translations, k);
    r.OnWorkerMessage(TranslationWorker, data);
    assert r.translations == old(r.translations)[k := message];
    assert r.trace == posted + [Responded(first, Translated(message))];
    r.OnGetTranslatedMessage(second, langId, key);
  }

  /**
   * With distinct uids every firing translation listener carries the one
   * key of the listener whose uid the reply has, so the memo changes there
   * only.
   */
  lemma MemoOnlyAtKey(ls: seq<Listener>, worker: Worker, data: WorkerData, memo: map<string, string>, k: string)
    requires IncreasingUids(ls) && ls != []
    requires ls[|ls| - 1].uid == data.uid && ls[|ls| - 1].kind == ForTranslation(k)
    requires ls[|ls| - 1].kind.Source() == worker
    ensures var m := MemoAfter(ls, worker, data, memo);
      k in m && m[k] == data.message && m == memo[k := data.message]
  {
    var init := ls[..|ls| - 1];
    forall l | l in init ensures l.uid != data.uid {
      var j :| 0 <= j < |init| && init[j] == l;
      assert ls[j].uid < ls[|ls| - 1].uid;
    }
    MismatchIsIgnored(init, worker, data, memo);
  }

  /**
   * Two emoji requests whose replies come back in the reverse order: each
   * requester gets the emoji that carries its own uid.
   */
  method RepliesInReverseOrder(r: Router, a: ReqId, b: ReqId, langId: string, nameA: string, nameB: string,
                               emojiA: string, emojiB: string)
    requires r.Valid()
    modifies r
    ensures r.Valid()
    ensures r.trace == old(r.trace) + [
      Posted(EmojiWorker, EmojiQuery(langId, nameA, old(r.nextUid))),
      Posted(EmojiWorker, EmojiQuery(langId, nameB, old(r.nextUid) + 1)),
      Responded(b, EmojiFound(emojiB)),
      Responded(a, EmojiFound(emojiA))]
  {
    var uidA := r.nextUid;
    r.OnGetEmoji(a, langId, nameA);
    var uidB := r.nextUid;
    r.OnGetEmoji(b, langId, nameB);
    ghost var ls := r.listeners;
    var replyB := WorkerData(uidB, emojiB, [], "");
    var replyA := WorkerData(uidA, emojiA, [], "");
    SingleDelivery(ls, |ls| - 1, EmojiWorker, replyB);
    SingleDelivery(ls, |ls| - 2, EmojiWorker, replyA);
    r.OnWorkerMessage(EmojiWorker, replyB);
    r.OnWorkerMessage(EmojiWorker, replyA);
  }

  /** English settings with no replacements and the "go to" command as the only backend command. */
  function EnglishSettings(): Store {
    map["defaultLanguage" := Lang(Language("en", "English")),
        "capitalization" := Flag(false),
        "textReplacementMap" := Dict(map[])]
  }

  /**
   * A stand-in matcher: the first command when the text starts with "go to".
   * It hands `exec` the whole text as the command content; `exec` cuts the
   * alias out itself, so the URL is the one a matcher that strips the alias
   * would give.
   */
  function PrefixService(): Service {
    Service(
      (code, source) => [GoToCommand.Descriptor("go to", "Open a web page")],
      code => [],
      (cmds, t, mode) =>
        if |cmds| > 0 && |t| >= 5 && t[..5] == "go to" then Some(Match(cmds[0], t, t)) else None,
      (c, content, original) => ExecOutcome([], NotCalled))
  }

  /** Spoken "hello world" matches nothing and goes to the active tab as "/sr_text". */
  method HelloWorldPassesThrough() returns (trace: seq<Event>)
    ensures trace == [Sent(Envelope(ActiveTab, "/sr_text", SrText("hello world", "en", "English", Speech)))]
  {
    var settings := EnglishSettings();
    assert LanguageOf(settings) == Some(Language("en", "English"));
    assert ReplacementsOf(settings) == Some(map[]);
    var service := PrefixService();
    var r := new Router(service, "sr-menu", settings);
    var text := "hello world";
    assert text[..5] != "go to" by {
      assert text[0] != 'g';
    }
    assert service.getMatchingCommand(r.commands, text, Speech).None?;
    r.OnSpeech(text);
    trace := r.trace;
  }

  /**
   * Spoken "go to example.com" sends one "/go_to" with the URL "example.com"
   * and nothing else. The strings are parameters pinned by `requires` so the
   * solver does not unfold the string functions on the literals everywhere.
   */
  method GoToExampleNavigates(alias: string, url: string) returns (trace: seq<Event>)
    requires alias == "go to" && url == "example.com"
    ensures trace == [Sent(Envelope(Background, "/go_to", Url(url)))]
  {
    var settings := EnglishSettings();
    assert LanguageOf(settings) == Some(Language("en", "English"));
    assert ReplacementsOf(settings) == Some(map[]);
    assert !Truthy(Get(settings, "capitalization"));
    var r := new Router(PrefixService(), "sr-menu", settings);
    GoToExampleEffects(alias, url, r.commands, r.language);
    r.OnSpeech(alias + " " + url);
    trace := r.trace;
  }

  /** The stand-in matcher picks the go-to command for "go to example.com", which navigates to "example.com". */
  lemma GoToExampleEffects(alias: string, url: string, commands: seq<Command>, language: Language)
    requires alias == "go to" && url == "example.com"
    requires commands == [GoToCommand.Descriptor(alias, "Open a web page")]
    ensures InputEffects(PrefixService(), commands, language, map[], false, alias + " " + url, Speech)
      == [Sent(Envelope(Background, "/go_to", Url(url)))]
  {
    var text := alias + " " + url;
    assert text[..5] == "go to";
    assert MatcherInput(map[], false, text) == text;
    assert PrefixService().getMatchingCommand(commands, text, Speech) == Some(Match(commands[0], text, text));
    GoToCommand.GoToExample(alias, url);
    GoToMatchSendsOnlyGoTo(PrefixService(), commands, language, map[], false, text, Speech);
  }
}
