/** The extension's service worker: install-time defaults and script
    injection, the runtime-message router, the local-service status ladder,
    and the translation and chat handlers that call the generate endpoint.
    Each network or storage result is an input. */
module Background {
  import opened Js
  import opened Text
  import opened Browser

  const DefaultModel := "qwen:7b"
  const DefaultHost := "http://localhost:11434"
  const DefaultParams := Params(Num(0.7), Num(0.7), Num(4000.0))

  // ---------------------------------------------------------------------
  // Installation
  // ---------------------------------------------------------------------

  /** `chrome.storage.local.set(defaultConfig)`: five keys are written, and
      the colour and the initialisation flag are kept. */
  function InstallDefaults(store: Storage): (installed: Storage)
    ensures installed.selectedModel == Some(DefaultModel) && installed.apiHost == Some(DefaultHost)
    ensures installed.modelParams == Some(DefaultParams)
    ensures installed.sourceLang == Some("auto") && installed.targetLang == Some("zh")
    ensures installed.translationColor == store.translationColor
    ensures installed.modelInitialized == store.modelInitialized
  {
    store.(selectedModel := Some(DefaultModel), apiHost := Some(DefaultHost),
           modelParams := Some(DefaultParams), sourceLang := Some("auto"), targetLang := Some("zh"))
  }

  /** Tabs into which the content script and its styles are injected: web
      pages only, never the extension store. */
  predicate ShouldInject(url: Option<string>)
    ensures ShouldInject(url) ==> Present(url) && |url.value| >= 4 && url.value[..4] == "http"
    ensures Present(url) && "https://chrome.google.com/" <= url.value ==> !ShouldInject(url)
  {
    Present(url) && "http" <= url.value
    && !("https://chrome.google.com/" <= url.value) && !("chrome://" <= url.value)
  }

  /** The `chrome://` test never decides anything: a url that starts with
      `http` cannot start with `chrome://`. */
  lemma ChromeSchemeTestIsRedundant(url: Option<string>)
    ensures ShouldInject(url) <==>
            Present(url) && "http" <= url.value && !("https://chrome.google.com/" <= url.value)
  {
    if Present(url) && "http" <= url.value {
      assert url.value[0] == 'h' != "chrome://"[0];
    }
  }

  /** The `onInstalled` listener: on install or update it writes the defaults
      and injects into every eligible open tab (the status check it runs
      only logs a warning); for any other reason it does nothing. */
  method OnInstalled(reason: string, store: Storage, tabs: seq<Tab>)
    returns (stored: Storage, injected: seq<int>)
    ensures reason == "install" || reason == "update" ==>
              stored == InstallDefaults(store) && injected == EligibleIds(tabs, ShouldInject)
    ensures reason != "install" && reason != "update" ==> stored == store && injected == []
    ensures forall id :: id in injected ==>
              exists k :: 0 <= k < |tabs| && tabs[k].id == id && ShouldInject(tabs[k].url)
  {
    if reason == "install" || reason == "update" {
      stored := InstallDefaults(store);
      injected := SelectTabs(tabs, ShouldInject);
      forall id | id in injected
        ensures exists k :: 0 <= k < |tabs| && tabs[k].id == id && ShouldInject(tabs[k].url)
      {
        EligibleIdsMembership(tabs, ShouldInject, id);
      }
    } else {
      stored, injected := store, [];
    }
  }

  // ---------------------------------------------------------------------
  // Language names
  // ---------------------------------------------------------------------

  const Languages: map<string, string> :=
    map["en" := "英语", "zh" := "中文", "ja" := "日语", "ko" := "韩语", "auto" := "自动检测"]

  /** `getLanguageName` as intended: the five known codes get their names and
      every other code is returned unchanged. */
  function LanguageName(code: string): (name: string)
    ensures code in Languages ==> name == Languages[code]
    ensures name == code <==> code !in Languages
  {
    if code in Languages then Languages[code] else code
  }

  /** The members a plain object literal inherits from `Object.prototype`,
      with the text a template string makes of each. */
  const InheritedMembers: map<string, string> :=
    map["constructor" := "function Object() { [native code] }",
        "hasOwnProperty" := "function hasOwnProperty() { [native code] }",
        "isPrototypeOf" := "function isPrototypeOf() { [native code] }",
        "propertyIsEnumerable" := "function propertyIsEnumerable() { [native code] }",
        "toLocaleString" := "function toLocaleString() { [native code] }",
        "toString" := "function toString() { [native code] }",
        "valueOf" := "function valueOf() { [native code] }",
        "__defineGetter__" := "function __defineGetter__() { [native code] }",
        "__defineSetter__" := "function __defineSetter__() { [native code] }",
        "__lookupGetter__" := "function __lookupGetter__() { [native code] }",
        "__lookupSetter__" := "function __lookupSetter__() { [native code] }",
        "__proto__" := "[object Object]"]

  /** `languages[code] || code` as written: the lookup goes through the
      prototype chain, so an inherited member is found, is truthy, and its
      text ends up in the prompt. */
  function LanguageNameAsWritten(code: string): (name: string)
    ensures code !in InheritedMembers ==> name == LanguageName(code)
    ensures code in InheritedMembers ==> name == InheritedMembers[code]
  {
    if code in Languages then Languages[code]
    else if code in InheritedMembers then InheritedMembers[code]
    else code
  }

  /** The code `toString` is not returned unchanged as written; the
      intended lookup returns it unchanged. */
  lemma InheritedMemberCounterexample()
    ensures LanguageNameAsWritten("toString") == "function toString() { [native code] }"
    ensures LanguageNameAsWritten("toString") != "toString"
    ensures LanguageName("toString") == "toString"
  {
  }

  /** Every inherited member name is mistranslated as written. */
  lemma {:induction false} AsWrittenDiffersExactlyOnInheritedMembers(code: string)
    ensures LanguageNameAsWritten(code) != LanguageName(code) <==> code in InheritedMembers
  {
    if code in InheritedMembers {
      assert code !in Languages;
    }
  }

  // ---------------------------------------------------------------------
  // Service status
  // ---------------------------------------------------------------------

  datatype ServiceError = ServiceNotRunning | ModelNotFound | NeedInitialization | ConnectionError

  function ErrorCode(e: ServiceError): string
  {
    match e
    case ServiceNotRunning => "service_not_running"
    case ModelNotFound => "model_not_found"
    case NeedInitialization => "need_initialization"
    case ConnectionError => "connection_error"
  }

  function ErrorMessage(e: ServiceError): string
  {
    match e
    case ServiceNotRunning =>
      "翻译服务未启动。\n\n请按以下步骤操作：\n1. 确保已安装 Ollama\n2. 打开终端运行 Ollama 服务\n3. 设置环境变量 OLLAMA_ORIGINS=\"*\"\n4. 刷新页面重试"
    case ModelNotFound =>
      "首次使用需要进行初始化设置：\n\n1. 点击插件图标打开设置\n2. 在\"选择翻译模型\"下拉框中选择一个可用的模型\n\n完成后即可正常使用。"
    case NeedInitialization =>
      "首次使用需要初始化：\n\n请点击插件图标，在设置中重新选择一次翻译模型。\n\n这是一个一次性的设置步骤，之后就可以正常使用了。"
    case ConnectionError =>
      "无法连接到翻译服务。\n\n请检查：\n1. Ollama 服务是否正在运行\n2. 是否正确配置了环境变量\n3. 网络连接是否正常"
  }

  datatype Status = Ready | Unavailable(reason: ServiceError)

  /** The parsed body of `GET /api/tags`. `Unparsable` is a body on which
      `response.json()` or reading `models` throws; `NoModels` one whose
      `models` is missing or falsy; otherwise the `name` of each entry. */
  datatype TagsBody = Unparsable | NoModels | Models(names: seq<string>)

  /** The outcome of the tags request: the fetch rejected, or a response
      with its `ok` flag and body. */
  datatype TagsReply = Unreachable | Reply(ok: bool, body: TagsBody)

  /** `data.models || []`, as names. */
  function Listing(body: TagsBody): seq<string>
  {
    match body
    case Models(names) => names
    case _ => []
  }

  predicate Responding(tags: TagsReply)
  {
    tags.Reply? && tags.ok
  }

  predicate Readable(tags: TagsReply)
  {
    Responding(tags) && !tags.body.Unparsable?
  }

  predicate Listed(tags: TagsReply, model: string)
  {
    Readable(tags) && model in Listing(tags.body)
  }

  /** `checkOllamaService` with `isModelInitialized`: the first failing
      check decides the error, the flag is read only after the model was
      found, and anything that throws becomes a connection error. */
  function CheckService(tags: TagsReply, model: string, initialized: Value): (status: Status)
    ensures status == Ready <==> Listed(tags, model) && StrictlyTrue(initialized)
    ensures status == Unavailable(ServiceNotRunning) <==> tags.Reply? && !tags.ok
    ensures status == Unavailable(ConnectionError) <==> tags.Unreachable? || (Responding(tags) && !Readable(tags))
    ensures status == Unavailable(ModelNotFound) <==> Readable(tags) && !Listed(tags, model)
    ensures status == Unavailable(NeedInitialization) <==> Listed(tags, model) && !StrictlyTrue(initialized)
  {
    match tags
    case Unreachable => Unavailable(ConnectionError)
    case Reply(ok, body) =>
      if !ok then Unavailable(ServiceNotRunning)
      else if body.Unparsable? then Unavailable(ConnectionError)
      else if model !in Listing(body) then Unavailable(ModelNotFound)
      else if !StrictlyTrue(initialized) then Unavailable(NeedInitialization)
      else Ready
  }

  /** A missing `models` field behaves as an empty list. */
  lemma MissingModelsIsEmptyList(ok: bool, model: string, initialized: Value)
    ensures CheckService(Reply(ok, NoModels), model, initialized)
         == CheckService(Reply(ok, Models([])), model, initialized)
  {
  }

  /** The flag is consulted only once the service answered and listed the
      model: every other outcome is the same whatever the flag holds. */
  lemma {:induction false} FlagReadOnlyForListedModel(tags: TagsReply, model: string, f1: Value, f2: Value)
    requires !Listed(tags, model)
    ensures CheckService(tags, model, f1) == CheckService(tags, model, f2)
  {
    match tags
    case Unreachable =>
    case Reply(ok, body) =>
  }

  /** A truthy flag that is not `true` still fails the check. */
  lemma TruthyFlagIsNotEnough(model: string)
    ensures Truthy(Str("true")) && Truthy(Num(1.0))
    ensures CheckService(Reply(true, Models([model])), model, Str("true")) == Unavailable(NeedInitialization)
    ensures CheckService(Reply(true, Models([model])), model, Num(1.0)) == Unavailable(NeedInitialization)
  {
  }

  /** Right after a first install the flag has never been written, so the
      service is never reported ready, even when the default model is
      listed. */
  lemma {:induction false} FreshInstallNeedsInitialization(tags: TagsReply)
    ensures CheckService(tags, Resolve(InstallDefaults(EmptyStorage)).model,
                         InstallDefaults(EmptyStorage).modelInitialized) != Ready
  {
    assert InstallDefaults(EmptyStorage).modelInitialized == Undefined;
  }

  // ---------------------------------------------------------------------
  // Handlers
  // ---------------------------------------------------------------------

  /** The settings a handler uses once `||` has supplied the defaults. */
  datatype Resolved = Resolved(model: string, host: string, params: Params)

  /** Model, host and params fall back to their defaults independently. */
  function Resolve(store: Storage): (r: Resolved)
    ensures r.model != "" && r.host != ""
    ensures Present(store.selectedModel) ==> r.model == store.selectedModel.value
    ensures !Present(store.selectedModel) ==> r.model == DefaultModel
    ensures Present(store.apiHost) ==> r.host == store.apiHost.value
    ensures !Present(store.apiHost) ==> r.host == DefaultHost
    ensures r.params == if store.modelParams.Some? then store.modelParams.value else DefaultParams
  {
    Resolved(OrElse(store.selectedModel, DefaultModel), OrElse(store.apiHost, DefaultHost),
             if store.modelParams.Some? then store.modelParams.value else DefaultParams)
  }

  /** Resolving what was resolved changes nothing. */
  lemma ResolveIsIdempotent(store: Storage)
    ensures var r := Resolve(store);
            Resolve(store.(selectedModel := Some(r.model), apiHost := Some(r.host),
                           modelParams := Some(r.params))) == r
  {
  }

  /** The body of `POST /api/generate`, as far as the handlers read it:
      either it cannot be read (`json()` rejects, with the given message) or
      it carries the generated text in `response`. */
  datatype GenerateBody = Malformed(reason: string) | Generated(response: string)

  datatype GenerateReply = Rejected(reason: string) | Http(ok: bool, status: nat, body: GenerateBody)

  /** The request a handler sends to the generate endpoint. */
  datatype GenerateRequest = GenerateRequest(host: string, model: string, prompt: string, params: Params)

  /** Awaiting the generate call and its JSON: the text, or the message of
      the error it throws; a non-OK status throws `HTTP error! status: N`. */
  function Generate(reply: GenerateReply): (c: Completion<string>)
    ensures c.Returned? <==> reply.Http? && reply.ok && reply.body.Generated?
    ensures c.Returned? ==> c.value == reply.body.response
    ensures reply.Http? && !reply.ok ==> c == Raised("HTTP error! status: " + Decimal(reply.status))
    ensures reply.Rejected? ==> c == Raised(reply.reason)
    ensures reply.Http? && reply.ok && reply.body.Malformed? ==> c == Raised(reply.body.reason)
  {
    match reply
    case Rejected(reason) => Raised(reason)
    case Http(ok, status, body) =>
      if !ok then Raised("HTTP error! status: " + Decimal(status))
      else match body
        case Malformed(reason) => Raised(reason)
        case Generated(text) => Returned(text)
  }

  const TranslationIntro := "请将以下"
  const TranslationInto := "完整翻译成"
  const TranslationKeep := "，保持原文的段落格式和语气：\n\n"
  const TranslationTail := "\n\n只需要返回翻译结果，不要其他解释。"

  /** Where each outer part of `a + b + m + c + d` sits. */
  lemma FiveParts<T>(a: seq<T>, b: seq<T>, m: seq<T>, c: seq<T>, d: seq<T>)
    ensures var p := a + b + m + c + d;
            var n := |p| - |d|;
            && |a| + |b| <= n - |c|
            && p[..|a|] == a && p[|a|..|a| + |b|] == b
            && p[n - |c|..n] == c && p[n..] == d
  {
    var p := a + b + m + c + d;
    assert p == (a + b) + (m + c + d);
    assert p[..|a| + |b|] == a + b;
    assert p == (a + b + m) + (c + d);
    assert p[|a + b + m|..] == c + d;
  }

  /** The prompt around the two language names: the fixed introduction, the
      source name, then at the end the text and the fixed closing. */
  function PromptWith(text: string, sourceName: string, targetName: string): (p: string)
    ensures var n := |p| - |TranslationTail|;
            && |TranslationIntro| + |sourceName| <= n - |text|
            && p[..|TranslationIntro|] == TranslationIntro
            && p[|TranslationIntro|..|TranslationIntro| + |sourceName|] == sourceName
            && p[n - |text|..n] == text
            && p[n..] == TranslationTail
  {
    var middle := TranslationInto + targetName + TranslationKeep;
    FiveParts(TranslationIntro, sourceName, middle, text, TranslationTail);
    TranslationIntro + sourceName + middle + text + TranslationTail
  }

  /** The translation prompt, naming the languages with the corrected lookup. */
  function TranslationPrompt(text: string, sourceLang: string, targetLang: string): (p: string)
    ensures TranslationIntro <= p
    ensures |text| + |TranslationTail| <= |p| && p[|p| - |TranslationTail|..] == TranslationTail
  {
    PromptWith(text, LanguageName(sourceLang), LanguageName(targetLang))
  }

  /** The prompt as the code builds it, with the lookup as written. */
  function TranslationPromptAsWritten(text: string, sourceLang: string, targetLang: string): (p: string)
    ensures sourceLang !in InheritedMembers && targetLang !in InheritedMembers ==>
              p == TranslationPrompt(text, sourceLang, targetLang)
  {
    PromptWith(text, LanguageNameAsWritten(sourceLang), LanguageNameAsWritten(targetLang))
  }

  /** The two prompts agree unless a language code is an inherited member
      name; for `toString` as source language they differ. */
  lemma PromptDiffersForInheritedSource(text: string, targetLang: string)
    ensures TranslationPromptAsWritten(text, "toString", targetLang) != TranslationPrompt(text, "toString", targetLang)
  {
    InheritedMemberCounterexample();
    assert |LanguageNameAsWritten("toString")| != |LanguageName("toString")|;
  }

  /** The text to translate stands unaltered right before the fixed closing
      instruction, and the source language name right after the opening. */
  lemma TranslationPromptShape(text: string, sourceLang: string, targetLang: string)
    ensures var p := TranslationPrompt(text, sourceLang, targetLang);
            var n := |p| - |TranslationTail|;
            && |TranslationIntro| + |LanguageName(sourceLang)| <= n - |text|
            && p[..|TranslationIntro|] == TranslationIntro
            && p[|TranslationIntro|..|TranslationIntro| + |LanguageName(sourceLang)|] == LanguageName(sourceLang)
            && p[n - |text|..n] == text
            && p[n..] == TranslationTail
  {
    var p := PromptWith(text, LanguageName(sourceLang), LanguageName(targetLang));
    assert TranslationPrompt(text, sourceLang, targetLang) == p;
  }

  const ContextTag := "上下文："
  const UserTag := "用户："
  const ChatTail := "\n\n请提供详细的回答，不要过于简短。"

  /** The chat prompt: a context paragraph only when `context` is truthy. */
  function ChatPrompt(text: string, context: Option<string>): (p: string)
    ensures |UserTag + text + ChatTail| <= |p|
    ensures p[|p| - |UserTag + text + ChatTail|..] == UserTag + text + ChatTail
    ensures !Present(context) ==> p == UserTag + text + ChatTail
  {
    if Present(context) then ContextTag + context.value + "\n\n" + UserTag + text + ChatTail
    else UserTag + text + ChatTail
  }

  /** Both variants end with the user's line and the same instruction; the
      context prefix is there exactly when the context is non-empty, and
      then carries the context itself. */
  lemma ChatPromptShape(text: string, context: Option<string>)
    ensures var p := ChatPrompt(text, context);
            var n := |p| - |ChatTail|;
            && |UserTag| + |text| <= n
            && p[n..] == ChatTail
            && p[n - |UserTag| - |text|..n] == UserTag + text
            && (ContextTag <= p <==> Present(context))
            && (Present(context) ==> p[|ContextTag|..|ContextTag| + |context.value|] == context.value)
  {
    var p := ChatPrompt(text, context);
    var line := UserTag + text + ChatTail;
    if Present(context) {
      var head := ContextTag + context.value + "\n\n";
      assert p == head + line;
      assert p[..|ContextTag|] == ContextTag;
      assert head[|ContextTag|..|ContextTag| + |context.value|] == context.value;
    } else {
      assert p == line;
      assert p[0] == '用' && ContextTag[0] == '上';
    }
  }

  datatype TranslationReply = Translated(translation: string) | TranslationFailed(error: string, message: string)
  datatype ChatReply = Answered(reply: string) | ChatFailed(error: string, message: string)

  /** What a handler sent to the generate endpoint, if anything, and what it
      answered. */
  datatype Exchange<+R> = Exchange(request: Option<GenerateRequest>, reply: R)

  const TranslationTrouble := "翻译服务出现错误，请刷新页面重试。"
  const ChatTrouble := "处理消息时出现错误，请重试"

  /** `handleTranslation`: settings with defaults, then the status check;
      only a ready service is asked to generate. */
  function HandleTranslation(text: string, sourceLang: Option<string>, targetLang: Option<string>,
                             store: Storage, tags: TagsReply, generate: GenerateReply): (x: Exchange<TranslationReply>)
    ensures var r := Resolve(store);
            var status := CheckService(tags, r.model, store.modelInitialized);
            && (x.request.Some? <==> status == Ready)
            && (status.Unavailable? ==>
                  x.reply == TranslationFailed(ErrorCode(status.reason), ErrorMessage(status.reason)))
            && (x.request.Some? ==>
                  x.request.value == GenerateRequest(r.host, r.model,
                    TranslationPrompt(text, ArgOr(sourceLang, "auto"), ArgOr(targetLang, "zh")), r.params))
            && (x.reply.Translated? <==> status == Ready && Generate(generate).Returned?)
            && (x.reply.Translated? ==> x.reply.translation == Generate(generate).value)
            && (status == Ready && Generate(generate).Raised? ==>
                  x.reply == TranslationFailed(Generate(generate).error, TranslationTrouble))
  {
    var r := Resolve(store);
    var status := CheckService(tags, r.model, store.modelInitialized);
    match status
    case Unavailable(e) => Exchange(None, TranslationFailed(ErrorCode(e), ErrorMessage(e)))
    case Ready =>
      var prompt := TranslationPrompt(text, ArgOr(sourceLang, "auto"), ArgOr(targetLang, "zh"));
      var request := GenerateRequest(r.host, r.model, prompt, r.params);
      match Generate(generate)
      case Returned(t) => Exchange(Some(request), Translated(t))
      case Raised(m) => Exchange(Some(request), TranslationFailed(m, TranslationTrouble))
  }

  /** `handleChatMessage`: the same settings defaults, no status check. */
  function HandleChat(text: string, context: Option<string>, store: Storage, generate: GenerateReply): (x: Exchange<ChatReply>)
    ensures var r := Resolve(store);
            x.request == Some(GenerateRequest(r.host, r.model, ChatPrompt(text, context), r.params))
    ensures x.reply.Answered? <==> Generate(generate).Returned?
    ensures x.reply.Answered? ==> x.reply.reply == Generate(generate).value
    ensures Generate(generate).Raised? ==> x.reply == ChatFailed(Generate(generate).error, ChatTrouble)
  {
    var r := Resolve(store);
    var request := GenerateRequest(r.host, r.model, ChatPrompt(text, context), r.params);
    match Generate(generate)
    case Returned(t) => Exchange(Some(request), Answered(t))
    case Raised(m) => Exchange(Some(request), ChatFailed(m, ChatTrouble))
  }

  /** Both handlers address the same host and model with the same params. */
  lemma {:induction false} HandlersShareSettings(text: string, src: Option<string>, tgt: Option<string>,
                                                 chatText: string, context: Option<string>, store: Storage,
                                                 tags: TagsReply, g1: GenerateReply, g2: GenerateReply)
    requires HandleTranslation(text, src, tgt, store, tags, g1).request.Some?
    ensures var t := HandleTranslation(text, src, tgt, store, tags, g1).request.value;
            var c := HandleChat(chatText, context, store, g2).request.value;
            t.host == c.host && t.model == c.model && t.params == c.params
  {
    var r := Resolve(store);
    assert HandleTranslation(text, src, tgt, store, tags, g1).request.value.model == r.model;
  }

  /** A failed generate call never escapes the chat handler: it answers
      with a failure that carries the error's message. */
  lemma {:induction false} GenerateFailureIsAnswered(text: string, context: Option<string>, store: Storage, status: nat)
    ensures HandleChat(text, context, store, Http(false, status, Generated("")))
         == Exchange(HandleChat(text, context, store, Http(false, status, Generated(""))).request,
                     ChatFailed("HTTP error! status: " + Decimal(status), ChatTrouble))
  {
  }

  // ---------------------------------------------------------------------
  // Router
  // ---------------------------------------------------------------------

  /** A runtime message as the content script sends it. */
  datatype Message = Message(kind: string, text: string, sourceLang: Option<string>,
                             targetLang: Option<string>, context: Option<string>)

  /** What `sendResponse` receives. */
  datatype Response = ForTranslation(translation: TranslationReply) | ForChat(chat: ChatReply)

  /** `onMessage`: `translate` and `chat` are answered, any other type is
      left unanswered. */
  function Answer(m: Message, store: Storage, tags: TagsReply, generate: GenerateReply): (r: Option<Response>)
    ensures r.Some? <==> m.kind == "translate" || m.kind == "chat"
    ensures m.kind == "translate" ==>
              r == Some(ForTranslation(HandleTranslation(m.text, m.sourceLang, m.targetLang, store, tags, generate).reply))
    ensures m.kind == "chat" ==>
              r == Some(ForChat(HandleChat(m.text, m.context, store, generate).reply))
  {
    if m.kind == "translate" then
      Some(ForTranslation(HandleTranslation(m.text, m.sourceLang, m.targetLang, store, tags, generate).reply))
    else if m.kind == "chat" then
      Some(ForChat(HandleChat(m.text, m.context, store, generate).reply))
    else None
  }

  /** The listener's own return value: `true` keeps the channel open for the
      asynchronous answer; otherwise it returns `undefined`. */
  function KeepsChannelOpen(m: Message): (open: Option<bool>)
    ensures open == Some(true) <==> m.kind == "translate" || m.kind == "chat"
    ensures open != Some(false)
  {
    if m.kind == "translate" || m.kind == "chat" then Some(true) else None
  }

  /** The popup's `getHistory` and `clearHistory` messages get no answer. */
  lemma HistoryMessagesAreUnanswered(m: Message, store: Storage, tags: TagsReply, generate: GenerateReply)
    requires m.kind == "getHistory" || m.kind == "clearHistory"
    ensures Answer(m, store, tags, generate) == None && KeepsChannelOpen(m) == None
  {
  }

  /** The channel stays open exactly for the messages that get an answer. */
  lemma {:induction false} OpenChannelIsAnswered(m: Message, store: Storage, tags: TagsReply, generate: GenerateReply)
    ensures KeepsChannelOpen(m) == Some(true) <==> Answer(m, store, tags, generate).Some?
  {
  }
}
