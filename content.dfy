/** The content script: the bounded retry around the translate message, the
    selection translation it serves, and the chat panel whose history,
    context and minimised state its handlers update in place. */
module Content {
  import opened Js
  import opened Text
  import opened Browser
  import opened Background

  // ---------------------------------------------------------------------
  // Sending a translation request, with retries
  // ---------------------------------------------------------------------

  const MaxRetries: nat := 3

  /** How `sendMessage` ends once it is called. */
  datatype Delivery = SendThrew(error: string) | Delivered(response: Option<TranslationReply>)

  /** What one iteration of the loop meets: no runtime id, a storage read that
      throws, or the stored languages and the fate of the message sent. */
  datatype Probe =
    | RuntimeMissing
    | StorageThrew(error: string)
    | Sent(sourceLang: Option<string>, targetLang: Option<string>, delivery: Delivery)

  predicate Delivers(p: Probe)
  {
    p.Sent? && p.delivery.Delivered?
  }

  predicate Throws(p: Probe)
  {
    p.StorageThrew? || (p.Sent? && p.delivery.SendThrew?)
  }

  function ThrownError(p: Probe): string
    requires Throws(p)
  {
    if p.StorageThrew? then p.error else p.delivery.error
  }

  /** The message sent: languages missing from storage default to `auto`
      and `zh`. */
  function TranslateMessage(text: string, sourceLang: Option<string>, targetLang: Option<string>): (m: Message)
    ensures m.kind == "translate" && m.text == text
    ensures Present(m.sourceLang) && Present(m.targetLang)
  {
    Message("translate", text, Some(OrElse(sourceLang, "auto")), Some(OrElse(targetLang, "zh")), None)
  }

  /** How a call of `sendTranslationRequest` ends, the messages it sent and
      the number of loop iterations it ran. */
  datatype Run = Run(completion: Completion<Option<TranslationReply>>, sent: seq<Message>, iterations: nat)

  /** The loop from `retryCount == k` on, the environment meeting iteration
      `k` as `env(k)`. */
  function RetryFrom(text: string, env: nat -> Probe, k: nat): (run: Run)
    requires k <= MaxRetries
    decreases MaxRetries - k
    ensures k < MaxRetries ==> 1 <= run.iterations
    ensures run.iterations <= MaxRetries - k
    ensures |run.sent| <= run.iterations
    ensures forall m :: m in run.sent ==> m.kind == "translate" && m.text == text && Present(m.sourceLang) && Present(m.targetLang)
  {
    if k == MaxRetries then Run(Returned(None), [], 0)
    else
      match env(k)
      case RuntimeMissing =>
        var rest := RetryFrom(text, env, k + 1);
        Run(rest.completion, rest.sent, rest.iterations + 1)
      case StorageThrew(e) =>
        if k >= MaxRetries - 1 then Run(Raised(e), [], 1)
        else
          var rest := RetryFrom(text, env, k + 1);
          Run(rest.completion, rest.sent, rest.iterations + 1)
      case Sent(src, tgt, d) =>
        var m := TranslateMessage(text, src, tgt);
        match d
        case Delivered(r) => Run(Returned(r), [m], 1)
        case SendThrew(e) =>
          if k >= MaxRetries - 1 then Run(Raised(e), [m], 1)
          else
            var rest := RetryFrom(text, env, k + 1);
            Run(rest.completion, [m] + rest.sent, rest.iterations + 1)
  }

  /** `sendTranslationRequest`: at most three iterations, `retryCount`
      growing by one on each iteration that does not return. */
  method SendTranslationRequest(text: string, env: nat -> Probe)
    returns (completion: Completion<Option<TranslationReply>>, sent: seq<Message>, iterations: nat)
    ensures Run(completion, sent, iterations) == RetryFrom(text, env, 0)
    ensures 1 <= iterations <= MaxRetries && |sent| <= iterations
  {
    ghost var whole := RetryFrom(text, env, 0);
    var retryCount: nat := 0;
    sent := [];
    while retryCount < MaxRetries
      invariant retryCount <= MaxRetries
      invariant Resumes(text, env, retryCount, sent, whole)
      decreases MaxRetries - retryCount
    {
      var probe := env(retryCount);
      if probe.RuntimeMissing? || (probe.StorageThrew? && retryCount < MaxRetries - 1) {
        ResumesAfter(text, env, retryCount, sent, [], whole);
        retryCount := retryCount + 1;
      } else if probe.StorageThrew? {
        ResumesEnd(text, env, retryCount, sent, Run(Raised(probe.error), [], 1), whole);
        completion, iterations := Raised(probe.error), retryCount + 1;
        return;
      } else {
        var m := TranslateMessage(text, probe.sourceLang, probe.targetLang);
        if probe.delivery.Delivered? {
          ResumesEnd(text, env, retryCount, sent, Run(Returned(probe.delivery.response), [m], 1), whole);
          completion, sent, iterations := Returned(probe.delivery.response), sent + [m], retryCount + 1;
          return;
        } else if retryCount >= MaxRetries - 1 {
          ResumesEnd(text, env, retryCount, sent, Run(Raised(probe.delivery.error), [m], 1), whole);
          completion, sent, iterations := Raised(probe.delivery.error), sent + [m], retryCount + 1;
          return;
        }
        ResumesAfter(text, env, retryCount, sent, [m], whole);
        sent := sent + [m];
        retryCount := retryCount + 1;
      }
    }
    ResumesEnd(text, env, retryCount, sent, Run(Returned(None), [], 0), whole);
    completion, iterations := Returned(None), retryCount;
  }

  /** `whole` is what has been sent before iteration `k` followed by the run
      from iteration `k` on. */
  ghost predicate Resumes(text: string, env: nat -> Probe, k: nat, sent: seq<Message>, whole: Run)
    requires k <= MaxRetries
  {
    var rest := RetryFrom(text, env, k);
    whole == Run(rest.completion, sent + rest.sent, k + rest.iterations)
  }

  /** An iteration that goes on to the next one, having sent `now`, keeps
      `Resumes`. */
  lemma ResumesAfter(text: string, env: nat -> Probe, k: nat, sent: seq<Message>, now: seq<Message>, whole: Run)
    requires k < MaxRetries && Resumes(text, env, k, sent, whole)
    requires env(k).RuntimeMissing? || (env(k).StorageThrew? && k < MaxRetries - 1)
             || (env(k).Sent? && env(k).delivery.SendThrew? && k < MaxRetries - 1)
    requires now == if env(k).Sent? then [TranslateMessage(text, env(k).sourceLang, env(k).targetLang)] else []
    ensures Resumes(text, env, k + 1, sent + now, whole)
  {
    var next := RetryFrom(text, env, k + 1);
    RetryContinues(text, env, k, now);
    assert sent + (now + next.sent) == (sent + now) + next.sent;
  }

  /** The run from an iteration that goes on: what it sent, then the run from
      the next iteration. */
  lemma RetryContinues(text: string, env: nat -> Probe, k: nat, now: seq<Message>)
    requires k < MaxRetries
    requires env(k).RuntimeMissing? || (env(k).StorageThrew? && k < MaxRetries - 1)
             || (env(k).Sent? && env(k).delivery.SendThrew? && k < MaxRetries - 1)
    requires now == if env(k).Sent? then [TranslateMessage(text, env(k).sourceLang, env(k).targetLang)] else []
    ensures var next := RetryFrom(text, env, k + 1);
            RetryFrom(text, env, k) == Run(next.completion, now + next.sent, next.iterations + 1)
  {
    if env(k).Sent? {
      assert now == [TranslateMessage(text, env(k).sourceLang, env(k).targetLang)];
    } else {
      assert now == [];
      assert [] + RetryFrom(text, env, k + 1).sent == RetryFrom(text, env, k + 1).sent;
    }
  }

  /** An iteration that ends the loop with `last` ends the whole call. */
  lemma ResumesEnd(text: string, env: nat -> Probe, k: nat, sent: seq<Message>, last: Run, whole: Run)
    requires k <= MaxRetries && Resumes(text, env, k, sent, whole)
    requires k == MaxRetries ==> last == Run(Returned(None), [], 0)
    requires k < MaxRetries ==> !env(k).RuntimeMissing?
    requires k < MaxRetries && env(k).StorageThrew? ==>
             k == MaxRetries - 1 && last == Run(Raised(env(k).error), [], 1)
    requires k < MaxRetries && env(k).Sent? ==>
             var m := TranslateMessage(text, env(k).sourceLang, env(k).targetLang);
             if env(k).delivery.Delivered? then last == Run(Returned(env(k).delivery.response), [m], 1)
             else k == MaxRetries - 1 && last == Run(Raised(env(k).delivery.error), [m], 1)
    ensures whole == Run(last.completion, sent + last.sent, k + last.iterations)
  {
    assert RetryFrom(text, env, k) == last;
  }

  /** An error escapes only from the third iteration: the first two must
      both have failed without a response, and the error is the third
      iteration's. */
  lemma {:induction false} RetryRaisesOnlyOnThirdIteration(text: string, env: nat -> Probe)
    ensures RetryFrom(text, env, 0).completion.Raised? <==>
            !Delivers(env(0)) && !Delivers(env(1)) && Throws(env(2))
    ensures RetryFrom(text, env, 0).completion.Raised? ==>
            RetryFrom(text, env, 0).completion.error == ThrownError(env(2))
  {
    assert RetryFrom(text, env, 3).completion == Returned(None);
    var r2 := RetryFrom(text, env, 2);
    assert r2.completion.Raised? <==> Throws(env(2));
    assert r2.completion.Raised? ==> r2.completion.error == ThrownError(env(2));
    var r1 := RetryFrom(text, env, 1);
    assert r1.completion.Raised? <==> !Delivers(env(1)) && Throws(env(2));
  }

  /** The value returned is the response of the first iteration that
      delivered, every earlier one having failed. */
  lemma {:induction false} RetryReturnsFirstResponse(text: string, env: nat -> Probe, k: nat)
    requires k < MaxRetries && Delivers(env(k))
    requires forall j :: 0 <= j < k ==> !Delivers(env(j)) && !(j == MaxRetries - 1 && Throws(env(j)))
    ensures RetryFrom(text, env, 0).completion == Returned(env(k).delivery.response)
    ensures RetryFrom(text, env, 0).iterations == k + 1
  {
    var j := k;
    while j > 0
      invariant 0 <= j <= k
      invariant RetryFrom(text, env, j).completion == Returned(env(k).delivery.response)
      invariant RetryFrom(text, env, j).iterations == k + 1 - j
    {
      j := j - 1;
      assert !Delivers(env(j)) && j < MaxRetries - 1;
    }
  }

  /** With no runtime id on all three iterations nothing is sent and the
      call resolves to `undefined`. */
  lemma {:induction false} RuntimeNeverAvailable(text: string, env: nat -> Probe)
    requires forall k :: 0 <= k < MaxRetries ==> env(k) == RuntimeMissing
    ensures RetryFrom(text, env, 0) == Run(Returned(None), [], MaxRetries)
  {
    assert env(2) == RuntimeMissing;
    assert RetryFrom(text, env, 2) == Run(Returned(None), [], 1);
    assert env(1) == RuntimeMissing;
    assert RetryFrom(text, env, 1) == Run(Returned(None), [], 2);
    assert env(0) == RuntimeMissing;
  }

  // ---------------------------------------------------------------------
  // Translating the selection
  // ---------------------------------------------------------------------

  /** A node on the parent chain of the selection's start, from the start
      container up to the document. */
  datatype PageNode = PageNode(isElement: bool, hasTranslationClass: bool)

  /** `node.closest('.inline-translation')` for the node at `i`: it or one of
      its ancestors is an element with the class. */
  predicate WithinTranslation(chain: seq<PageNode>, i: nat)
  {
    exists j :: i <= j < |chain| && chain[j].isElement && chain[j].hasTranslationClass
  }

  predicate IsTranslationElement(n: PageNode)
  {
    n.isElement && n.hasTranslationClass
  }

  /** The walk up the parent chain in `performTranslation`: it stops as soon
      as an element has the class or lies inside one. It finds exactly the
      chains holding an element with the class. */
  method InsideTranslation(chain: seq<PageNode>) returns (inside: bool)
    ensures inside <==> exists i :: 0 <= i < |chain| && IsTranslationElement(chain[i])
  {
    var i := 0;
    while i < |chain|
      invariant 0 <= i <= |chain|
      invariant forall k :: 0 <= k < i ==> !(chain[k].isElement && (chain[k].hasTranslationClass || WithinTranslation(chain, k)))
    {
      if chain[i].isElement && (chain[i].hasTranslationClass || WithinTranslation(chain, i)) {
        if !chain[i].hasTranslationClass {
          var j :| i <= j < |chain| && chain[j].isElement && chain[j].hasTranslationClass;
          assert IsTranslationElement(chain[j]);
        }
        return true;
      }
      i := i + 1;
    }
    return false;
  }

  /** What the page shows once `performTranslation` is done. */
  datatype Effect = NoEffect | Inserted(original: string, translation: string) | PopupText(text: string)

  const TranslationFallback := "翻译失败，请确保 Ollama 服务正在运行"
  const TranslationCrash := "翻译失败，请刷新页面后重试。如果问题持续存在，请重新加载扩展。"

  /** Reading `response.success` of an `undefined` response throws, so that
      case lands in the catch branch with the thrown errors. */
  function Presentation(original: string, c: Completion<Option<TranslationReply>>): (effect: Effect)
    ensures effect != NoEffect
    ensures effect.Inserted? ==> effect.original == original
    ensures effect.PopupText? ==> effect.text != ""
  {
    match c
    case Raised(_) => PopupText(TranslationCrash)
    case Returned(None) => PopupText(TranslationCrash)
    case Returned(Some(Translated(t))) => Inserted(original, t)
    case Returned(Some(TranslationFailed(_, message))) => PopupText(OrElse(Some(message), TranslationFallback))
  }

  /** The translation is inserted exactly when the background answered with
      one; a failure reply shows its message. */
  lemma {:induction false} PresentationCases(original: string, c: Completion<Option<TranslationReply>>)
    ensures Presentation(original, c).Inserted? <==> c.Returned? && c.value.Some? && c.value.value.Translated?
    ensures c.Returned? && c.value.Some? && c.value.value.TranslationFailed? && c.value.value.message != "" ==>
              Presentation(original, c) == PopupText(c.value.value.message)
  {
    match c
    case Raised(_) =>
    case Returned(None) =>
    case Returned(Some(r)) =>
  }

  /** `performTranslation`: nothing for a blank selection or one inside an
      earlier translation; otherwise the request and what it leads to. */
  method PerformTranslation(selection: string, chain: seq<PageNode>, env: nat -> Probe)
    returns (effect: Effect, sent: seq<Message>)
    ensures Trim(selection) == "" ==> effect == NoEffect && sent == []
    ensures (exists i :: 0 <= i < |chain| && IsTranslationElement(chain[i])) ==> effect == NoEffect && sent == []
    ensures Trim(selection) != "" && !(exists i :: 0 <= i < |chain| && IsTranslationElement(chain[i])) ==>
              var run := RetryFrom(Trim(selection), env, 0);
              effect == Presentation(Trim(selection), run.completion) && sent == run.sent
  {
    var selectedText := Trim(selection);
    effect, sent := NoEffect, [];
    if selectedText != "" {
      var inside := InsideTranslation(chain);
      if inside {
        return;
      }
      var completion, iterations;
      completion, sent, iterations := SendTranslationRequest(selectedText, env);
      effect := Presentation(selectedText, completion);
    }
  }

  /** When the runtime never comes back the page ends in the catch branch. */
  lemma {:induction false} MissingRuntimeEndsInCatch(selection: string, env: nat -> Probe)
    requires forall k :: 0 <= k < MaxRetries ==> env(k) == RuntimeMissing
    ensures Presentation(Trim(selection), RetryFrom(Trim(selection), env, 0).completion) == PopupText(TranslationCrash)
  {
    RuntimeNeverAvailable(Trim(selection), env);
  }

  // ---------------------------------------------------------------------
  // Chat panel
  // ---------------------------------------------------------------------

  /** One `chatHistory` entry; `kind` is `user` or `ai` when written here,
      anything when loaded from storage. */
  datatype Record = Record(kind: string, message: string, timestamp: string)

  /** How `sendMessage` of a chat message ends. */
  datatype ChatDelivery = ChatThrew(error: string) | ChatResolved(response: Option<ChatReply>)

  const OriginalTag := "原文："
  const TranslationTag := "译文："
  const Greeting := "你好！我是 AI 助手，很高兴为你提供帮助。我们可以讨论这段内容。"
  const ChatApology := "抱歉，处理消息时出现错误。"
  const SendFailure := "发送消息失败，请重试。"

  /** The text `sendToAI` adds for each way the chat request can end. */
  function ReplyText(d: ChatDelivery): (text: string)
    ensures text == SendFailure <== d.ChatThrew?
    ensures text == ChatApology <== d.ChatResolved? && !(d.response.Some? && d.response.value.Answered?)
    ensures d.ChatResolved? && d.response.Some? && d.response.value.Answered? ==> text == d.response.value.reply
  {
    match d
    case ChatThrew(_) => SendFailure
    case ChatResolved(Some(Answered(reply))) => reply
    case ChatResolved(_) => ChatApology
  }

  function ChatMessage(text: string, context: string): Message
  {
    Message("chat", text, None, None, Some(context))
  }

  /** The chat message carries the panel's context to the background, whose
      prompt opens with it exactly when it is non-empty. */
  lemma {:induction false} PanelContextReachesPrompt(text: string, context: string, store: Storage, generate: GenerateReply)
    ensures var m := ChatMessage(text, context);
            var prompt := HandleChat(m.text, m.context, store, generate).request.value.prompt;
            ContextTag <= prompt <==> context != ""
  {
    ChatPromptShape(text, Some(context));
  }

  /** Everything of the panel except its history. */
  datatype PanelView = PanelView(selectedContext: string, minimized: bool, shown: bool,
                                 draft: string, inputDisabled: bool)

  const ExportHeader := "聊天记录\n\n"

  function Speaker(kind: string): string
  {
    if kind == "user" then "用户" else "AI"
  }

  /** One exported record; `render` stands for `toLocaleString` of its
      timestamp. */
  function Block(r: Record, render: string -> string): string
  {
    "[" + render(r.timestamp) + "] " + Speaker(r.kind) + ":\n" + r.message + "\n\n"
  }

  /** The blocks of a history, in history order. */
  function Blocks(h: seq<Record>, render: string -> string): string
  {
    if h == [] then "" else Blocks(h[..|h| - 1], render) + Block(h[|h| - 1], render)
  }

  lemma {:induction false} BlocksAppend(h1: seq<Record>, h2: seq<Record>, render: string -> string)
    ensures Blocks(h1 + h2, render) == Blocks(h1, render) + Blocks(h2, render)
    decreases |h2|
  {
    if h2 != [] {
      var init := h2[..|h2| - 1];
      assert (h1 + h2)[..|h1 + h2| - 1] == h1 + init;
      assert (h1 + h2)[|h1 + h2| - 1] == h2[|h2| - 1];
      BlocksAppend(h1, init, render);
      assert Blocks(h2, render) == Blocks(init, render) + Block(h2[|h2| - 1], render);
    } else {
      assert h1 + h2 == h1;
    }
  }

  /** Record `i` of the history is exported as the `i`-th block, after the
      blocks of the records before it and before those after it; its
      speaker is `用户` exactly for `user` records. */
  lemma {:induction false} ExportKeepsHistoryOrder(h: seq<Record>, i: nat, render: string -> string)
    requires i < |h|
    ensures Blocks(h, render) == Blocks(h[..i], render) + Block(h[i], render) + Blocks(h[i + 1..], render)
    ensures Speaker(h[i].kind) == "用户" <==> h[i].kind == "user"
  {
    assert h == h[..i] + [h[i]] + h[i + 1..];
    BlocksAppend(h[..i] + [h[i]], h[i + 1..], render);
    BlocksAppend(h[..i], [h[i]], render);
    assert [h[i]][..0] == [];
  }

  class ChatPanel {
    var history: seq<Record>
    var selectedContext: string
    var minimized: bool
    var shown: bool
    /** The textarea's current value; the user types into it. */
    var draft: string
    var inputDisabled: bool

    function View(): PanelView
      reads this
    {
      PanelView(selectedContext, minimized, shown, draft, inputDisabled)
    }

    constructor ()
      ensures history == [] && View() == PanelView("", false, false, "", false)
    {
      history, selectedContext, minimized, shown, draft, inputDisabled := [], "", false, false, "", false;
    }

    /** The stored history, when there is one, replaces the current one. */
    method LoadHistory(stored: Option<seq<Record>>)
      modifies this
      ensures history == if stored.Some? then stored.value else old(history)
      ensures View() == old(View())
    {
      if stored.Some? {
        history := stored.value;
      }
    }

    /** `addMessage`: exactly one record is appended; earlier ones and the
        rest of the panel stay as they were. */
    method AddMessage(message: string, isUser: bool, timestamp: string)
      modifies this
      ensures history == old(history) + [Record(if isUser then "user" else "ai", message, timestamp)]
      ensures View() == old(View())
    {
      history := history + [Record(if isUser then "user" else "ai", message, timestamp)];
    }

    /** The discuss button: the panel is shown, the translation becomes the
        context, and three non-user messages follow in order. */
    method DiscussClick(original: string, translated: string, t1: string, t2: string, t3: string)
      modifies this
      ensures history == old(history) + [Record("ai", OriginalTag + original, t1),
                                         Record("ai", TranslationTag + translated, t2),
                                         Record("ai", Greeting, t3)]
      ensures View() == old(View()).(selectedContext := translated, shown := true)
    {
      shown := true;
      selectedContext := translated;
      AddMessage(OriginalTag + original, false, t1);
      AddMessage(TranslationTag + translated, false, t2);
      AddMessage(Greeting, false, t3);
    }

    /** `sendToAI`: the message goes out with the current context, and one
        non-user record follows: the reply, or a fixed error text. */
    method SendToAI(message: string, delivery: ChatDelivery, timestamp: string) returns (request: Message)
      modifies this
      ensures request == ChatMessage(message, old(selectedContext))
      ensures history == old(history) + [Record("ai", ReplyText(delivery), timestamp)]
      ensures View() == old(View())
      ensures delivery.ChatResolved? && delivery.response.Some? && delivery.response.value.Answered? ==>
                history[|history| - 1].message == delivery.response.value.reply
      ensures delivery.ChatThrew? ==> history[|history| - 1].message == SendFailure
      ensures delivery.ChatResolved? && !(delivery.response.Some? && delivery.response.value.Answered?) ==>
                history[|history| - 1].message == ChatApology
    {
      request := ChatMessage(message, selectedContext);
      AddMessage(ReplyText(delivery), false, timestamp);
    }

    /** The send button: blank input does nothing; otherwise the trimmed
        message is recorded as the user's, the input is cleared, the chat
        request runs with the controls disabled, and they are enabled again
        afterwards. */
    method SendClick(delivery: ChatDelivery, userStamp: string, replyStamp: string) returns (request: Option<Message>)
      modifies this
      ensures Trim(old(draft)) == "" ==> request == None && history == old(history) && View() == old(View())
      ensures Trim(old(draft)) != "" ==>
                && request == Some(ChatMessage(Trim(old(draft)), old(selectedContext)))
                && history == old(history) + [Record("user", Trim(old(draft)), userStamp),
                                              Record("ai", ReplyText(delivery), replyStamp)]
                && View() == old(View()).(draft := "", inputDisabled := false)
    {
      var message := Trim(draft);
      request := None;
      if message != "" {
        AddMessage(message, true, userStamp);
        draft := "";
        inputDisabled := true;
        var sent := SendToAI(message, delivery, replyStamp);
        request := Some(sent);
        inputDisabled := false;
      }
    }

    /** The minimise button toggles the minimised state. */
    method MinimizeClick()
      modifies this
      ensures history == old(history)
      ensures View() == old(View()).(minimized := !old(minimized))
    {
      minimized := !minimized;
    }

    /** A click on the header, outside the controls, only ever restores a
        minimised panel. */
    method HeaderClick(onControls: bool)
      modifies this
      ensures history == old(history)
      ensures View() == old(View()).(minimized := old(minimized) && onControls)
    {
      if !onControls && minimized {
        minimized := false;
      }
    }

    /** The close button hides the panel and forgets the context. */
    method CloseClick()
      modifies this
      ensures history == old(history)
      ensures View() == old(View()).(selectedContext := "", shown := false)
    {
      shown := false;
      selectedContext := "";
    }

    /** The export button's text: the header, then one block per record. */
    method ExportText(render: string -> string) returns (text: string)
      ensures text == ExportHeader + Blocks(history, render)
      ensures ExportHeader <= text
    {
      text := ExportHeader;
      var i := 0;
      while i < |history|
        invariant 0 <= i <= |history|
        invariant text == ExportHeader + Blocks(history[..i], render)
      {
        assert history[..i + 1][..i] == history[..i];
        text := text + Block(history[i], render);
        i := i + 1;
      }
      assert history[..i] == history;
    }
  }
}
