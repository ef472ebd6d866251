/** The settings popup: the model list it offers, how it restores stored
    settings into the form, what it saves, the history panel toggle and the
    shortcut label. The form's controls are the fields of `SettingsForm`. */
module Popup {
  import opened Js
  import opened Text
  import opened Browser
  import Background

  const NotRunningLabel := "Ollama 服务未运行"
  const DefaultColor := "#1a73e8"

  // ---------------------------------------------------------------------
  // Model list
  // ---------------------------------------------------------------------

  /** `fetchLocalModels`: the names listed by the tags endpoint, `[]` when
      the request or its JSON fails or `models` is missing. Unlike the
      background check it does not look at `response.ok`. */
  function FetchLocalModels(reply: Background.TagsReply): (models: seq<string>)
    ensures reply.Unreachable? ==> models == []
    ensures reply.Reply? && reply.body.Models? ==> models == reply.body.names
    ensures reply.Reply? && !reply.body.Models? ==> models == []
  {
    match reply
    case Unreachable => []
    case Reply(_, body) => Background.Listing(body)
  }

  /** A non-OK reply that still lists models fills the popup's list, while
      the background check reports the service as not running. */
  lemma PopupIgnoresResponseStatus(names: seq<string>, model: string, flag: Value)
    ensures FetchLocalModels(Background.Reply(false, Background.Models(names))) == names
    ensures Background.CheckService(Background.Reply(false, Background.Models(names)), model, flag)
         == Background.Unavailable(Background.ServiceNotRunning)
  {
  }

  datatype SelectOption = SelectOption(value: string, text: string)

  /** The options `updateModelSelect` builds: one placeholder with an empty
      value when there is no model, else one option per model in order. */
  function ModelOptions(models: seq<string>): (options: seq<SelectOption>)
    ensures |models| == 0 ==> options == [SelectOption("", NotRunningLabel)]
    ensures |models| > 0 ==> |options| == |models|
    ensures |models| > 0 ==> forall i :: 0 <= i < |models| ==> options[i] == SelectOption(models[i], models[i])
  {
    if |models| == 0 then [SelectOption("", NotRunningLabel)]
    else seq(|models|, i requires 0 <= i < |models| => SelectOption(models[i], models[i]))
  }

  /** `options.some(option => option.value === v)`. */
  predicate HasOption(options: seq<SelectOption>, v: string)
  {
    exists i :: 0 <= i < |options| && options[i].value == v
  }

  /** A model the background check finds in the listing is one the popup
      offers, from the same reply. */
  lemma {:induction false} ListedModelIsOffered(tags: Background.TagsReply, model: string)
    requires Background.Listed(tags, model)
    ensures HasOption(ModelOptions(FetchLocalModels(tags)), model)
  {
    var names := Background.Listing(tags.body);
    assert FetchLocalModels(tags) == names;
    var i :| 0 <= i < |names| && names[i] == model;
    assert ModelOptions(names)[i].value == model;
  }

  // ---------------------------------------------------------------------
  // Restoring stored settings
  // ---------------------------------------------------------------------

  /** `if (stored) field = stored` for a text setting. */
  function RestoreText(current: string, stored: Option<string>): (shown: string)
    ensures Present(stored) ==> shown == stored.value
    ensures !Present(stored) ==> shown == current
    ensures shown != "" <== current != ""
  {
    if Present(stored) then stored.value else current
  }

  /** `if (params.x) slider = params.x`: only a truthy value is restored. */
  function RestoreNumber(current: Value, stored: Value): (shown: Value)
    ensures shown == stored || shown == current
    ensures Truthy(stored) ==> shown == stored
  {
    if Truthy(stored) then stored else current
  }

  /** A stored zero, and a stored NaN, leave the slider as it was. */
  lemma FalsyNumbersAreIgnored(current: Value)
    ensures RestoreNumber(current, Num(0.0)) == current
    ensures RestoreNumber(current, NaN) == current
    ensures RestoreNumber(current, Null) == current
  {
  }

  /** The stored model is selected only if an option carries it. */
  function RestoreModel(current: string, stored: Option<string>, options: seq<SelectOption>): (selected: string)
    ensures selected == current || (Present(stored) && selected == stored.value && HasOption(options, selected))
    ensures Present(stored) && HasOption(options, stored.value) ==> selected == stored.value
  {
    if Present(stored) && HasOption(options, stored.value) then stored.value else current
  }

  /** Restoring never selects a value that has no option. */
  lemma {:induction false} RestoreModelKeepsSelectionOffered(current: string, stored: Option<string>, options: seq<SelectOption>)
    requires HasOption(options, current)
    ensures HasOption(options, RestoreModel(current, stored, options))
  {
    if Present(stored) && HasOption(options, stored.value) {
      var i :| 0 <= i < |options| && options[i].value == stored.value;
      assert options[i].value == RestoreModel(current, stored, options);
    } else {
      var i :| 0 <= i < |options| && options[i].value == current;
      assert options[i].value == RestoreModel(current, stored, options);
    }
  }

  // ---------------------------------------------------------------------
  // Saving
  // ---------------------------------------------------------------------

  /** `apiHost.trim() || default`. */
  function SavedHost(raw: string): (host: string)
    ensures host != ""
  {
    OrElse(Some(Trim(raw)), Background.DefaultHost)
  }

  /** The saved host is the trimmed input, or the default when that is
      empty; either way it has no surrounding white space. */
  lemma {:induction false} SavedHostIsTrimmed(raw: string)
    ensures Trim(raw) != "" ==> SavedHost(raw) == Trim(raw)
    ensures Trim(raw) == "" ==> SavedHost(raw) == Background.DefaultHost
    ensures Trim(SavedHost(raw)) == SavedHost(raw)
  {
    TrimIdempotent(raw);
    if Trim(raw) == "" {
      var d := Background.DefaultHost;
      assert !IsSpace(d[0]) && !IsSpace(d[|d| - 1]);
      assert LeadingSpaces(d) == 0;
      assert d[0..] == d;
      assert TrailingSpaces(d) == 0;
    }
  }

  /** What `saveSettings` writes: every form value, the trimmed host, and
      the initialisation flag set to `true`. */
  function SavedStorage(rawHost: string, model: string, sourceLang: string,
                        targetLang: string, color: string, params: Params): (saved: Storage)
    ensures saved.modelInitialized == Bool(true)
    ensures saved.apiHost == Some(SavedHost(rawHost)) && saved.selectedModel == Some(model)
    ensures saved.sourceLang == Some(sourceLang) && saved.targetLang == Some(targetLang)
    ensures saved.translationColor == Some(color) && saved.modelParams == Some(params)
  {
    Storage(Some(model), Some(SavedHost(rawHost)), Some(params), Some(sourceLang), Some(targetLang),
            Some(color), Bool(true))
  }

  /** Once the popup has saved, the background check no longer asks for
      initialisation: it is ready exactly when the service lists the model
      it resolves, and it addresses the saved host. An empty selection
      resolves to the default model. */
  lemma {:induction false} SavingPassesInitialization(rawHost: string, model: string, sourceLang: string,
                                                      targetLang: string, color: string, params: Params,
                                                      tags: Background.TagsReply)
    ensures var saved := SavedStorage(rawHost, model, sourceLang, targetLang, color, params);
            var r := Background.Resolve(saved);
            && r.host == SavedHost(rawHost)
            && r.model == (if model == "" then Background.DefaultModel else model)
            && ((Background.CheckService(tags, r.model, saved.modelInitialized) == Background.Ready)
                <==> Background.Listed(tags, r.model))
  {
    var saved := SavedStorage(rawHost, model, sourceLang, targetLang, color, params);
    assert Present(saved.apiHost);
    assert StrictlyTrue(saved.modelInitialized);
  }

  /** Tabs that are told about a colour change. */
  predicate ReceivesColor(url: Option<string>)
    ensures ReceivesColor(url) ==> Present(url) && |url.value| >= 4 && url.value[..4] == "http"
    ensures Present(url) && "chrome://" <= url.value ==> !ReceivesColor(url)
  {
    assert Present(url) && "chrome://" <= url.value ==> url.value[0] == "chrome://"[0];
    Present(url) && ("http://" <= url.value || "https://" <= url.value)
  }

  // ---------------------------------------------------------------------
  // Shortcut label
  // ---------------------------------------------------------------------

  predicate IsMac(platform: string)
  {
    Contains(AsciiUpper(platform), "MAC")
  }

  /** The text of one shortcut key: `Ctrl` becomes `Command` on a Mac. */
  function ShortcutLabel(key: string, platform: string): (shown: string)
    ensures shown == key || shown == "Command"
    ensures shown != "Ctrl" <== IsMac(platform)
    ensures shown == key <== !IsMac(platform)
  {
    if key == "Ctrl" && IsMac(platform) then "Command" else key
  }

  /** Only a `Ctrl` label changes, and only on a Mac. */
  lemma ShortcutLabelChanges(key: string, platform: string)
    ensures ShortcutLabel(key, platform) != key <==> key == "Ctrl" && IsMac(platform)
  {
  }

  /** `kbd.textContent` for every shortcut key on the page. */
  method RelabelShortcuts(keys: array<string>, platform: string)
    modifies keys
    ensures forall i :: 0 <= i < keys.Length ==> keys[i] == ShortcutLabel(old(keys[i]), platform)
  {
    var i := 0;
    while i < keys.Length
      invariant 0 <= i <= keys.Length
      invariant forall k :: 0 <= k < i ==> keys[k] == ShortcutLabel(old(keys[k]), platform)
      invariant forall k :: i <= k < keys.Length ==> keys[k] == old(keys[k])
    {
      if keys[i] == "Ctrl" {
        keys[i] := ShortcutLabel(keys[i], platform);
      }
      i := i + 1;
    }
  }

  // ---------------------------------------------------------------------
  // The form
  // ---------------------------------------------------------------------

  /** Every control of the form, as one value. */
  datatype FormState = FormState(
    apiHost: string, options: seq<SelectOption>, model: string, modelDisabled: bool,
    sourceLang: string, targetLang: string, color: string,
    temperature: Value, topP: Value, maxTokens: Value, historyDisplay: string)

  /** The restoring half of `loadSettings`: each stored setting that is
      truthy replaces the form's value, the model only when the select has
      an option for it, each model parameter only when truthy. The option
      list, its disabled state and the history panel are not touched. */
  function Restored(form: FormState, stored: Storage): (r: FormState)
    ensures r.options == form.options && r.modelDisabled == form.modelDisabled
    ensures r.historyDisplay == form.historyDisplay
    ensures HasOption(form.options, form.model) ==> HasOption(r.options, r.model)
    ensures stored.modelParams.None? ==>
              r.temperature == form.temperature && r.topP == form.topP && r.maxTokens == form.maxTokens
  {
    var params := stored.modelParams;
    form.(apiHost := RestoreText(form.apiHost, stored.apiHost),
          model := RestoreModel(form.model, stored.selectedModel, form.options),
          sourceLang := RestoreText(form.sourceLang, stored.sourceLang),
          targetLang := RestoreText(form.targetLang, stored.targetLang),
          color := RestoreText(form.color, stored.translationColor),
          temperature := if params.Some? then RestoreNumber(form.temperature, params.value.temperature) else form.temperature,
          topP := if params.Some? then RestoreNumber(form.topP, params.value.topP) else form.topP,
          maxTokens := if params.Some? then RestoreNumber(form.maxTokens, params.value.maxTokens) else form.maxTokens)
  }

  /** Reopening the popup over the same model list shows what was saved:
      every setting comes back, the host trimmed (or the default). A falsy
      parameter or an empty text setting would not come back. */
  lemma SavedSettingsAreRestored(saving: FormState, reopened: FormState)
    requires reopened.options == saving.options && HasOption(saving.options, saving.model)
    requires saving.model != "" && saving.sourceLang != "" && saving.targetLang != "" && saving.color != ""
    requires Truthy(saving.temperature) && Truthy(saving.topP) && Truthy(saving.maxTokens)
    ensures var saved := SavedStorage(saving.apiHost, saving.model, saving.sourceLang, saving.targetLang,
                                      saving.color, Params(saving.temperature, saving.topP, saving.maxTokens));
            Restored(reopened, saved) == saving.(apiHost := SavedHost(saving.apiHost),
                                                 modelDisabled := reopened.modelDisabled,
                                                 historyDisplay := reopened.historyDisplay)
  {
  }

  class SettingsForm {
    var apiHost: string
    var options: seq<SelectOption>
    /** The select's value. */
    var model: string
    var modelDisabled: bool
    var sourceLang: string
    var targetLang: string
    var color: string
    /** The sliders, as the numbers they stand for. */
    var temperature: Value
    var topP: Value
    var maxTokens: Value
    /** `style.display` of the history panel. */
    var historyDisplay: string

    function State(): FormState
      reads this
    {
      FormState(apiHost, options, model, modelDisabled, sourceLang, targetLang, color,
                temperature, topP, maxTokens, historyDisplay)
    }

    /** The select shows one of its own options. */
    predicate SelectionOffered()
      reads this
    {
      HasOption(options, model)
    }

    /** The form as the page loads it, before any script ran; the select is
        still empty. */
    constructor (initial: FormState)
      requires initial.options == [] && initial.model == ""
      ensures State() == initial
    {
      apiHost, options, model, modelDisabled := initial.apiHost, [], "", initial.modelDisabled;
      sourceLang, targetLang, color := initial.sourceLang, initial.targetLang, initial.color;
      temperature, topP, maxTokens := initial.temperature, initial.topP, initial.maxTokens;
      historyDisplay := initial.historyDisplay;
    }

    /** `updateModelSelect` for a fetched list: the options are rebuilt, the
        select is disabled exactly when there is no model, and the first
        option is selected. */
    method UpdateModelSelect(models: seq<string>)
      modifies this
      ensures options == ModelOptions(models) && modelDisabled == (|models| == 0)
      ensures model == options[0].value && SelectionOffered()
      ensures State() == old(State()).(options := options, model := model, modelDisabled := modelDisabled)
    {
      options := [];
      if |models| == 0 {
        options := [SelectOption("", NotRunningLabel)];
        model := "";
        modelDisabled := true;
        assert options[0].value == model;
        return;
      }
      var i := 0;
      while i < |models|
        invariant 0 <= i <= |models|
        invariant |options| == i
        invariant forall k :: 0 <= k < i ==> options[k] == SelectOption(models[k], models[k])
        invariant State() == old(State()).(options := options)
      {
        options := options + [SelectOption(models[i], models[i])];
        i := i + 1;
      }
      model := options[0].value;
      modelDisabled := false;
      assert options[0].value == model;
    }

    /** `loadSettings`: rebuild the model list from the fetched models,
        select the first option, then restore the stored settings. */
    method LoadSettings(tags: Background.TagsReply, stored: Storage)
      modifies this
      ensures var models := FetchLocalModels(tags);
              State() == Restored(old(State()).(options := ModelOptions(models),
                                                model := ModelOptions(models)[0].value,
                                                modelDisabled := |models| == 0), stored)
      ensures SelectionOffered()
    {
      UpdateModelSelect(FetchLocalModels(tags));
      var r := Restored(State(), stored);
      apiHost, model, sourceLang, targetLang, color := r.apiHost, r.model, r.sourceLang, r.targetLang, r.color;
      temperature, topP, maxTokens := r.temperature, r.topP, r.maxTokens;
    }

    /** `saveSettings`: the storage after the write, and the tabs then told
        about the colour (http and https pages only). */
    method SaveSettings(tabs: seq<Tab>) returns (saved: Storage, notified: seq<int>)
      ensures saved == SavedStorage(apiHost, model, sourceLang, targetLang, color,
                                    Params(temperature, topP, maxTokens))
      ensures notified == EligibleIds(tabs, ReceivesColor)
    {
      saved := SavedStorage(apiHost, model, sourceLang, targetLang, color,
                            Params(temperature, topP, maxTokens));
      notified := SelectTabs(tabs, ReceivesColor);
    }

    /** The reset button: the default colour, then a save. */
    method ResetColor(tabs: seq<Tab>) returns (saved: Storage, notified: seq<int>)
      modifies this
      ensures State() == old(State()).(color := DefaultColor)
      ensures saved.translationColor == Some(DefaultColor) && saved.modelInitialized == Bool(true)
      ensures saved == SavedStorage(apiHost, model, sourceLang, targetLang, DefaultColor,
                                    Params(temperature, topP, maxTokens))
      ensures notified == EligibleIds(tabs, ReceivesColor)
    {
      color := DefaultColor;
      saved, notified := SaveSettings(tabs);
    }

    /** `toggleHistory`: a visible panel (any display but `none`) is hidden;
        a hidden one is shown and asks for a refresh. */
    method ToggleHistory() returns (refresh: bool)
      modifies this
      ensures refresh <==> old(historyDisplay) == "none"
      ensures historyDisplay == (if old(historyDisplay) == "none" then "block" else "none")
      ensures State() == old(State()).(historyDisplay := historyDisplay)
    {
      var visible := historyDisplay != "none";
      historyDisplay := if visible then "none" else "block";
      refresh := !visible;
    }
  }
}
