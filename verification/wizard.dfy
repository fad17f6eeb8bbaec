/** The command-line setup wizard's decisions: which API key it accepts,
    how the privacy, model, test and retry answers are read, and the record
    it saves. Prompting and the connection test itself are left to the
    caller: answers arrive as strings. */
module Wizard {
  import opened Wrappers
  import opened Text
  import opened JsObject

  /** `!apiKey || !apiKey.startsWith('sk-')` rejects the key. */
  predicate AcceptApiKey(key: string) {
    key != "" && StartsWith(key, "sk-")
  }

  /** `setupApiKey` asks again until an answer is accepted: the index of the
      answer it keeps, or `None` when the answers run out first. */
  method AskApiKey(answers: seq<string>) returns (r: Option<nat>)
    ensures r.Some? ==> r.value < |answers| && AcceptApiKey(answers[r.value])
    ensures r.Some? ==> forall j :: 0 <= j < r.value ==> !AcceptApiKey(answers[j])
    ensures r.None? ==> forall j :: 0 <= j < |answers| ==> !AcceptApiKey(answers[j])
  {
    var i := 0;
    while i < |answers|
      invariant 0 <= i <= |answers|
      invariant forall j :: 0 <= j < i ==> !AcceptApiKey(answers[j])
    {
      if AcceptApiKey(answers[i]) {
        return Some(i);
      }
      i := i + 1;
    }
    return None;
  }

  /** A key is accepted exactly when it begins with `sk-`; the prefix alone
      is enough. */
  lemma AcceptedKeysStartWithPrefix(key: string)
    ensures AcceptApiKey(key) <==> |key| >= 3 && key[..3] == "sk-"
    ensures AcceptApiKey("sk-")
  {
  }

  /** `answer.toLowerCase() === word` for a lower-case ASCII word. */
  predicate AnswerIs(answer: string, word: string) {
    ToLowerAscii(answer) == word
  }

  /** An answer lower-cases to a one-letter word exactly when it is that
      letter in either case. */
  lemma AnswerIsLetter(answer: string, lower: char)
    requires 'a' <= lower <= 'z'
    ensures AnswerIs(answer, [lower]) <==>
      answer == [lower] || answer == [UpperChar(lower)]
  {
    if AnswerIs(answer, [lower]) {
      assert LowerChar(answer[0]) == lower;
    }
  }

  /** `privacyFiltering`: on unless the answer is `n` in either case, so an
      empty answer keeps it on. */
  function PrivacyEnabled(answer: string): (r: bool)
    ensures !r <==> answer == "n" || answer == "N"
    ensures answer == "" ==> r
  {
    AnswerIsLetter(answer, 'n');
    !AnswerIs(answer, "n")
  }

  /** The connection test is skipped exactly on `n` or `N`. */
  function SkipTest(answer: string): (r: bool)
    ensures r <==> answer == "n" || answer == "N"
  {
    AnswerIsLetter(answer, 'n');
    AnswerIs(answer, "n")
  }

  /** After a failed test the wizard retries exactly on `y` or `Y`; the
      default answer does not retry. */
  function RetryAfterFailure(answer: string): (r: bool)
    ensures r <==> answer == "y" || answer == "Y"
    ensures answer == "" ==> !r
  {
    AnswerIsLetter(answer, 'y');
    AnswerIs(answer, "y")
  }

  // ----- Model choice -----------------------------------------------------

  /** What `models[choice]` yields on the object literal: one of its own
      model names, an inherited prototype member, or nothing. */
  datatype ModelSetting = Named(model: string) | PrototypeMember(name: string)

  /** The answer after `|| '1'`. */
  function Choice(answer: string): (r: string)
    ensures answer == "" ==> r == "1"
    ensures answer != "" ==> r == answer
  {
    if answer == "" then "1" else answer
  }

  /** `models[choice]` on the object literal, without its fallback. */
  function OwnModel(choice: string): (r: Option<string>)
    ensures r.Some? <==> choice in {"1", "2", "3"}
  {
    if choice == "1" then Some("gpt-4")
    else if choice == "2" then Some("gpt-4-turbo")
    else if choice == "3" then Some("gpt-3.5-turbo")
    else None
  }

  /** `config.model` as written: an inherited member of the object literal
      is truthy, so the `|| 'gpt-4'` fallback does not apply to it. */
  function ModelSettingAsWritten(answer: string): (r: ModelSetting)
    ensures OwnModel(Choice(answer)).Some? ==> r == Named(OwnModel(Choice(answer)).value)
    ensures Choice(answer) in PrototypeNames ==> r == PrototypeMember(Choice(answer))
    ensures OwnModel(Choice(answer)).None? && Choice(answer) !in PrototypeNames ==>
      r == Named("gpt-4")
  {
    var choice := Choice(answer);
    match OwnModel(choice)
    case Some(m) => Named(m)
    case None => if choice in PrototypeNames then PrototypeMember(choice) else Named("gpt-4")
  }

  /** Answering `constructor` stores a function rather than a model name. */
  lemma PrototypeAnswerSelectsNoModel()
    ensures ModelSettingAsWritten("constructor") == PrototypeMember("constructor")
    ensures ModelChoice("constructor") == "gpt-4"
  {
    assert "constructor" in PrototypeNames;
  }

  /** The model the wizard selects: `1`, `2` and `3` (an empty answer counts
      as `1`) pick GPT-4, GPT-4 Turbo and GPT-3.5 Turbo; anything else picks
      GPT-4. */
  function ModelChoice(answer: string): (r: string)
    ensures r in {"gpt-4", "gpt-4-turbo", "gpt-3.5-turbo"}
    ensures answer == "" || answer == "1" ==> r == "gpt-4"
    ensures answer == "2" ==> r == "gpt-4-turbo"
    ensures answer == "3" ==> r == "gpt-3.5-turbo"
    ensures answer !in {"", "1", "2", "3"} ==> r == "gpt-4"
  {
    OwnModel(Choice(answer)).GetOr("gpt-4")
  }

  /** The selection agrees with the code as written on every answer that is
      not an inherited property name. */
  lemma ModelChoiceAgreesOffPrototype(answer: string)
    requires Choice(answer) !in PrototypeNames
    ensures ModelSettingAsWritten(answer) == Named(ModelChoice(answer))
  {
  }

  // ----- Saving -----------------------------------------------------------

  /** The answers collected before saving. */
  datatype WizardConfig = WizardConfig(apiKey: string, privacy: bool, model: string)

  /** The record `saveConfiguration` writes; `setupDate` is the clock's
      reading, an input here. */
  datatype SavedConfig = SavedConfig(
    openaiApiKey: string,
    aiModel: string,
    filterApiKeys: bool,
    filterCredentials: bool,
    filterFinancial: bool,
    setupCompleted: bool,
    setupDate: string)

  function SaveConfiguration(cfg: WizardConfig, now: string): (r: SavedConfig)
    ensures r.openaiApiKey == cfg.apiKey && r.aiModel == cfg.model && r.setupDate == now
    ensures r.filterApiKeys == r.filterCredentials == r.filterFinancial == cfg.privacy
    ensures r.setupCompleted
  {
    SavedConfig(cfg.apiKey, cfg.model, cfg.privacy, cfg.privacy, cfg.privacy, true, now)
  }

  /** The record saved from the wizard's answers: an accepted key, the three
      filter flags all off exactly when privacy filtering was declined, and
      one of the three offered models. */
  lemma SavedFromAnswers(key: string, privacyAnswer: string, modelAnswer: string, now: string)
    requires AcceptApiKey(key)
    ensures var r := SaveConfiguration(
              WizardConfig(key, PrivacyEnabled(privacyAnswer), ModelChoice(modelAnswer)), now);
      StartsWith(r.openaiApiKey, "sk-")
      && (!r.filterApiKeys && !r.filterCredentials && !r.filterFinancial
          <==> privacyAnswer == "n" || privacyAnswer == "N")
      && r.aiModel in {"gpt-4", "gpt-4-turbo", "gpt-3.5-turbo"}
      && r.setupCompleted
  {
  }
}
