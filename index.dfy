/**
 * The entry point: the startup check of the required settings, and the
 * first-generation handlers registered inline there (a message action that
 * opens a modal with a static list of every repository, and the submission
 * of that modal).
 */
module Index {
  import opened Wrappers
  import opened Js
  import opened Metadata
  import opened Options
  import opened Submission

  // ---------------------------------------------------------------------------
  // Startup

  /** The settings that must be set, in the order they are checked. */
  const RequiredSettings: seq<string> :=
    ["SLACK_SIGNING_SECRET", "SLACK_BOT_TOKEN", "GITHUB_BOT_TOKEN", "GITHUB_ORG"]

  /** The position of the first setting of `keys` that is absent or empty, or `|keys|` when all are set. */
  function FirstMissing(env: Env, keys: seq<string>): (i: nat)
    ensures i <= |keys|
    ensures forall j :: 0 <= j < i ==> !Missing(env, keys[j])
    ensures i < |keys| ==> Missing(env, keys[i])
  {
    if keys == [] then 0
    else if Missing(env, keys[0]) then 0
    else 1 + FirstMissing(env, keys[1..])
  }

  /** How startup ends: aborted with a message naming a setting, or the app starts. */
  datatype StartupOutcome = Abort(message: string) | Started

  /** The message logged before the process exits. */
  function MissingMessage(key: string): string {
    "env." + key + " must be set."
  }

  /** The four `if (!process.env.X)` checks: the first failing one aborts startup. */
  function Startup(env: Env): (r: StartupOutcome)
    ensures r.Started? <==> forall k :: k in RequiredSettings ==> !Missing(env, k)
    ensures r.Abort? ==>
      exists i :: 0 <= i < |RequiredSettings|
        && r.message == MissingMessage(RequiredSettings[i])
        && Missing(env, RequiredSettings[i])
        && forall j :: 0 <= j < i ==> !Missing(env, RequiredSettings[j])
  {
    var i := FirstMissing(env, RequiredSettings);
    if i < |RequiredSettings| then Abort(MissingMessage(RequiredSettings[i])) else Started
  }

  /** Without a signing secret the complaint is about the secret, whatever else is missing. */
  lemma SigningSecretCheckedFirst(env: Env)
    requires Missing(env, "SLACK_SIGNING_SECRET")
    ensures Startup(env) == Abort("env.SLACK_SIGNING_SECRET must be set.")
  {
  }

  // ---------------------------------------------------------------------------
  // Message action

  /** `process.env.GITHUB_DEFAULT_REPO || repoNames[0]`, undefined when neither is there. */
  function DefaultRepo(env: Env, repoNames: seq<string>): (r: Option<string>)
    ensures Truthy(Lookup(env, "GITHUB_DEFAULT_REPO")) ==> r == Lookup(env, "GITHUB_DEFAULT_REPO")
    ensures !Truthy(Lookup(env, "GITHUB_DEFAULT_REPO")) && |repoNames| > 0 ==> r == Some(repoNames[0])
    ensures r.None? <==> !Truthy(Lookup(env, "GITHUB_DEFAULT_REPO")) && repoNames == []
  {
    OrElse(Lookup(env, "GITHUB_DEFAULT_REPO"), if repoNames == [] then None else Some(repoNames[0]))
  }

  /**
   * The `initial_option` of the static select. It is always sent; its text
   * and value are undefined when the default repository is.
   */
  datatype InitialOption = InitialOption(text: Option<string>, value: Option<string>)

  /**
   * The modal the inline handler opens. `initialTitle` is the message text as
   * it is, possibly undefined.
   */
  datatype InlineView = InlineView(
    privateMetadata: string,
    repoOptions: seq<SelectOption>,
    initialRepo: InitialOption,
    initialTitle: Option<string>,
    initialBody: string)

  /** Either the repository listing failed and an error was said in the channel, or the modal was opened. */
  datatype ActionOutcome = SaidError(text: string) | Opened(view: InlineView)

  const ListingErrorPrefix: string := "error occured. "

  /**
   * The inline message-action handler. `listing` is the answer of
   * `repos.listForOrg` (names, or the serialized error); `permalink` that of
   * `chat.getPermalink`.
   */
  function OnMessageAction(action: MessageAction, env: Env, listing: Result<seq<string>, string>,
                           permalink: string): (r: ActionOutcome)
    ensures r.SaidError? <==> listing.Failure?
    ensures r.SaidError? ==> r.text == ListingErrorPrefix + listing.error
    ensures r.Opened? ==>
      && Decode(r.view.privateMetadata) == Some(MetadataFor(action, permalink))
      && |r.view.repoOptions| == |listing.value|
      && (forall i :: 0 <= i < |listing.value| ==>
            r.view.repoOptions[i].text == r.view.repoOptions[i].value == listing.value[i])
      && r.view.initialRepo.text == r.view.initialRepo.value == DefaultRepo(env, listing.value)
      && r.view.initialTitle == action.message.text
      && r.view.initialBody == ""
  {
    match listing
    case Failure(e) => SaidError(ListingErrorPrefix + e)
    case Success(repoNames) =>
      var metadata := MetadataFor(action, permalink);
      DecodeEncode(metadata);
      var default := DefaultRepo(env, repoNames);
      Opened(InlineView(
        Encode(metadata),
        OptionsFor(repoNames),
        InitialOption(default, default),
        action.message.text,
        ""))
  }

  /**
   * Without a configured default, the preselected option is the first listed
   * repository, which is the first of the static options; with one, it shows
   * and submits the configured name. With neither, the option is still sent,
   * with undefined text and value.
   */
  lemma InitialRepoChoice(action: MessageAction, env: Env, repoNames: seq<string>, permalink: string)
    ensures var r := OnMessageAction(action, env, Success(repoNames), permalink);
      && (Truthy(Lookup(env, "GITHUB_DEFAULT_REPO")) ==>
            r.view.initialRepo == InitialOption(Some(env["GITHUB_DEFAULT_REPO"]), Some(env["GITHUB_DEFAULT_REPO"])))
      && (!Truthy(Lookup(env, "GITHUB_DEFAULT_REPO")) && repoNames != [] ==>
            r.view.initialRepo == InitialOption(Some(r.view.repoOptions[0].text), Some(r.view.repoOptions[0].value)))
      && (!Truthy(Lookup(env, "GITHUB_DEFAULT_REPO")) && repoNames == [] ==>
            r.view.initialRepo == InitialOption(None, None))
  {
  }

  // ---------------------------------------------------------------------------
  // View submission

  const Attribution: string := ":octocat: This issue was created based on "

  /** The inline view-submission handler; the owner is `GITHUB_ORG`, which startup has checked. */
  function OnViewSubmission(privateMetadata: string, form: FormState, env: Env,
                            createIssue: IssueRequest -> Option<string>): (r: SubmitOutcome)
    requires !Missing(env, "GITHUB_ORG")
    ensures r.DecodeFailed? <==> Decode(privateMetadata).None?
    ensures !r.DecodeFailed? ==>
      var m := Decode(privateMetadata).value;
      && r.request == IssueRequest(env["GITHUB_ORG"], form.repo, form.title,
                                   Or(form.body, "") + Footer(Attribution, m.messagePermalink))
      && (r.Replied? <==> createIssue(r.request).Some?)
    ensures r.Replied? ==>
      var m := Decode(privateMetadata).value;
      r.reply == PostMessage(m.channel.id, m.threadTs, Confirmation + createIssue(r.request).value)
  {
    Submit(Attribution, privateMetadata, form, env["GITHUB_ORG"], createIssue)
  }

  /**
   * A submission of the modal the inline handler opened is answered in the
   * thread the action was invoked in, in the channel it came from.
   */
  lemma ActionThenSubmission(action: MessageAction, env: Env, repoNames: seq<string>, permalink: string,
                             form: FormState, createIssue: IssueRequest -> Option<string>)
    requires !Missing(env, "GITHUB_ORG")
    ensures var v := OnMessageAction(action, env, Success(repoNames), permalink).view;
      var r := OnViewSubmission(v.privateMetadata, form, env, createIssue);
      && !r.DecodeFailed?
      && r.request.repo == form.repo
      && r.request.title == form.title
      && SubmittedText(r.request.body, Attribution, permalink) == Some(Or(form.body, ""))
      && (r.Replied? ==> r.reply.channel == action.channel.id && r.reply.threadTs == ThreadAnchor(action.message))
  {
  }
}
