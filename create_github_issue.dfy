/**
 * The controller for the "create GitHub issue" message action: the action
 * handler that fills the modal, the submission handler that creates the
 * issue and replies in the thread, and the type-ahead handler that lists the
 * repositories matching what the user typed.
 */
module CreateGithubIssue {
  import opened Wrappers
  import opened Js
  import opened Metadata
  import opened Options
  import opened Submission

  // ---------------------------------------------------------------------------
  // Message action

  /** The values the filled modal carries: the hidden metadata and the initial field values. */
  datatype FilledView = FilledView(
    privateMetadata: string,
    initialRepo: SelectOption,
    initialTitle: string,
    initialBody: string)

  /** `generateCreateGithubIssueFilledView`. */
  function FilledViewFor(metadata: PrivateMetadata, defaultRepo: string, issueTitle: string): (v: FilledView)
    ensures Decode(v.privateMetadata) == Some(metadata)
    ensures v.initialRepo.text == defaultRepo && v.initialRepo.value == defaultRepo
    ensures v.initialTitle == issueTitle && v.initialBody == ""
  {
    DecodeEncode(metadata);
    FilledView(Encode(metadata), OptionFor(defaultRepo), issueTitle, "")
  }

  /** `process.env.GITHUB_DEFAULT_REPO || ''`. */
  function DefaultRepo(env: Env): (r: string)
    ensures Truthy(Lookup(env, "GITHUB_DEFAULT_REPO")) ==> r == env["GITHUB_DEFAULT_REPO"]
    ensures !Truthy(Lookup(env, "GITHUB_DEFAULT_REPO")) ==> r == ""
  {
    Or(Lookup(env, "GITHUB_DEFAULT_REPO"), "")
  }

  /**
   * `onCreateGithubIssueAction`, once the empty modal is open and
   * `chat.getPermalink` has answered `permalink`: the view the modal is
   * updated to.
   */
  function OnCreateGithubIssueAction(action: MessageAction, env: Env, permalink: string): (v: FilledView)
    ensures Decode(v.privateMetadata)
            == Some(PrivateMetadata(action.channel, ThreadAnchor(action.message), permalink))
    ensures v.initialRepo == OptionFor(DefaultRepo(env))
    ensures v.initialTitle == (if action.message.text.Some? then action.message.text.value else "")
    ensures v.initialBody == ""
  {
    FilledViewFor(MetadataFor(action, permalink), DefaultRepo(env), Or(action.message.text, ""))
  }

  // ---------------------------------------------------------------------------
  // View submission

  const Attribution: string := "This issue was created based on "

  /** `onSubmitGithubIssueView`; the owner is `GITHUB_ORG`, which startup has checked. */
  function OnSubmitGithubIssueView(privateMetadata: string, form: FormState, env: Env,
                                   createIssue: IssueRequest -> Option<string>): (r: SubmitOutcome)
    requires !Missing(env, "GITHUB_ORG")
    ensures r.DecodeFailed? <==> Decode(privateMetadata).None?
    ensures !r.DecodeFailed? ==>
      var m := Decode(privateMetadata).value;
      && r.request == IssueRequest(env["GITHUB_ORG"], form.repo, form.title,
                                   Or(form.body, "") + Footer(Attribution, m.messagePermalink))
      && (r.Replied? <==> createIssue(r.request).Some?)
    ensures r.Replied? ==>
      var m := Decode(privateMetadata).value;
      r.reply == PostMessage(m.channel.id, m.threadTs, Confirmation + createIssue(r.request).value)
  {
    Submit(Attribution, privateMetadata, form, env["GITHUB_ORG"], createIssue)
  }

  /**
   * The two phases stitched together by the metadata alone: submitting the
   * modal the action filled creates the issue from the form, with a footer
   * linking the message, and answers in the channel and thread of the action.
   */
  lemma ActionThenSubmission(action: MessageAction, env: Env, permalink: string,
                             form: FormState, createIssue: IssueRequest -> Option<string>)
    requires !Missing(env, "GITHUB_ORG")
    ensures var v := OnCreateGithubIssueAction(action, env, permalink);
      var r := OnSubmitGithubIssueView(v.privateMetadata, form, env, createIssue);
      && !r.DecodeFailed?
      && r.request == IssueRequest(env["GITHUB_ORG"], form.repo, form.title,
                                   Or(form.body, "") + Footer(Attribution, permalink))
      && (r.Replied? <==> createIssue(r.request).Some?)
      && (r.Replied? ==> r.reply == PostMessage(action.channel.id, ThreadAnchor(action.message),
                                                 Confirmation + createIssue(r.request).value))
  {
  }

  /**
   * Metadata that is not the encoding of any record (a garbled or truncated
   * one) creates nothing and posts nothing.
   */
  lemma GarbageMetadataAborts(text: string, form: FormState, env: Env, createIssue: IssueRequest -> Option<string>)
    requires !Missing(env, "GITHUB_ORG")
    requires forall m :: Encode(m) != text
    ensures OnSubmitGithubIssueView(text, form, env, createIssue) == DecodeFailed
  {
    if Decode(text).Some? {
      EncodeDecode(text);
    }
  }

  /** The text `garbage`, which is no JSON at all, aborts the submission. */
  lemma GarbageExample(form: FormState, env: Env, createIssue: IssueRequest -> Option<string>)
    requires !Missing(env, "GITHUB_ORG")
    ensures OnSubmitGithubIssueView("garbage", form, env, createIssue) == DecodeFailed
  {
  }

  // ---------------------------------------------------------------------------
  // Repository type-ahead

  /** `!query || repo.startsWith(query)`: an absent or empty query keeps every repository. */
  predicate Keeps(query: Option<string>, repo: string) {
    !Truthy(query) || StartsWith(repo, query.value)
  }

  /** `repos.filter(repo => !query || repo.startsWith(query))`. */
  function FilterRepos(repos: seq<string>, query: Option<string>): (r: seq<string>)
    ensures |r| <= |repos|
    ensures forall x :: x in r ==> x in repos && Keeps(query, x)
  {
    if repos == [] then []
    else (if Keeps(query, repos[0]) then [repos[0]] else []) + FilterRepos(repos[1..], query)
  }

  /** Filtering a concatenation filters each part and keeps them in order: source order is kept. */
  lemma {:induction false} FilterConcat(a: seq<string>, b: seq<string>, query: Option<string>)
    ensures FilterRepos(a + b, query) == FilterRepos(a, query) + FilterRepos(b, query)
  {
    if a == [] {
      assert a + b == b;
    } else {
      assert (a + b)[0] == a[0];
      assert (a + b)[1..] == a[1..] + b;
      FilterConcat(a[1..], b, query);
    }
  }

  /** Every repository that matches is kept as often as it is listed, and no other is kept. */
  lemma {:induction false} FilterCount(repos: seq<string>, query: Option<string>, x: string)
    ensures multiset(FilterRepos(repos, query))[x] == if Keeps(query, x) then multiset(repos)[x] else 0
  {
    if repos != [] {
      FilterCount(repos[1..], query, x);
      assert repos == [repos[0]] + repos[1..];
    }
  }

  /** An absent or empty query returns the list unchanged. */
  lemma {:induction false} FilterWithoutQuery(repos: seq<string>, query: Option<string>)
    requires !Truthy(query)
    ensures FilterRepos(repos, query) == repos
  {
    if repos != [] {
      FilterWithoutQuery(repos[1..], query);
      assert [repos[0]] + repos[1..] == repos;
    }
  }

  /** `onRequestRepositoryList`: one option per matching repository, in source order. */
  function OnRequestRepositoryList(repos: seq<string>, query: Option<string>): (r: seq<SelectOption>)
    ensures forall i :: 0 <= i < |r| ==>
      r[i].text == r[i].value && r[i].value in repos && Keeps(query, r[i].value)
    ensures Values(r) == FilterRepos(repos, query)
  {
    var kept := FilterRepos(repos, query);
    ValuesOfOptions(kept);
    OptionsFor(kept)
  }

  /** Without a query every repository is offered, in source order. */
  lemma RepositoryListWithoutQuery(repos: seq<string>, query: Option<string>)
    requires !Truthy(query)
    ensures OnRequestRepositoryList(repos, query) == OptionsFor(repos)
  {
    FilterWithoutQuery(repos, query);
  }

  /** Typing "svc" among svc-api, svc-web and lib-core offers svc-api then svc-web. */
  lemma RepositoryListExample()
    ensures Values(OnRequestRepositoryList(["svc-api", "svc-web", "lib-core"], Some("svc"))) == ["svc-api", "svc-web"]
  {
    var repos := ["svc-api", "svc-web", "lib-core"];
    assert Keeps(Some("svc"), "svc-api") && Keeps(Some("svc"), "svc-web");
    assert !Keeps(Some("svc"), "lib-core") by { assert "lib-core"[..3][0] != "svc"[0]; }
    assert repos[1..] == ["svc-web", "lib-core"] && repos[1..][1..] == ["lib-core"];
    assert ["lib-core"][1..] == [];
  }
}
