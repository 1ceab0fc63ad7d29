/**
 * What both view-submission handlers do once the modal is submitted: decode
 * the private metadata, build the issue from the form values with an
 * attribution footer that links the original message, and, when the issue
 * tracker answers, reply in the original thread. The two handlers differ only
 * in the attribution line of the footer.
 */
module Submission {
  import opened Wrappers
  import opened Js
  import opened Metadata

  /**
   * The submitted form values: the selected repository, the title input and
   * the optional body input (undefined when left blank).
   */
  datatype FormState = FormState(repo: string, title: string, body: Option<string>)

  /** The parameters of `octokit.issues.create`. */
  datatype IssueRequest = IssueRequest(owner: string, repo: string, title: string, body: string)

  /** The parameters of `chat.postMessage`. */
  datatype PostMessage = PostMessage(channel: string, threadTs: string, text: string)

  /**
   * How a submission ends: the metadata did not decode (nothing is created or
   * posted), the issue tracker rejected the request (nothing is posted), or
   * the issue was created and a confirmation was posted.
   */
  datatype SubmitOutcome =
    | DecodeFailed
    | CreateFailed(request: IssueRequest)
    | Replied(request: IssueRequest, reply: PostMessage)

  const Separator: string := "\n\n----\n"

  /** The trailing block of every issue body: a rule, then the attribution line linking the message. */
  function Footer(attribution: string, permalink: string): string {
    Separator + attribution + "[this message](" + permalink + ")"
  }

  /** The submitted body text, or `''` when the body input was left blank, followed by the footer. */
  function IssueBody(attribution: string, submitted: Option<string>, permalink: string): string {
    Or(submitted, "") + Footer(attribution, permalink)
  }

  /** Takes the footer for `permalink` off an issue body: the inverse of `IssueBody`. */
  function SubmittedText(body: string, attribution: string, permalink: string): (r: Option<string>)
    ensures r.Some? ==> body == r.value + Footer(attribution, permalink)
  {
    var f := Footer(attribution, permalink);
    if |f| <= |body| && body[|body| - |f|..] == f then Some(body[..|body| - |f|]) else None
  }

  const Confirmation: string := "issueを作成しました "

  /** The reply posted once the issue exists: into the decoded channel, at the decoded thread. */
  function ConfirmationReply(m: PrivateMetadata, htmlUrl: string): PostMessage {
    PostMessage(m.channel.id, m.threadTs, Confirmation + htmlUrl)
  }

  /**
   * One submission. `createIssue` stands for the issue tracker: it answers
   * a request with the created issue's `html_url`, or rejects it (`None`).
   */
  function Submit(attribution: string, privateMetadata: string, form: FormState, owner: string,
                  createIssue: IssueRequest -> Option<string>): (r: SubmitOutcome)
    ensures r.DecodeFailed? <==> Decode(privateMetadata).None?
    ensures !r.DecodeFailed? ==>
      var m := Decode(privateMetadata).value;
      && r.request.owner == owner
      && r.request.repo == form.repo
      && r.request.title == form.title
      && SubmittedText(r.request.body, attribution, m.messagePermalink) == Some(Or(form.body, ""))
      && (r.Replied? <==> createIssue(r.request).Some?)
    ensures r.Replied? ==>
      var m := Decode(privateMetadata).value;
      && r.reply.channel == m.channel.id
      && r.reply.threadTs == m.threadTs
      && r.reply.text == Confirmation + createIssue(r.request).value
  {
    match Decode(privateMetadata)
    case None => DecodeFailed
    case Some(m) =>
      var request := IssueRequest(owner, form.repo, form.title, IssueBody(attribution, form.body, m.messagePermalink));
      BodyRoundTrip(attribution, form.body, m.messagePermalink);
      match createIssue(request)
      case None => CreateFailed(request)
      case Some(url) => Replied(request, ConfirmationReply(m, url))
  }

  /** The body always ends with the footer linking the permalink, and what precedes it is the submitted text. */
  lemma BodyRoundTrip(attribution: string, submitted: Option<string>, permalink: string)
    ensures SubmittedText(IssueBody(attribution, submitted, permalink), attribution, permalink)
            == Some(Or(submitted, ""))
  {
  }

  /** The permalink appears in the body, inside the markdown link of the footer. */
  lemma BodyLinksPermalink(attribution: string, submitted: Option<string>, permalink: string)
    ensures var body := IssueBody(attribution, submitted, permalink);
            var link := "[this message](" + permalink + ")";
            && |link| <= |body|
            && body[|body| - |link|..] == link
  {
  }

  /** The confirmation ends with the created issue's URL. */
  lemma ReplyEndsWithUrl(m: PrivateMetadata, htmlUrl: string)
    ensures var text := ConfirmationReply(m, htmlUrl).text;
            |htmlUrl| <= |text| && text[|text| - |htmlUrl|..] == htmlUrl
  {
  }
}
