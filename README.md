# slack-issue-creator, modelled in Dafny

slack-issue-creator is a Slack app. It turns a Slack message into a GitHub issue in two steps:

1. A message action opens a modal that has three fields: a repository select, a title input and a body input.
2. Submitting the modal creates the issue. The app then replies in the message's thread with the issue's URL.

The two steps reach the app as two separate HTTP callbacks, and the server keeps no session between them. What links them is the modal's `private_metadata`. This hidden field holds the JSON text of a record with three parts: the channel, the timestamp of the thread to reply in, and the message's permalink.

This project models the pure core of both handler generations:

- the controller in `src/controllers/createGithubIssue.ts`. It fills the modal after opening it empty, offers repositories by type-ahead, and builds the issue;
- the inline handlers in `src/index.ts`. They use a static select of every repository. This file also holds the startup check of the required settings.

Modules:

- `Wrappers`: `Option` (a JavaScript value that may be `undefined`) and `Result` (an outbound call that answers or rejects).
- `Js`: truthiness, `||` on possibly-undefined strings, `startsWith`, and `process.env` as a map.
- `Metadata`: the message and channel records, the thread-anchor rule and the metadata record. It also holds the metadata's JSON encoding, with its round trip proved in both directions.
- `Options`: select options built from repository names.
- `Submission`: form state, the issue body with its attribution footer, the confirmation reply, and the submission logic shared by both handlers.
- `Index`: the startup check and the inline handlers.
- `CreateGithubIssue`: the controller handlers and the repository filter.

Calls to Slack and GitHub are parameters:

- the permalink is a string;
- the repository listing is a sequence of names, or a `Result` in the inline handler, which catches its failure;
- issue creation is a function from the request to the created issue's `html_url`, or `None` when the call rejects.

## Model

| member | source | states |
|---|---|---|
| `Metadata.ThreadAnchorChoice` | src/controllers/createGithubIssue.ts:144 | the anchor is `thread_ts` when it is present and non-empty, and `ts` otherwise, including when `thread_ts` is `''` |
| `Metadata.ThreadAnchorShared` | src/controllers/createGithubIssue.ts:144 | a root message and every reply in its thread get the same anchor, the root's `ts`. This holds whether the root has no `thread_ts` or carries its own `ts` as `thread_ts` |
| `Metadata.ThreadAnchorExample` | src/index.ts:65 | a root message at 100 is anchored at 100; a reply at 105 in that thread is anchored at 100, not 105 |
| `Metadata.UnescapeEscape` | src/controllers/createGithubIssue.ts:57 | reading back an escaped string literal gives the original string and leaves the text after the closing quote untouched |
| `Metadata.EscapeUnescape` | src/controllers/createGithubIssue.ts:169-171 | every string literal the reader accepts is exactly the escaped form of what it returns |
| `Metadata.DecodeEncode` | src/controllers/createGithubIssue.ts:169-171 | decoding the encoded metadata gives back the same channel, `thread_ts` and permalink |
| `Metadata.EncodeDecode` | src/controllers/createGithubIssue.ts:169-171 | every text that decodes is the encoding of its result, so any other text is a decode error |
| `Metadata.EncodeInjective` | src/controllers/createGithubIssue.ts:57 | two different metadata records never share an encoding |
| `Options.OptionsFor` | src/index.ts:78-84 | one option per repository name, in the same order, and each option's `text` and `value` are that name |
| `Options.ValuesOfOptions` | src/controllers/createGithubIssue.ts:208-216 | the values of the built options are exactly the names they were built from, in order |
| `Submission.SubmittedText` | src/controllers/createGithubIssue.ts:180-185 | removes the footer from a body; when it succeeds, the body is its result followed by the footer |
| `Submission.BodyRoundTrip` | src/controllers/createGithubIssue.ts:180-185 | every issue body ends with the footer for the decoded permalink, and what comes before the footer is the submitted body or `''` |
| `Submission.BodyLinksPermalink` | src/controllers/createGithubIssue.ts:185 | the body ends with the markdown link `[this message](permalink)` |
| `Submission.ReplyEndsWithUrl` | src/controllers/createGithubIssue.ts:191 | the confirmation text ends with the created issue's `html_url` |
| `Submission.Submit` | src/controllers/createGithubIssue.ts:164-197 | nothing is created or posted when the metadata does not decode. Otherwise the issue gets the selected repo, the title and the body with its footer. A reply is posted exactly when creation answers, to the decoded `channel.id` at the decoded `thread_ts`, with text `issueを作成しました <url>` |
| `Index.FirstMissing` | src/index.ts:4-19 | every setting before the returned position is set, and the setting at that position is absent or empty |
| `Index.Startup` | src/index.ts:4-19 | startup goes on exactly when all four settings are set. Otherwise it aborts with `env.X must be set.`, where X is the first missing setting in the order SLACK_SIGNING_SECRET, SLACK_BOT_TOKEN, GITHUB_BOT_TOKEN, GITHUB_ORG |
| `Index.SigningSecretCheckedFirst` | src/index.ts:4-7 | a missing signing secret is the setting reported, whatever else is missing |
| `Index.DefaultRepo` | src/index.ts:47 | the default is `GITHUB_DEFAULT_REPO` when it is non-empty, else the first listed repository. It is undefined only when both are missing |
| `Index.OnMessageAction` | src/index.ts:37-127 | a failed listing only says `error occured. <error>`. Otherwise the modal carries the metadata for the action's channel, thread anchor and permalink, plus one option per repository in order with text equal to value. The initial option's text and value are both the default repository, possibly undefined. The title is the message text as it is, and the body is empty |
| `Index.InitialRepoChoice` | src/index.ts:85-88 | the preselected option is the configured default. Without one, it is the first static option. When the list is empty too, the option is still sent, with undefined text and value |
| `Index.OnViewSubmission` | src/index.ts:131-153 | nothing is created or posted when the metadata does not decode. Otherwise the request has owner `GITHUB_ORG`, the selected repo and the title. Its body is the submitted text or `''` followed by `\n\n----\n:octocat: This issue was created based on [this message](<permalink>)`. A reply is posted exactly when creation answers, to the decoded `channel.id` at the decoded `thread_ts`, with text `issueを作成しました <url>` |
| `Index.ActionThenSubmission` | src/index.ts:63-67 | submitting the inline modal builds the issue from the form and replies in the action's channel at its thread anchor |
| `CreateGithubIssue.FilledViewFor` | src/controllers/createGithubIssue.ts:47-109 | the hidden metadata decodes to the record given. The initial option's text and value are the default repo, the title starts as the given title and the body starts empty |
| `CreateGithubIssue.DefaultRepo` | src/controllers/createGithubIssue.ts:141 | the default is `GITHUB_DEFAULT_REPO` when it is non-empty, and `''` otherwise |
| `CreateGithubIssue.OnCreateGithubIssueAction` | src/controllers/createGithubIssue.ts:140-156 | the filled modal's metadata decodes to the action's channel, its thread anchor and the permalink. The initial option is the default repo, and the title is the message text or `''` |
| `CreateGithubIssue.OnSubmitGithubIssueView` | src/controllers/createGithubIssue.ts:164-197 | nothing is created or posted when the metadata does not decode. Otherwise the request has owner `GITHUB_ORG`, the selected repo and the title. Its body is the submitted text or `''` followed by `\n\n----\nThis issue was created based on [this message](<permalink>)`. A reply is posted exactly when creation answers, to the decoded `channel.id` at the decoded `thread_ts`, with text `issueを作成しました <url>` |
| `CreateGithubIssue.ActionThenSubmission` | src/controllers/createGithubIssue.ts:142-192 | across both phases, the issue request is fixed by the form and the permalink. The confirmation goes to the action's channel at its thread anchor |
| `CreateGithubIssue.GarbageMetadataAborts` | src/controllers/createGithubIssue.ts:168-196 | in the model, metadata that is not the encoding of any record creates no issue and posts no reply |
| `CreateGithubIssue.GarbageExample` | src/controllers/createGithubIssue.ts:169-171 | the text `garbage`, which `JSON.parse` rejects, creates no issue and posts no reply |
| `CreateGithubIssue.FilterRepos` | src/controllers/createGithubIssue.ts:205-207 | every kept name is a listed repository that starts with the query, and no more names are kept than were listed |
| `CreateGithubIssue.FilterConcat` | src/controllers/createGithubIssue.ts:205-207 | filtering a concatenation is the concatenation of the filtered parts, so source order is kept |
| `CreateGithubIssue.FilterCount` | src/controllers/createGithubIssue.ts:205-207 | a matching name is kept exactly as often as it is listed, and a non-matching name is never kept |
| `CreateGithubIssue.FilterWithoutQuery` | src/controllers/createGithubIssue.ts:206 | an absent or empty query returns the list unchanged |
| `CreateGithubIssue.OnRequestRepositoryList` | src/controllers/createGithubIssue.ts:199-220 | each option has text equal to value and a value that is a listed repository starting with the query. The values, in order, are exactly the filtered repositories |
| `CreateGithubIssue.RepositoryListWithoutQuery` | src/controllers/createGithubIssue.ts:206 | without a query every repository is offered, in source order |
| `CreateGithubIssue.RepositoryListExample` | src/controllers/createGithubIssue.ts:205-216 | the query `svc` over `svc-api`, `svc-web` and `lib-core` offers `svc-api`, then `svc-web` |

## Left out

- Slack and GitHub calls (`views.open`, `views.update`, `chat.getPermalink`, `chat.postMessage`, `issues.create`, `repos.listForOrg`) are not modelled. Their answers are parameters.
- The controller first opens an empty modal and then patches it, with `Promise.all`. This concurrency and timing are not modelled: `OnCreateGithubIssueAction` gives only the view the modal ends up with. A failure of `views.open` or `chat.getPermalink` is left out as well, because the `try/catch` there does not catch the promise's rejections.
- `CreateGithubIssue.OnRequestRepositoryList` has no failure path for the listing. The handler does not catch it, and then nothing is acknowledged.
- If `chat.getPermalink` fails in the inline handler, the promise rejects and nothing is opened. This case is not modelled.
- Text encoding is simplified. The model escapes only `"`, `\`, newline, carriage return and tab, and reads back only those escapes. It also expects the exact key order and no whitespace. JSON.stringify escapes every control character, and JSON.parse accepts any valid JSON text.
- JSON of the wrong shape is not modelled. In the source it may throw before creation (`null` fails at the destructuring). It may throw after creation (`{}` creates an issue whose footer links `undefined`, then fails at `channel.id`). Or it may not fail at all (a channel without `name` creates the issue and replies). The model reports every text that is not an encoding as a decode error.
- CreateGithubIssue.GarbageMetadataAborts: holds of the model's decoder only. In the source, JSON that parses but has the wrong shape can still create an issue, as the line above describes.
- Handlers read `GITHUB_ORG` from the environment under a precondition that it is set. The startup check guarantees this. The TypeScript non-null assertion does not change the value at run time.
- The title is never checked for emptiness, and the model adds no such check.
- Modal layout, labels, `callback_id`, `block_id`, `min_query_length`, logging, `app.start`, `process.exit` and the unhandled rejections of the inline handlers are not modelled. Their observable effect is that nothing is created or posted, the same as the modelled outcome.
