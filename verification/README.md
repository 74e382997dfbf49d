# github-apps-rc, modelled in Dafny

github-apps-rc is a Rocket.Chat app that connects chat rooms to GitHub. This project models its core. The `/github` slash command:

- connects a repository to a room, registering a push webhook with the sender's token;
- stores a personal token;
- lists a user's repositories, or a repository's issues, as messages in the room;
- replays the last listing command for another page (`/github / PAGE`);
- prints help;
- opens a two-view dialog (write, then preview) for drafting an issue.

The app's webhook endpoint announces `issue` and `issue_comment` deliveries in the room the repository is connected to. Everything is kept in the host's association store, through the `AppPersistence` wrapper.

## Modules

Each module is one file.

- **Js** (`js.dfy`): the JavaScript semantics the code relies on.
  - `undefined` is `Option.None`.
  - Truthiness of strings: `''` is falsy.
  - `indexOf` and `includes`.
  - How `undefined` and string arrays print inside template literals.
- **Chat** (`chat.dfy`): users, rooms, messages and the bot account `rocket.cat`.
- **Sdk** (`sdk.dfy`): `getRepoName`, the success test on status codes, and the requests the GitHub client builds.
- **AssociationStore** (`association_store.dfy`): the host's persistence primitive.
  - A store is a sequence of records, each carrying a set of tags.
  - `readByAssociations` returns every record whose tags include the query, in insertion order.
  - `updateByAssociations(..., upsert = true)` overwrites all such records, or appends a new one.
- **Persistence** and **PersistenceLaws**: `AppPersistence` over that store. Each getter and setter is a `Put` or `Lookup` on a `Key`. The laws relate getters to setters.
- **Notification** (`notification.dfy`): `sendNotification`.
- **IssueModal** (`issue_modal.dfy`): `createModalForIssue`.
- **ModalHandlers** (`modal_handlers.dfy`): the app's view-submit and view-close handlers.
- **Webhook** (`webhook.dfy`): `WebhookEndpoint.post`.
- **SlashCommand** and **SlashCommandLaws**: the `/github` command and what it promises.

### How the outside world is represented

- An invocation is a pure function from the store and a context to a `Step`. A `Step` holds:
  - the new store;
  - the effects, in order: notices, posted messages, GitHub calls, an opened dialog;
  - the error the code lets escape, if any.
- The answers of GitHub and the host are parameters:
  - an `Env` for the slash command;
  - a room table and a parsed request for the webhook.

### The code is followed where it departs from the intended design

- **Connections.** A repository link is written under the tags {room, `repo:NAME`} but read under {`repo:NAME`} alone. Connecting a repository from a second room therefore adds a second record, and `getConnectedRoomId` keeps answering with the first room. The first connection wins; it is not last-write-wins (`PersistenceLaws.FirstConnectionWins`).
- **Malformed form payload.** When a form-encoded delivery's `payload` field is not JSON, `JSON.parse` throws uncaught. This is `Webhook.MalformedPayload`, not a silent success.
- **No selected user.** With no selected user, reading `user.id` throws, so the webhook fails (`Webhook.NoSelectedUser`). No `/github` invocation selects a user, so in a store built by invocations alone every webhook delivery fails this way, whatever GitHub answered each invocation (`SlashCommandLaws.CommandsAloneLeaveWebhookFailing`).
- **Replay with nothing stored.** It first notifies `Re-executing command undefined for PAGE.`, then throws when it indexes the missing command.
- **Listing errors.** `user` and `issue` pass the caught error object itself to `sendNotification`, not a message string. `Notification.Text` therefore has an `ErrorObject` case.
- **Help text.** The help advertises a `search` command that the dispatcher does not know. A first argument it does not know does nothing at all.
- **Event names.** The registered webhook subscribes to `push` only, while the endpoint announces the event names `issue` and `issue_comment`.

## Model

| member | source | states |
|---|---|---|
| AssociationStore.ReadSpec | lib/persistence.ts:29 | Reading by tags returns only records that carry all of them, every such record, in store order, and as many records as the store holds matching ones (duplicates included). So the read is exactly the matching records of the store, in order. |
| AssociationStore.ReadNoMatch | lib/persistence.ts:29 | A query no record matches reads nothing. |
| AssociationStore.ReadHead | lib/persistence.ts:29-31 | The first record read is the earliest record of the store that carries the tags. |
| AssociationStore.OverwriteSpec | lib/persistence.ts:13-16 | Overwriting keeps every record's tags and the store's length. It gives the new value to exactly the records carrying the tags. |
| AssociationStore.UpdateSpec | lib/persistence.ts:13-16 | An upsert changes only records that carry the written tags, and gives them all the new value. It grows the store by one record, tagged with exactly the written tags, only when no record carried them. |
| AssociationStore.FirstSpec | lib/persistence.ts:29-31 | `const [result] = read(...)` finds a value exactly when some record carries the tags, and the value found is that of the earliest such record. |
| AssociationStore.ReadAppend | lib/persistence.ts:29 | Appending a record adds it to the end of a read exactly when it carries the queried tags. |
| AssociationStore.ReadOverwrite | lib/persistence.ts:13-16 | Reading after an overwrite equals overwriting the read: overwriting never changes which records a query finds. |
| AssociationStore.OverwriteNoMatch | lib/persistence.ts:13-16 | Overwriting tags that no record carries leaves the store unchanged. |
| AssociationStore.ReadAfterUpdate | lib/persistence.ts:13-16 | After an upsert, reading the written tags finds at least one record. Every record found holds the written value, and so does the first. |
| AssociationStore.UpdateFrame | lib/persistence.ts:13-16 | An upsert leaves a read unchanged when no record carries both tag sets and the written tags do not include the read ones. |
| AssociationStore.FirstAfterWiderUpdate | lib/persistence.ts:13-16 | Reading with a subset of the written tags: the first record found stays the same one, and takes the new value only if it carries all the written tags. The new record is found only when nothing was found before. |
| AssociationStore.UpdateTwiceKeepsSize | lib/persistence.ts:13-16 | A second upsert with the same tags overwrites in place, so the store does not grow. |
| Persistence.RepoTagInjective | lib/persistence.ts:11 | Different repository names give different `repo:` tags. |
| Persistence.MiscIdIsRepoTag | lib/persistence.ts:11 | Among the MISC tags the code uses, only the repository link's is a `repo:` tag. |
| Persistence.WriteTagsOnePerModel | lib/persistence.ts:9-103 | Every record the wrapper writes carries at most one tag per scope. |
| Persistence.PutPreservesValid | lib/persistence.ts:9-103 | Writing a value of the right kind into a slot keeps every record well-formed: a link record carries its own room and `repo:` tag. |
| Persistence.KeysSeparated | lib/persistence.ts:9-103 | Any two different slots are read under two different tags of the same scope, so neither slot's query finds the other's records. |
| Persistence.PutFrame | lib/persistence.ts:9-103 | In a well-formed store, writing one slot leaves what every other slot reads unchanged. |
| Persistence.PutLookup | lib/persistence.ts:19-103 | Reading a slot other than a repository link right after writing it returns the written value. |
| Persistence.LinkLookupShape | lib/persistence.ts:26-32 | In a well-formed store, what `getConnectedRoomId` finds for a repository is a link naming that repository. |
| PersistenceLaws.PutOnlyChangesItsSlot | lib/persistence.ts:9-103 | A setter keeps the store well-formed and changes no other slot. |
| PersistenceLaws.AccessTokenRoundTrip | lib/persistence.ts:19-41 | `getUserAccessToken` returns the token `setUserAccessToken` just stored for the user. |
| PersistenceLaws.AccessTokenOverwrite | lib/persistence.ts:19-41 | Setting a second token makes it the one read, and adds no record. |
| PersistenceLaws.PreviousCommandRoundTrip | lib/persistence.ts:43-57 | `getPreviousCommand` returns the command just stored for the user. |
| PersistenceLaws.SubscribedEventsRoundTrip | lib/persistence.ts:59-73 | The stored subscription is read back unchanged, even when it is `undefined`. An empty store has none. |
| PersistenceLaws.SelectedRoomRoundTrip | lib/persistence.ts:75-88 | `getRoom` returns the room `setRoom` just stored for the user. |
| PersistenceLaws.SelectedUserIsGlobal | lib/persistence.ts:90-103 | The selected user is one global slot: the last user set is returned. |
| PersistenceLaws.PerUserIsolation | lib/persistence.ts:19-88 | Writing a token, command, subscription or room for one user never changes what another user reads in any of those slots. |
| PersistenceLaws.KindsAreSeparate | lib/persistence.ts:9-103 | Storing a token changes no command, subscription, room, selected user or repository link. |
| PersistenceLaws.ConnectRepoToRoomLookup | lib/persistence.ts:9-32 | Connecting a repository keeps the store well-formed. `getConnectedRoomId` then answers as before if the repository was linked, and otherwise with the new room. |
| PersistenceLaws.MatchingLinkHoldsValue | lib/persistence.ts:9-17 | A link record that already carries the room being connected holds exactly the value the connection writes. |
| PersistenceLaws.ConnectThenGetConnectedRoomId | lib/persistence.ts:9-32 | A repository is linked to no room in the empty store, and to its room after one connection. |
| PersistenceLaws.FirstConnectionWins | lib/persistence.ts:9-32 | Connecting from a second room adds a record but leaves the repository routed to the first room. |
| PersistenceLaws.LinkOfRepoHasItsRoom | lib/persistence.ts:9-17 | After the first connection, every record with the repository's tag carries the connecting room's tag. |
| Js.IndexOf | lib/sdk.ts:67 | `indexOf(c, from)` is the first position at or after `from` holding `c`, or -1 when there is none. |
| Js.ContainsPart | endpoints/webhook.ts:58-60 | Every interpolated piece of a template literal occurs in the resulting text. |
| Sdk.GetRepoName | lib/sdk.ts:61-70 | An address off `https://github.com/` gives `''`. Otherwise the result is a prefix of what follows the host. |
| Sdk.GetRepoNameIsRepoPart | lib/sdk.ts:61-70 | The parser meets the reference definition: the longest prefix after the host that holds at most one `/`. |
| Sdk.RepoPartUnique | lib/sdk.ts:61-70 | The reference definition determines exactly one name. |
| Sdk.GetRepoNameCutsAtSecondSlash | lib/sdk.ts:66-69 | With two or more `/` after the host, the name holds exactly one `/` and is followed by the second one. |
| Sdk.GetRepoNameWholeRemainder | lib/sdk.ts:66-69 | With fewer than two `/` after the host, the name is everything after the host. |
| Sdk.GetRepoNameIdempotent | lib/sdk.ts:61-70 | A name holds at most one `/`. Parsing the address rebuilt from a name gives the name back. |
| Sdk.GetRepoNameOtherHost | lib/sdk.ts:62-64 | `https://gitlab.com/foo/bar` gives `''`. |
| Sdk.GetRepoNameOwnerRepo | lib/sdk.ts:66-69 | `https://github.com/OWNER/REPO/anything` gives `OWNER/REPO` for slash-free owner and repository. |
| Sdk.GetRepoNameShortAddresses | lib/sdk.ts:61-70 | A bare owner is kept, and the bare host gives `''`. |
| Sdk.SuccessIffLeadingTwo | lib/sdk.ts:36-38 | The decimal string of a code with k+1 digits starts with `2` exactly when the code lies in [2·10^k, 3·10^k). |
| Sdk.HttpSuccessIsTwoHundreds | lib/sdk.ts:53-55 | For three-digit status codes, the `startsWith('2')` test accepts exactly 200 to 299. |
| Sdk.CheckResponse | lib/sdk.ts:36-40 | A response is thrown unchanged exactly when its status fails the test. Otherwise the text parsed is its content, or `'{}'` when the content is empty. |
| Sdk.CreateWebhook | lib/sdk.ts:9-18 | The registration is a POST with the bearer token, for an active hook on `push` that delivers JSON to the webhook address. |
| Sdk.CreateWebhookTargetsRepo | lib/sdk.ts:10 | The registration address names exactly the given repository's hooks collection. |
| Sdk.GetRepos | lib/sdk.ts:20-23 | Listing a user's repositories is a body-less GET under `https://api.github.com/users/`. |
| Sdk.GetReposTargetsUser | lib/sdk.ts:20-23 | The listing address is the `/repos` collection of exactly the given user (`undefined` when none is given), so different names give different requests. |
| Notification.Attachments | lib/helpers/sendNotification.ts:16-20 | Each address becomes one image attachment, in order. |
| Notification.AttachmentsRoundTrip | lib/helpers/sendNotification.ts:16-20 | The image addresses of the attachments built from a list are exactly that list. |
| Notification.SendNotification | lib/helpers/sendNotification.ts:5-28 | The notice goes to the given user only, from `rocket.cat`, in the given room, ungrouped. Its attachments show exactly the given addresses, and there are none without them. |
| Notification.Notify | lib/helpers/sendNotification.ts:5-28 | The usual call sends the plain text with no attachments. |
| IssueModal.CreateModalForIssue | lib/helpers/createModalForIssue.ts:129-143 | A view keeps its id, clears and notifies on close, and ends in a divider after three blocks. Its title is the write title exactly for type `write` and the preview title otherwise. Its buttons read `Preivew`/`Write` and `Create`/`Dismiss` by type. |
| IssueModal.WriteViewInputs | lib/helpers/createModalForIssue.ts:92-117 | The write view holds a title input pre-filled with the given title and a multiline description input pre-filled with the issue template. |
| IssueModal.WriteViewIgnoresDescription | lib/helpers/createModalForIssue.ts:111 | Two write views with the same title are equal whatever descriptions they were given. |
| IssueModal.PreviewShowsContent | lib/helpers/createModalForIssue.ts:118-127 | Every view other than `write` shows exactly the title and description it was built from. |
| ModalHandlers.ExecuteViewSubmit | AppsGithubApp.ts:84-121 | Submitting the write view answers with the preview of the submitted state. Submitting the preview answers with the write view. Any other view is only acknowledged. |
| ModalHandlers.ExecuteViewClosed | AppsGithubApp.ts:48-81 | Closing always answers success. It files an issue on `Aman-Maheshwari/getwork` with token `123`, the state's title and description, exactly when the closed view is the preview. |
| ModalHandlers.SubmitAlternates | AppsGithubApp.ts:104-116 | Submitting alternates write → preview → write. |
| ModalHandlers.WritePreviewWrite | AppsGithubApp.ts:104-116 | Write, submit, submit: the preview shows what was typed. The next write view keeps the title and starts the description over from the template. |
| ModalHandlers.WriteSubmitCloseFiles | AppsGithubApp.ts:48-121 | Submitting the write view and then closing the preview it leads to files an issue with the typed title and description on `Aman-Maheshwari/getwork`, with token `123`. |
| ModalHandlers.OnlyPreviewCloseFiles | AppsGithubApp.ts:69-76 | Closing a preview files an issue; closing a write view does not. |
| Webhook.PayloadOf | endpoints/webhook.ts:30-36 | Form deliveries take the parsed `payload` field, and anything else takes the body. |
| Webhook.Post | endpoints/webhook.ts:14-85 | No selected user is an uncaught error. A message is posted only for an announced event kind, into a room the table resolves, under the alias `git-bot`, without a sender. |
| Webhook.Dispatch | endpoints/webhook.ts:52-82 | Only `issue` and `issue_comment` produce a message, into the given room. Every other event kind answers success without one. |
| Webhook.IssueTextMentions | endpoints/webhook.ts:58-60 | An announcement names the actor, the author's page, the verb, the issue address, and the repository with its address. |
| Webhook.NoSelectedUserThrows | endpoints/webhook.ts:24-25 | Without a selected user the handler fails before looking at the request. |
| Webhook.UnsubscribedIsIgnored | endpoints/webhook.ts:25-28 | An event the selected user's stored subscription does not include is answered with success and nothing else. |
| Webhook.MalformedFormPayloadThrows | endpoints/webhook.ts:32-33 | A subscribed form delivery whose `payload` is not JSON fails. |
| Webhook.UnroutedIsIgnored | endpoints/webhook.ts:40-49 | A repository linked to no room, or to a room the host cannot find, is answered with success and nothing else. |
| Webhook.OtherEventsAreSilent | endpoints/webhook.ts:80-84 | An event kind other than `issue` and `issue_comment` never yields a message. |
| Webhook.IssueEventAnnounced | endpoints/webhook.ts:52-77 | A subscribed, routed `issue` or `issue_comment` delivery posts one message into the linked room. It carries the actor's avatar, and its text names the verb, the actor, the issue and the repository. |
| Webhook.ConnectedRepositoryIsRouted | endpoints/webhook.ts:40-64 | After a repository is connected to a room, its subscribed issue events are posted into that room. |
| SlashCommand.ParseCommand | slashcommands/github.ts:10-18 | A first argument selects a command exactly when it is that command's name, and selects none when it names no command. |
| SlashCommand.Listings | slashcommands/github.ts:187-195 | One message per listed address, in order, posted into the room as the sender. |
| SlashCommand.ProcessConnect | slashcommands/github.ts:95-142 | `connect` never fails. It changes the store only by linking the repository named by its second argument to the room, and only when GitHub accepted the webhook. |
| SlashCommand.ProcessSetToken | slashcommands/github.ts:144-162 | `set-token` sends one notice. A truthy token becomes the sender's stored token; otherwise the store is unchanged. |
| SlashCommand.ProcessUser | slashcommands/github.ts:164-202 | `user` fails only in a replay with nothing stored. It changes the store only by remembering `['user', NAME]`, and only after a successful listing. |
| SlashCommand.ProcessIssue | slashcommands/github.ts:204-258 | `issue` fails only in a replay with nothing stored. It changes the store only by remembering `['issue', OWNER, REPO]`, and only after a successful fetch. |
| SlashCommand.ProcessCreateIssue | slashcommands/github.ts:260-296 | `create` never fails and never writes. It has one effect exactly when the client sent a trigger id. |
| SlashCommand.ProcessHelp | slashcommands/github.ts:77-93 | `help` only sends the reference text to the sender, as a notice from `rocket.cat`. |
| SlashCommand.ProcessPreviousCommand | slashcommands/github.ts:298-313 | A replay always starts by announcing the stored command and the page. It fails with the missing-command error exactly when nothing is stored. |
| SlashCommandLaws.ParseName | slashcommands/github.ts:10-18 | Every command's name selects that command, so the names are distinct. |
| SlashCommandLaws.UnknownCommandIsInert | slashcommands/github.ts:47-74 | A first argument that names no command leaves the store unchanged and does nothing. |
| SlashCommandLaws.TypedCommandRuns | slashcommands/github.ts:28-34 | A typed command other than `/` runs its handler on the typed arguments, with page `'1'`. |
| SlashCommandLaws.NextPageReplays | slashcommands/github.ts:70-72 | `/` runs the replay. |
| SlashCommandLaws.TypedRouteNeverThrows | slashcommands/github.ts:47-74 | No handler fails on typed arguments. |
| SlashCommandLaws.OnlyReplayThrows | slashcommands/github.ts:28-74 | An invocation other than `/` never fails. |
| SlashCommandLaws.ConnectRejectsAddress | slashcommands/github.ts:101-113 | A missing address gives the usage notice, and a non-GitHub one gives the invalid-address notice. Nothing else happens. |
| SlashCommandLaws.ConnectRefusesOtherHost | slashcommands/github.ts:108-113 | `/github connect https://gitlab.com/foo/bar` only answers that the address is invalid. |
| SlashCommandLaws.ConnectNeedsToken | slashcommands/github.ts:115-127 | With no token stored, `connect` asks for one and neither registers nor links. |
| SlashCommandLaws.ConnectRegistersWebhook | slashcommands/github.ts:129-141 | The webhook is registered with the sender's token. The link is stored and success reported only when GitHub answered with a success status; otherwise the store is unchanged and failure reported. |
| SlashCommandLaws.ConnectLinksRoom | slashcommands/github.ts:139 | A first successful connection routes the repository to the sender's room. |
| SlashCommandLaws.SetTokenNeedsToken | slashcommands/github.ts:152-155 | A missing or empty token only shows the usage. |
| SlashCommandLaws.SetTokenStores | slashcommands/github.ts:157-161 | The given token becomes the sender's token, and the confirmation follows. |
| SlashCommandLaws.UserListingOutcome | slashcommands/github.ts:172-201 | The listing call names the typed user, or in a replay the stored one. Success posts one message per repository and remembers `['user', NAME]`. A rejected status passes the response to the sender and writes nothing. |
| SlashCommandLaws.IssueListingOutcome | slashcommands/github.ts:213-257 | The fetch names the typed repository, or in a replay the stored one, for the given page or `'1'`. Success posts one message per issue and remembers `['issue', OWNER, REPO]`. Failure passes the error to the sender and writes nothing. |
| SlashCommandLaws.CreateOpensWriteView | slashcommands/github.ts:281-290 | With a trigger id, `create` opens for the sender a write view with an empty title and the template as description. Without one it does nothing. |
| SlashCommandLaws.HelpOnlyNotifies | slashcommands/github.ts:77-93 | `help` writes nothing and sends exactly one notice, to the sender, from `rocket.cat`. |
| SlashCommandLaws.ReplayWithoutCommandThrows | slashcommands/github.ts:304-310 | With nothing stored, the replay announces `undefined` for the page and then fails. |
| SlashCommandLaws.ReplayRedispatches | slashcommands/github.ts:304-310 | A replay announces, then runs the stored command's handler in replay mode with the replay's page. |
| SlashCommandLaws.ReplayUser | slashcommands/github.ts:174-179 | Replaying a stored `user` command lists the stored user's repositories again. |
| SlashCommandLaws.ReplayIssue | slashcommands/github.ts:215-223 | Replaying a stored `issue` command fetches the stored repository's issues for the replay's page, or `'1'`. |
| SlashCommandLaws.ReplayKeepsStoredCommand | slashcommands/github.ts:298-313 | A successful replay stores again the command it replayed. |
| SlashCommandLaws.IssueThenNextPage | slashcommands/github.ts:215-252 | `issue RocketChat Rocket.Chat` followed by `/ 2` fetches page 2 of the same repository's issues. |
| SlashCommandLaws.RouteWrites | slashcommands/github.ts:47-74 | Each handler makes at most one write. Only `connect` links, only `set-token` stores a token, and only `user` and `issue` store a command, always a listing command. |
| SlashCommandLaws.ReplayWrites | slashcommands/github.ts:298-313 | A replay makes at most one allowed write. |
| SlashCommandLaws.ExecuteWrites | slashcommands/github.ts:28-74 | Every invocation makes at most one allowed write. |
| SlashCommandLaws.ApplyPreservesValid | lib/persistence.ts:9-48 | Each write the command can make keeps the store well-formed. |
| SlashCommandLaws.ApplyFrame | lib/persistence.ts:9-48 | A write changes no slot but its own. |
| SlashCommandLaws.ExecutePreservesValid | slashcommands/github.ts:28-74 | Every invocation keeps the store well-formed. |
| SlashCommandLaws.ExecuteIsolatesUsers | slashcommands/github.ts:28-74 | One user's invocation changes none of another user's token, command, subscription or room, and never the selected user. |
| SlashCommandLaws.OtherCommandsKeepStoredCommands | slashcommands/github.ts:47-69 | `connect`, `set-token`, `help` and `create` never change any stored command. |
| SlashCommandLaws.ApplyStoredCommand | slashcommands/github.ts:196 | After a write, each user's stored command is unchanged, or is the listing command just stored. |
| SlashCommandLaws.ApplyKeepsCommandsCanonical | slashcommands/github.ts:196-252 | Writes keep every stored command a listing command. |
| SlashCommandLaws.ExecuteKeepsCommandsCanonical | slashcommands/github.ts:28-74 | Invocations keep every stored command a listing command. |
| SlashCommandLaws.ExecuteKeepsSelectedUser | slashcommands/github.ts:28-74 | No invocation changes the selected user the webhook reads. |
| SlashCommandLaws.RunKeepsSelectedUser | slashcommands/github.ts:28-74 | Any run of invocations, each with its own answers from GitHub and the host, keeps the store well-formed and leaves the selected user as it was. |
| SlashCommandLaws.CommandsAloneLeaveWebhookFailing | endpoints/webhook.ts:24-26 | Starting from an empty store, after any run of `/github` invocations, however each one is answered, every webhook delivery fails with no selected user. |
| SlashCommandLaws.CanonicalReplayNeverLoops | slashcommands/github.ts:310 | When every stored command is a listing command, a replay never dispatches another replay. |

## Left out

- HTTP transport, JSON parsing, logging and `console.error`: GitHub's and the host's answers are parameters (`Env`, the webhook's room table and parsed request).
- `getWebhookUrl` (lib/helpers/getWebhookUrl.ts): its result is the parameter `Env.webhookUrl`.
- Stored subscriptions and the selected user: no shown file stores either. `storeSubscribedEventsForWebhook` (lib/persistence.ts:59-64) and `setUser` (lib/persistence.ts:90-94) have no caller, and `createSubscribeToEventModal` only builds a view, which this model does not include. The model takes both slots as found in the store.
- App lifecycle, settings and endpoint registration (`extendConfiguration`): configuration only.
- `fetchIssue` and `createIssue` are called on the GitHub client, but lib/sdk.ts does not define them. They are recorded as calls (`Sdk.FetchIssue`, `Sdk.CreateIssue`), and their outcome is the parameter `Env.issues`. The TypeError a missing method throws is one of the failures that parameter ranges over.
- The host's user and room lookups: the bot's id is the constant `Chat.BotUserId`, and its lookup (`getById('rocket.cat')`) is assumed to succeed. The room lookup (`getRoomReader().getById`) is the webhook's room table, a parameter.
- Ordering of messages that `map` starts without awaiting: they appear in list order.
- SlashCommand.ProcessConnect: every 2xx reply is treated as an accepted registration. A 2xx reply whose body is not JSON makes `JSON.parse` throw, which the code reports as a failure; JSON parsing is not modelled.
- SlashCommand.ProcessPreviousCommand: a stored command that is itself `/` would replay for ever; the model stops it with the error `ReplayLoops`. `SlashCommandLaws.CanonicalReplayNeverLoops` shows that no store built by the command itself reaches this state.
- IssueModal.CreateModalForIssue: the description input starts as `template || description`. The template is a non-empty literal, so the model uses the template directly and never consults the description.
- ModalHandlers.ExecuteViewClosed: the code passes the `issue-title` and `issue-description` wrapper objects to `createIssue`; the model passes the strings they hold.
- ModalHandlers.ExecuteViewSubmit: the submitted `state` is assumed to hold both inputs. A view that lacks them makes the code throw, which is not modelled.
- Webhook.Post: the inner fields of the payload objects (`full_name`, `login`, `html_url`, `avatar_url`) are assumed present whenever their object is.
- SlashCommand.ProcessUser: the page argument is passed on, but `getRepos` ignores it, so the model drops it.
- SlashCommand.ProcessCreateIssue: the effect carries the dialog request; the view itself is `IssueModal.BuildModal` of that request.
