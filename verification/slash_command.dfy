/** `GithubSlashcommand`: the `/github` command. Each invocation reads and
    writes the plugin's store and produces a list of effects: private notices
    to the sender, messages posted into the room, calls to GitHub and an
    opened dialog. `/github / PAGE` replays the sender's last listing command
    for another page. */
module SlashCommand {
  import opened Js
  import opened Chat
  import opened Persistence
  import opened Notification
  import Sdk
  import IssueModal

  /** One invocation: who typed it, where, its arguments after `/github`, and
      the id the client needs to open a dialog, if it sent one. */
  datatype Context = Context(sender: User, room: Room, args: seq<string>, triggerId: Option<string>)

  /** `fetch`: `'n'` for a command typed by the user, `'p'` for a replay. */
  datatype FetchMode = New | Previous

  /** The outcome of a listing call: the `html_url` of each item, or what was thrown. */
  datatype Listing = Listed(urls: seq<string>) | Failed(error: Sdk.ApiError)

  /** What GitHub and the host answer during one invocation. `repoListing` is
      what a successful repositories reply turns into; `issues` is the outcome
      of the issue fetch. */
  datatype Env = Env(
    webhookUrl: string,
    hookResponse: Sdk.HttpResponse,
    reposResponse: Sdk.HttpResponse,
    repoListing: Listing,
    issues: Listing)

  /** What an invocation does besides writing the store. A dialog is opened
      as the view `IssueModal.BuildModal` makes from the request. */
  datatype Effect =
    | NotifyUser(notice: Notice)
    | PostMessage(message: Message)
    | CallApi(call: Sdk.ApiCall)
    | OpenModal(request: IssueModal.ModalRequest, triggerId: string, user: User)

  /** Errors the command does not catch. */
  datatype Fault =
    | NoPreviousCommand   // the stored command is `undefined` and is indexed
    | ReplayLoops         // the stored command is itself a replay, which replays again without end

  datatype Step = Step(store: Store, effects: seq<Effect>, fault: Option<Fault>)

  /** The commands the dispatcher knows, in the order of the source's
      `Command` enumeration; `NextPage` is its `Previos` member, `/`. */
  datatype Command = Connect | SetToken | UserRepos | Help | Issue | Create | NextPage

  /** The word that selects a command. */
  function Name(c: Command): string {
    match c
    case Connect => "connect"
    case SetToken => "set-token"
    case UserRepos => "user"
    case Help => "help"
    case Issue => "issue"
    case Create => "create"
    case NextPage => "/"
  }

  /** The command a first argument selects, if any: the cases of the `switch`
      in `availableCommands`. */
  function ParseCommand(arg: Option<string>): (c: Option<Command>)
    ensures c.Some? ==> arg == Some(Name(c.value))
    ensures c.None? ==> forall k :: arg != Some(Name(k))
  {
    if arg == Some("connect") then Some(Connect)
    else if arg == Some("set-token") then Some(SetToken)
    else if arg == Some("user") then Some(UserRepos)
    else if arg == Some("help") then Some(Help)
    else if arg == Some("issue") then Some(Issue)
    else if arg == Some("create") then Some(Create)
    else if arg == Some("/") then Some(NextPage)
    else None
  }

  const FirstPage := "1"
  const FixedToken := "123"

  const ConnectUsage := "Usage: `/github connect REPO_URL`"
  const InvalidAddress := "Invalid GitHub repo address"
  const MissingToken := "You haven't configured your access key yet. Please run `/github set-token YOUR_ACCESS_TOKEN`"
  const ConnectFailed := "Error connecting to the repo"
  const Connected := "Successfully connected repo"
  const SetTokenUsage := "Usage: `/github set-token ACCESS_TOKEN`"
  const TokenStored := "Successfully stored your key"

  const HelpText :=
    " ```" +
    " 1. Fetch user repositories - /github user {username} \n" +
    " 2. Fetch a issue           - /github issue {owner} {repo} {issue no.}  \n" +
    " 3. Fetch all issue         - /github issue {owner} {repo} " +
    " 4. Connect to repository   - /github connect {repo-url}  \n" +
    " 5. Set token               - /github set-token token \n" +
    " 6. Create issue            - /github create" +
    " Note currently create command is configured for hard coded owner and repo \n" +
    " 7. Search issue            - /github search" +
    " ``` "

  /** A plain notice to the sender, shown in the invocation's room. */
  function Tell(ctx: Context, text: string): Effect {
    NotifyUser(Notify(text, ctx.sender, ctx.room))
  }

  /** The caught error handed to the sender as a notice. */
  function TellError(ctx: Context, error: Sdk.ApiError): Effect {
    NotifyUser(SendNotification(ErrorObject(error), ctx.sender, ctx.room, None))
  }

  /** One message per listed address, posted into the room as the sender. */
  function Listings(ctx: Context, urls: seq<string>): (es: seq<Effect>)
    ensures |es| == |urls|
    ensures forall i :: 0 <= i < |urls| ==>
      es[i] == PostMessage(Message(ctx.room, Some(ctx.sender), None, None, urls[i]))
  {
    if |urls| == 0 then []
    else Listings(ctx, urls[..|urls| - 1]) + [PostMessage(Message(ctx.room, Some(ctx.sender), None, None, urls[|urls| - 1]))]
  }

  /** Element `i` of a stored command; `undefined` past its end. */
  function Part(command: seq<Option<string>>, i: nat): Option<string> {
    if i < |command| then command[i] else None
  }

  // ---------------------------------------------------------------------------
  // Handlers
  // ---------------------------------------------------------------------------

  /** `processConnectCommand`: check the address and the sender's token,
      register the webhook, and link the repository to the room only if
      GitHub accepted the registration. */
  function ProcessConnect(s: Store, ctx: Context, env: Env): (r: Step)
    ensures r.fault.None?
    ensures r.store == s || (
      && |ctx.args| > 1
      && r.store == ConnectRepoToRoom(s, Sdk.GetRepoName(ctx.args[1]), ctx.room)
      && Sdk.IsSuccessStatus(env.hookResponse.statusCode))
  {
    var repoUrl := At(ctx.args, 1);
    if !Truthy(repoUrl) then Step(s, [Tell(ctx, ConnectUsage)], None)
    else
      var repoName := Sdk.GetRepoName(repoUrl.value);
      if repoName == "" then Step(s, [Tell(ctx, InvalidAddress)], None)
      else
        var token := GetUserAccessToken(s, ctx.sender);
        if !Truthy(token) then Step(s, [Tell(ctx, MissingToken)], None)
        else
          var call := CallApi(Sdk.Http(Sdk.CreateWebhook(repoName, env.webhookUrl, token.value)));
          if Sdk.CheckResponse(env.hookResponse).Thrown? then Step(s, [call, Tell(ctx, ConnectFailed)], None)
          else Step(ConnectRepoToRoom(s, repoName, ctx.room), [call, Tell(ctx, Connected)], None)
  }

  /** `processSetTokenCommand`. */
  function ProcessSetToken(s: Store, ctx: Context): (r: Step)
    ensures r.fault.None? && |r.effects| == 1
    ensures Truthy(At(ctx.args, 1)) ==> GetUserAccessToken(r.store, ctx.sender) == At(ctx.args, 1)
    ensures !Truthy(At(ctx.args, 1)) ==> r.store == s
  {
    var token := At(ctx.args, 1);
    if !Truthy(token) then Step(s, [Tell(ctx, SetTokenUsage)], None)
    else
      PutLookup(s, AccessToken(ctx.sender.id), TokenValue(token.value));
      Step(SetUserAccessToken(s, token.value, ctx.sender), [Tell(ctx, TokenStored)], None)
  }

  /** Argument `i` of a command: typed by the user, or in a replay taken from
      the stored command. */
  function Arg(s: Store, ctx: Context, fetch: FetchMode, i: nat): Option<string> {
    if fetch == Previous then Part(GetPreviousCommand(s, ctx.sender).GetOr([]), i) else At(ctx.args, i)
  }

  /** The listing handlers index the stored command in a replay, and throw when
      there is none. */
  predicate MissingRecall(s: Store, ctx: Context, fetch: FetchMode) {
    fetch == Previous && GetPreviousCommand(s, ctx.sender).None?
  }

  /** The command a successful `user` listing stores. */
  function UserRecord(userName: Option<string>): seq<Option<string>> {
    [Some(Name(UserRepos)), userName]
  }

  /** The command a successful `issue` listing stores. */
  function IssueRecord(owner: Option<string>, repoName: Option<string>): seq<Option<string>> {
    [Some(Name(Issue)), owner, repoName]
  }

  /** `processUserCommand`: list a user's repositories, one message per
      repository, then remember the command. The page is handed to the client,
      which ignores it. */
  function ProcessUser(s: Store, ctx: Context, env: Env, fetch: FetchMode): (r: Step)
    ensures MissingRecall(s, ctx, fetch) <==> r.fault.Some?
    ensures r.store == s || r.store == StorePreviousCommand(s, UserRecord(Arg(s, ctx, fetch, 1)), ctx.sender)
    ensures r.store != s ==> Sdk.IsSuccessStatus(env.reposResponse.statusCode) && env.repoListing.Listed?
  {
    if MissingRecall(s, ctx, fetch) then Step(s, [], Some(NoPreviousCommand))
    else
      var userName := Arg(s, ctx, fetch, 1);
      var call := CallApi(Sdk.Http(Sdk.GetRepos(userName)));
      match Sdk.CheckResponse(env.reposResponse)
      case Thrown(response) => Step(s, [call, TellError(ctx, Sdk.Rejected(response))], None)
      case Parsed(_) =>
        match env.repoListing
        case Failed(e) => Step(s, [call, TellError(ctx, e)], None)
        case Listed(urls) => Step(StorePreviousCommand(s, UserRecord(userName), ctx.sender), [call] + Listings(ctx, urls), None)
  }

  /** `processIssueCommand`: fetch one issue or a page of them, one message per
      issue, then remember the command. A missing page means the first. */
  function ProcessIssue(s: Store, ctx: Context, env: Env, page: Option<string>, fetch: FetchMode): (r: Step)
    ensures MissingRecall(s, ctx, fetch) <==> r.fault.Some?
    ensures r.store == s
         || r.store == StorePreviousCommand(s, IssueRecord(Arg(s, ctx, fetch, 1), Arg(s, ctx, fetch, 2)), ctx.sender)
    ensures r.store != s ==> env.issues.Listed?
  {
    if MissingRecall(s, ctx, fetch) then Step(s, [], Some(NoPreviousCommand))
    else
      var owner := Arg(s, ctx, fetch, 1);
      var repoName := Arg(s, ctx, fetch, 2);
      var call := CallApi(Sdk.FetchIssue(FixedToken, owner, repoName, At(ctx.args, 3), page.GetOr(FirstPage)));
      match env.issues
      case Failed(e) => Step(s, [call, TellError(ctx, e)], None)
      case Listed(urls) =>
        Step(StorePreviousCommand(s, IssueRecord(owner, repoName), ctx.sender), [call] + Listings(ctx, urls), None)
  }

  /** `processCreateIssueCommand`: open an empty write view, if the client sent
      a trigger id. */
  function ProcessCreateIssue(s: Store, ctx: Context): (r: Step)
    ensures r.store == s && r.fault.None?
    ensures |r.effects| <= 1
    ensures |r.effects| == 1 <==> Truthy(ctx.triggerId)
  {
    if Truthy(ctx.triggerId) then
      var request := IssueModal.ModalRequest("modalid", "write", IssueModal.IssueContent("", ""));
      Step(s, [OpenModal(request, ctx.triggerId.value, ctx.sender)], None)
    else Step(s, [], None)
  }

  /** `processHelpCommand`. */
  function ProcessHelp(s: Store, ctx: Context): (r: Step)
    ensures r.store == s && r.fault.None?
    ensures r.effects == [NotifyUser(Notify(HelpText, ctx.sender, ctx.room))]
  {
    Step(s, [Tell(ctx, HelpText)], None)
  }

  // ---------------------------------------------------------------------------
  // Dispatch
  // ---------------------------------------------------------------------------

  /** The `switch` of `availableCommands` for every command but the replay. */
  function Route(c: Command, s: Store, ctx: Context, env: Env, page: Option<string>, fetch: FetchMode): (r: Step)
    requires c != NextPage
  {
    match c
    case Connect => ProcessConnect(s, ctx, env)
    case SetToken => ProcessSetToken(s, ctx)
    case UserRepos => ProcessUser(s, ctx, env, fetch)
    case Help => ProcessHelp(s, ctx)
    case Issue => ProcessIssue(s, ctx, env, page, fetch)
    case Create => ProcessCreateIssue(s, ctx)
  }

  /** The notice a replay starts with: the stored command as an array prints
      inside a template literal, and the page as given. */
  function ReplayNotice(stored: Option<seq<Option<string>>>, page: Option<string>): string {
    "Re-executing command " + (if stored.Some? then JoinArray(stored.value) else "undefined")
    + " for " + Render(page) + "."
  }

  /** `processPreviousCommandForNextPage`: announce the replay, then dispatch
      the stored command's name with the page given here, in replay mode. */
  function ProcessPreviousCommand(s: Store, ctx: Context, env: Env): (r: Step)
    ensures |r.effects| >= 1
    ensures r.effects[0] == Tell(ctx, ReplayNotice(GetPreviousCommand(s, ctx.sender), At(ctx.args, 1)))
    ensures GetPreviousCommand(s, ctx.sender).None? <==> r.fault == Some(NoPreviousCommand)
  {
    var stored := GetPreviousCommand(s, ctx.sender);
    var page := At(ctx.args, 1);
    var notice := Tell(ctx, ReplayNotice(stored, page));
    if stored.None? then Step(s, [notice], Some(NoPreviousCommand))
    else
      match ParseCommand(Part(stored.value, 0))
      case None => Step(s, [notice], None)
      case Some(c) =>
        if c == NextPage then Step(s, [notice], Some(ReplayLoops))
        else
          var r := Route(c, s, ctx, env, page, Previous);
          Step(r.store, [notice] + r.effects, r.fault)
  }

  /** `availableCommands(command, ..., page, fetch)`: a name the `switch` does
      not know does nothing. */
  function AvailableCommands(command: Option<string>, s: Store, ctx: Context, env: Env, page: Option<string>,
                             fetch: FetchMode): (r: Step)
  {
    match ParseCommand(command)
    case None => Step(s, [], None)
    case Some(c) => if c == NextPage then ProcessPreviousCommand(s, ctx, env) else Route(c, s, ctx, env, page, fetch)
  }

  /** `executor`: a typed command runs with page `'1'` in normal mode. */
  function Execute(s: Store, ctx: Context, env: Env): (r: Step)
  {
    AvailableCommands(At(ctx.args, 0), s, ctx, env, Some(FirstPage), New)
  }
}
