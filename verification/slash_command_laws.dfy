/** What the `/github` command promises: which inputs each handler rejects,
    when the store changes and how, and how a replay repeats the last
    listing command for another page. */
module SlashCommandLaws {
  import opened Js
  import opened Chat
  import opened Persistence
  import opened Notification
  import opened SlashCommand
  import Sdk
  import PersistenceLaws
  import Webhook

  /** A stored command the listing handlers could have written. */
  predicate Canonical(c: seq<Option<string>>) {
    || (|c| == 2 && c[0] == Some(Name(UserRepos)))
    || (|c| == 3 && c[0] == Some(Name(Issue)))
  }

  /** Every user's stored command, if any, is one the handlers write. */
  ghost predicate CommandsCanonical(s: Store) {
    forall u :: GetPreviousCommand(s, u).Some? ==> Canonical(GetPreviousCommand(s, u).value)
  }

  // ---------------------------------------------------------------------------
  // Dispatch
  // ---------------------------------------------------------------------------

  /** Every command is selected by its own name: the names are distinct. */
  lemma ParseName(c: Command)
    ensures ParseCommand(Some(Name(c))) == Some(c)
  {
  }

  /** A first argument that names no command does nothing at all. */
  lemma UnknownCommandIsInert(s: Store, ctx: Context, env: Env)
    requires forall c :: At(ctx.args, 0) != Some(Name(c))
    ensures Execute(s, ctx, env) == Step(s, [], None)
  {
  }

  /** A typed command other than `/` runs its handler with page `'1'`, on the
      arguments as typed. */
  lemma TypedCommandRuns(s: Store, ctx: Context, env: Env, c: Command)
    requires At(ctx.args, 0) == Some(Name(c)) && c != NextPage
    ensures Execute(s, ctx, env) == Route(c, s, ctx, env, Some(FirstPage), New)
  {
    ParseName(c);
  }

  /** `/` runs the replay. */
  lemma NextPageReplays(s: Store, ctx: Context, env: Env)
    requires At(ctx.args, 0) == Some(Name(NextPage))
    ensures Execute(s, ctx, env) == ProcessPreviousCommand(s, ctx, env)
  {
    ParseName(NextPage);
  }

  /** A handler run on the arguments as typed never throws. */
  lemma TypedRouteNeverThrows(c: Command, s: Store, ctx: Context, env: Env, page: Option<string>)
    requires c != NextPage
    ensures Route(c, s, ctx, env, page, New).fault.None?
  {
  }

  /** Only a replay can throw. */
  lemma OnlyReplayThrows(s: Store, ctx: Context, env: Env)
    requires At(ctx.args, 0) != Some(Name(NextPage))
    ensures Execute(s, ctx, env).fault.None?
  {
    var c := ParseCommand(At(ctx.args, 0));
    if c.Some? {
      TypedRouteNeverThrows(c.value, s, ctx, env, Some(FirstPage));
    }
  }

  // ---------------------------------------------------------------------------
  // connect
  // ---------------------------------------------------------------------------

  /** `connect` without an address, or with one that names no GitHub
      repository, answers with a notice and does nothing else. */
  lemma ConnectRejectsAddress(s: Store, ctx: Context, env: Env)
    requires !Truthy(At(ctx.args, 1)) || Sdk.GetRepoName(ctx.args[1]) == ""
    ensures ProcessConnect(s, ctx, env)
         == Step(s, [Tell(ctx, if !Truthy(At(ctx.args, 1)) then ConnectUsage else InvalidAddress)], None)
  {
  }

  /** `/github connect https://gitlab.com/foo/bar` is refused as an invalid
      address, without any call to GitHub. */
  lemma ConnectRefusesOtherHost(s: Store, ctx: Context, env: Env)
    requires ctx.args == [Name(Connect), "https://gitlab.com/foo/bar"]
    ensures Execute(s, ctx, env) == Step(s, [Tell(ctx, InvalidAddress)], None)
  {
    TypedCommandRuns(s, ctx, env, Connect);
    Sdk.GetRepoNameOtherHost();
    ConnectRejectsAddress(s, ctx, env);
  }

  /** `connect` by a sender with no token asks for one, and neither registers a
      webhook nor links the repository. */
  lemma ConnectNeedsToken(s: Store, ctx: Context, env: Env)
    requires Truthy(At(ctx.args, 1)) && Sdk.GetRepoName(ctx.args[1]) != ""
    requires !Truthy(GetUserAccessToken(s, ctx.sender))
    ensures ProcessConnect(s, ctx, env) == Step(s, [Tell(ctx, MissingToken)], None)
  {
  }

  /** Otherwise `connect` registers a push webhook on the repository with the
      sender's token. The link is stored, and success reported, only when
      GitHub answered with a success status; otherwise the store is unchanged
      and the failure reported. */
  lemma ConnectRegistersWebhook(s: Store, ctx: Context, env: Env)
    requires Truthy(At(ctx.args, 1)) && Sdk.GetRepoName(ctx.args[1]) != ""
    requires Truthy(GetUserAccessToken(s, ctx.sender))
    ensures |ProcessConnect(s, ctx, env).effects| == 2
    ensures ProcessConnect(s, ctx, env).effects[0] == CallApi(Sdk.Http(Sdk.CreateWebhook(
      Sdk.GetRepoName(ctx.args[1]), env.webhookUrl, GetUserAccessToken(s, ctx.sender).value)))
    ensures Sdk.IsSuccessStatus(env.hookResponse.statusCode) ==>
      && ProcessConnect(s, ctx, env).store == ConnectRepoToRoom(s, Sdk.GetRepoName(ctx.args[1]), ctx.room)
      && ProcessConnect(s, ctx, env).effects[1] == Tell(ctx, Connected)
    ensures !Sdk.IsSuccessStatus(env.hookResponse.statusCode) ==>
      ProcessConnect(s, ctx, env).store == s && ProcessConnect(s, ctx, env).effects[1] == Tell(ctx, ConnectFailed)
  {
  }

  /** A first successful `connect` of a repository routes it to the sender's room. */
  lemma ConnectLinksRoom(s: Store, ctx: Context, env: Env)
    requires Valid(s)
    requires Truthy(At(ctx.args, 1)) && Sdk.GetRepoName(ctx.args[1]) != ""
    requires Truthy(GetUserAccessToken(s, ctx.sender))
    requires Sdk.IsSuccessStatus(env.hookResponse.statusCode)
    requires GetConnectedRoomId(s, Sdk.GetRepoName(ctx.args[1])).None?
    ensures GetConnectedRoomId(ProcessConnect(s, ctx, env).store, Sdk.GetRepoName(ctx.args[1])) == Some(ctx.room.id)
  {
    var name := Sdk.GetRepoName(ctx.args[1]);
    assert ProcessConnect(s, ctx, env).store == ConnectRepoToRoom(s, name, ctx.room) by {
      ConnectRegistersWebhook(s, ctx, env);
    }
    PersistenceLaws.ConnectRepoToRoomLookup(s, name, ctx.room);
  }

  // ---------------------------------------------------------------------------
  // set-token
  // ---------------------------------------------------------------------------

  /** `set-token` with no token, or an empty one, only shows the usage. */
  lemma SetTokenNeedsToken(s: Store, ctx: Context)
    requires !Truthy(At(ctx.args, 1))
    ensures ProcessSetToken(s, ctx) == Step(s, [Tell(ctx, SetTokenUsage)], None)
  {
  }

  /** `set-token T` stores T as the sender's token and confirms. */
  lemma SetTokenStores(s: Store, ctx: Context)
    requires Truthy(At(ctx.args, 1))
    ensures GetUserAccessToken(ProcessSetToken(s, ctx).store, ctx.sender) == Some(ctx.args[1])
    ensures ProcessSetToken(s, ctx).effects == [Tell(ctx, TokenStored)]
  {
  }

  // ---------------------------------------------------------------------------
  // user and issue
  // ---------------------------------------------------------------------------

  /** `user NAME` asks GitHub for NAME's repositories; on success it posts one
      message per repository and remembers `['user', NAME]`; on failure it
      shows the error and leaves the store alone. In a replay NAME comes from
      the stored command. */
  lemma UserListingOutcome(s: Store, ctx: Context, env: Env, fetch: FetchMode)
    requires !MissingRecall(s, ctx, fetch)
    ensures ProcessUser(s, ctx, env, fetch).effects[0] == CallApi(Sdk.Http(Sdk.GetRepos(Arg(s, ctx, fetch, 1))))
    ensures env.repoListing.Listed? && Sdk.IsSuccessStatus(env.reposResponse.statusCode) ==>
      && ProcessUser(s, ctx, env, fetch).effects[1..] == Listings(ctx, env.repoListing.urls)
      && GetPreviousCommand(ProcessUser(s, ctx, env, fetch).store, ctx.sender)
         == Some(UserRecord(Arg(s, ctx, fetch, 1)))
    ensures !Sdk.IsSuccessStatus(env.reposResponse.statusCode) ==>
      ProcessUser(s, ctx, env, fetch)
      == Step(s, [ProcessUser(s, ctx, env, fetch).effects[0], TellError(ctx, Sdk.Rejected(env.reposResponse))], None)
    ensures env.repoListing.Failed? ==> ProcessUser(s, ctx, env, fetch).store == s
  {
    if env.repoListing.Listed? && Sdk.IsSuccessStatus(env.reposResponse.statusCode) {
      PersistenceLaws.PreviousCommandRoundTrip(s, UserRecord(Arg(s, ctx, fetch, 1)), ctx.sender);
    }
  }

  /** `issue OWNER REPO [NO]` fetches the given page, `'1'` when there is none;
      on success it posts one message per issue and remembers
      `['issue', OWNER, REPO]`; on failure it shows the error and leaves the
      store alone. In a replay OWNER and REPO come from the stored command. */
  lemma IssueListingOutcome(s: Store, ctx: Context, env: Env, page: Option<string>, fetch: FetchMode)
    requires !MissingRecall(s, ctx, fetch)
    ensures ProcessIssue(s, ctx, env, page, fetch).effects[0] == CallApi(Sdk.FetchIssue(
      FixedToken, Arg(s, ctx, fetch, 1), Arg(s, ctx, fetch, 2), At(ctx.args, 3), page.GetOr(FirstPage)))
    ensures env.issues.Listed? ==>
      && ProcessIssue(s, ctx, env, page, fetch).effects[1..] == Listings(ctx, env.issues.urls)
      && GetPreviousCommand(ProcessIssue(s, ctx, env, page, fetch).store, ctx.sender)
         == Some(IssueRecord(Arg(s, ctx, fetch, 1), Arg(s, ctx, fetch, 2)))
    ensures env.issues.Failed? ==>
      ProcessIssue(s, ctx, env, page, fetch)
      == Step(s, [ProcessIssue(s, ctx, env, page, fetch).effects[0], TellError(ctx, env.issues.error)], None)
  {
    if env.issues.Listed? {
      PersistenceLaws.PreviousCommandRoundTrip(s, IssueRecord(Arg(s, ctx, fetch, 1), Arg(s, ctx, fetch, 2)), ctx.sender);
    }
  }

  // ---------------------------------------------------------------------------
  // create and help
  // ---------------------------------------------------------------------------

  /** `create` opens, for the sender, a write view with an empty title and
      the issue template as description when the client sent a trigger id,
      and does nothing otherwise. */
  lemma CreateOpensWriteView(s: Store, ctx: Context)
    ensures ProcessCreateIssue(s, ctx).store == s
    ensures Truthy(ctx.triggerId) ==>
      && |ProcessCreateIssue(s, ctx).effects| == 1
      && ProcessCreateIssue(s, ctx).effects[0].OpenModal?
      && ProcessCreateIssue(s, ctx).effects[0].triggerId == ctx.triggerId.value
      && ProcessCreateIssue(s, ctx).effects[0].user == ctx.sender
      && IssueModal.BuildModal(ProcessCreateIssue(s, ctx).effects[0].request).title == IssueModal.WriteTitle
      && IssueModal.BuildModal(ProcessCreateIssue(s, ctx).effects[0].request).blocks[0].initial == ""
      && IssueModal.BuildModal(ProcessCreateIssue(s, ctx).effects[0].request).blocks[2].initial == IssueModal.Template
    ensures !Truthy(ctx.triggerId) ==> ProcessCreateIssue(s, ctx).effects == []
  {
    if Truthy(ctx.triggerId) {
      IssueModal.WriteViewInputs("modalid", IssueModal.IssueContent("", ""));
    }
  }

  /** `help` sends the command reference to the sender only. */
  lemma HelpOnlyNotifies(s: Store, ctx: Context)
    ensures ProcessHelp(s, ctx).store == s
    ensures |ProcessHelp(s, ctx).effects| == 1 && ProcessHelp(s, ctx).effects[0].NotifyUser?
    ensures ProcessHelp(s, ctx).effects[0].notice.recipient == ctx.sender
    ensures ProcessHelp(s, ctx).effects[0].notice.senderId == BotUserId
  {
  }

  // ---------------------------------------------------------------------------
  // Replay
  // ---------------------------------------------------------------------------

  /** A replay with nothing stored announces `undefined` and then throws. */
  lemma ReplayWithoutCommandThrows(s: Store, ctx: Context, env: Env)
    requires GetPreviousCommand(s, ctx.sender).None?
    ensures ProcessPreviousCommand(s, ctx, env) == Step(s,
      [Tell(ctx, "Re-executing command undefined for " + Render(At(ctx.args, 1)) + ".")],
      Some(NoPreviousCommand))
  {
    var page := Render(At(ctx.args, 1));
    assert ReplayNotice(None, At(ctx.args, 1)) == "Re-executing command undefined for " + page + "." by {
      assert "Re-executing command " + "undefined" + " for " == "Re-executing command undefined for ";
    }
  }

  /** A replay announces the stored command and the page, then dispatches the
      stored command's name in replay mode with the page given to the replay;
      the arguments it was typed with play no part but the page. */
  lemma ReplayRedispatches(s: Store, ctx: Context, env: Env, c: Command)
    requires GetPreviousCommand(s, ctx.sender).Some?
    requires Part(GetPreviousCommand(s, ctx.sender).value, 0) == Some(Name(c)) && c != NextPage
    ensures var r := Route(c, s, ctx, env, At(ctx.args, 1), Previous);
      ProcessPreviousCommand(s, ctx, env)
      == Step(r.store, [Tell(ctx, ReplayNotice(GetPreviousCommand(s, ctx.sender), At(ctx.args, 1)))] + r.effects, r.fault)
  {
    ParseName(c);
  }

  /** A replay of a stored `user` command lists the stored user again. */
  lemma ReplayUser(s: Store, ctx: Context, env: Env, name: Option<string>)
    requires GetPreviousCommand(s, ctx.sender) == Some(UserRecord(name))
    ensures ProcessPreviousCommand(s, ctx, env).fault.None?
    ensures |ProcessPreviousCommand(s, ctx, env).effects| > 1
         && ProcessPreviousCommand(s, ctx, env).effects[1] == CallApi(Sdk.Http(Sdk.GetRepos(name)))
  {
    ReplayRedispatches(s, ctx, env, UserRepos);
    var r := ProcessUser(s, ctx, env, Previous);
    assert Route(UserRepos, s, ctx, env, At(ctx.args, 1), Previous) == r;
    assert Arg(s, ctx, Previous, 1) == name;
    UserListingOutcome(s, ctx, env, Previous);
    assert ProcessPreviousCommand(s, ctx, env).effects[1] == r.effects[0];
  }

  /** A replay of a stored `issue` command fetches the stored repository's
      issues for the page given to the replay, `'1'` when none is given. */
  lemma ReplayIssue(s: Store, ctx: Context, env: Env, owner: Option<string>, repo: Option<string>)
    requires GetPreviousCommand(s, ctx.sender) == Some(IssueRecord(owner, repo))
    ensures ProcessPreviousCommand(s, ctx, env).fault.None?
    ensures |ProcessPreviousCommand(s, ctx, env).effects| > 1
         && ProcessPreviousCommand(s, ctx, env).effects[1]
         == CallApi(Sdk.FetchIssue(FixedToken, owner, repo, At(ctx.args, 3), At(ctx.args, 1).GetOr(FirstPage)))
  {
    ReplayRedispatches(s, ctx, env, Issue);
    var r := ProcessIssue(s, ctx, env, At(ctx.args, 1), Previous);
    assert Route(Issue, s, ctx, env, At(ctx.args, 1), Previous) == r;
    assert Arg(s, ctx, Previous, 1) == owner && Arg(s, ctx, Previous, 2) == repo;
    IssueListingOutcome(s, ctx, env, At(ctx.args, 1), Previous);
    assert ProcessPreviousCommand(s, ctx, env).effects[1] == r.effects[0];
  }

  /** A successful replay stores the command it replayed: the stored command
      stays what it was. */
  lemma ReplayKeepsStoredCommand(s: Store, ctx: Context, env: Env)
    requires GetPreviousCommand(s, ctx.sender).Some? && Canonical(GetPreviousCommand(s, ctx.sender).value)
    requires env.issues.Listed? && env.repoListing.Listed? && Sdk.IsSuccessStatus(env.reposResponse.statusCode)
    ensures GetPreviousCommand(ProcessPreviousCommand(s, ctx, env).store, ctx.sender) == GetPreviousCommand(s, ctx.sender)
  {
    var c := GetPreviousCommand(s, ctx.sender).value;
    if |c| == 2 {
      assert c == UserRecord(Arg(s, ctx, Previous, 1));
      ReplayRedispatches(s, ctx, env, UserRepos);
      UserListingOutcome(s, ctx, env, Previous);
    } else {
      assert c == IssueRecord(Arg(s, ctx, Previous, 1), Arg(s, ctx, Previous, 2));
      ReplayRedispatches(s, ctx, env, Issue);
      IssueListingOutcome(s, ctx, env, At(ctx.args, 1), Previous);
    }
  }

  /** `/github issue RocketChat Rocket.Chat` followed by `/github / 2`: the
      replay fetches page 2 of the same repository's issues. */
  lemma IssueThenNextPage(s: Store, sender: User, room: Room, env: Env)
    requires env.issues.Listed?
    ensures var first := Execute(s, Context(sender, room, [Name(Issue), "RocketChat", "Rocket.Chat"], None), env);
      && GetPreviousCommand(first.store, sender) == Some(IssueRecord(Some("RocketChat"), Some("Rocket.Chat")))
      && |Execute(first.store, Context(sender, room, [Name(NextPage), "2"], None), env).effects| > 1
      && Execute(first.store, Context(sender, room, [Name(NextPage), "2"], None), env).effects[1]
         == CallApi(Sdk.FetchIssue(FixedToken, Some("RocketChat"), Some("Rocket.Chat"), None, "2"))
  {
    var ctx := Context(sender, room, [Name(Issue), "RocketChat", "Rocket.Chat"], None);
    TypedCommandRuns(s, ctx, env, Issue);
    var first := ProcessIssue(s, ctx, env, Some(FirstPage), New);
    assert Execute(s, ctx, env) == first;
    assert Arg(s, ctx, New, 1) == Some("RocketChat") && Arg(s, ctx, New, 2) == Some("Rocket.Chat");
    IssueListingOutcome(s, ctx, env, Some(FirstPage), New);
    var s1 := first.store;
    var replay := Context(sender, room, [Name(NextPage), "2"], None);
    NextPageReplays(s1, replay, env);
    assert At(replay.args, 1) == Some("2") && At(replay.args, 3) == None;
    ReplayIssue(s1, replay, env, Some("RocketChat"), Some("Rocket.Chat"));
  }

  // ---------------------------------------------------------------------------
  // What an invocation may write
  // ---------------------------------------------------------------------------

  /** The one write an invocation may make: none, a link of a repository to
      the invocation's room, the sender's token, or the sender's stored
      command. */
  datatype Write = NoWrite | LinkWrite(repoName: string) | TokenWrite(token: string) | CommandWrite(command: seq<Option<string>>)

  function Apply(s: Store, ctx: Context, w: Write): Store {
    match w
    case NoWrite => s
    case LinkWrite(name) => ConnectRepoToRoom(s, name, ctx.room)
    case TokenWrite(t) => SetUserAccessToken(s, t, ctx.sender)
    case CommandWrite(c) => StorePreviousCommand(s, c, ctx.sender)
  }

  /** Only listing commands are ever stored. */
  predicate Allowed(w: Write) {
    w.CommandWrite? ==> Canonical(w.command)
  }

  /** Every handler makes at most one allowed write. */
  lemma RouteWrites(c: Command, s: Store, ctx: Context, env: Env, page: Option<string>, fetch: FetchMode)
    returns (w: Write)
    requires c != NextPage
    ensures Allowed(w) && Route(c, s, ctx, env, page, fetch).store == Apply(s, ctx, w)
    ensures w.LinkWrite? ==> c == Connect
    ensures w.TokenWrite? ==> c == SetToken
    ensures w.CommandWrite? ==> c == UserRepos || c == Issue
  {
    var r := Route(c, s, ctx, env, page, fetch);
    w := NoWrite;
    match c
    case Connect =>
      if r.store != s {
        w := LinkWrite(Sdk.GetRepoName(ctx.args[1]));
      }
    case SetToken =>
      if Truthy(At(ctx.args, 1)) {
        w := TokenWrite(ctx.args[1]);
      }
    case UserRepos =>
      if r.store != s {
        w := CommandWrite(UserRecord(Arg(s, ctx, fetch, 1)));
      }
    case Issue =>
      if r.store != s {
        w := CommandWrite(IssueRecord(Arg(s, ctx, fetch, 1), Arg(s, ctx, fetch, 2)));
      }
    case Help =>
    case Create =>
  }

  /** A replay writes what the handler it dispatches to writes. */
  lemma ReplayWrites(s: Store, ctx: Context, env: Env) returns (w: Write)
    ensures Allowed(w) && ProcessPreviousCommand(s, ctx, env).store == Apply(s, ctx, w)
  {
    w := NoWrite;
    var stored := GetPreviousCommand(s, ctx.sender);
    if stored.Some? {
      var c := ParseCommand(Part(stored.value, 0));
      if c.Some? && c.value != NextPage {
        ReplayRedispatches(s, ctx, env, c.value);
        w := RouteWrites(c.value, s, ctx, env, At(ctx.args, 1), Previous);
      }
    }
  }

  /** Every invocation makes at most one allowed write. */
  lemma ExecuteWrites(s: Store, ctx: Context, env: Env) returns (w: Write)
    ensures Allowed(w) && Execute(s, ctx, env).store == Apply(s, ctx, w)
  {
    w := NoWrite;
    var c := ParseCommand(At(ctx.args, 0));
    if c == Some(NextPage) {
      NextPageReplays(s, ctx, env);
      w := ReplayWrites(s, ctx, env);
    } else if c.Some? {
      TypedCommandRuns(s, ctx, env, c.value);
      w := RouteWrites(c.value, s, ctx, env, Some(FirstPage), New);
    }
  }

  /** The slot a write puts its value in. */
  function WrittenKey(ctx: Context, w: Write): Key
    requires !w.NoWrite?
  {
    match w
    case LinkWrite(name) => RepoLink(name)
    case TokenWrite(_) => AccessToken(ctx.sender.id)
    case CommandWrite(_) => PreviousCommand(ctx.sender.id)
  }

  /** A write keeps the store well-formed. */
  lemma ApplyPreservesValid(s: Store, ctx: Context, w: Write)
    requires Valid(s)
    ensures Valid(Apply(s, ctx, w))
  {
    match w
    case NoWrite =>
    case LinkWrite(name) => PutPreservesValid(s, RepoLink(name), LinkValue(name, ctx.room.id));
    case TokenWrite(t) => PutPreservesValid(s, AccessToken(ctx.sender.id), TokenValue(t));
    case CommandWrite(c) => PutPreservesValid(s, PreviousCommand(ctx.sender.id), CommandValue(c));
  }

  /** A write changes no slot but its own. */
  lemma ApplyFrame(s: Store, ctx: Context, w: Write, k: Key)
    requires Valid(s) && (w.NoWrite? || k != WrittenKey(ctx, w))
    ensures Lookup(Apply(s, ctx, w), k) == Lookup(s, k)
  {
    match w
    case NoWrite =>
    case LinkWrite(name) => PutFrame(s, RepoLink(name), LinkValue(name, ctx.room.id), k);
    case TokenWrite(t) => PutFrame(s, AccessToken(ctx.sender.id), TokenValue(t), k);
    case CommandWrite(c) => PutFrame(s, PreviousCommand(ctx.sender.id), CommandValue(c), k);
  }

  /** Every invocation keeps the store well-formed. */
  lemma ExecutePreservesValid(s: Store, ctx: Context, env: Env)
    requires Valid(s)
    ensures Valid(Execute(s, ctx, env).store)
  {
    var w := ExecuteWrites(s, ctx, env);
    ApplyPreservesValid(s, ctx, w);
  }

  /** An invocation by one user changes nothing another user reads, and never
      changes the selected user the webhook reads. */
  lemma ExecuteIsolatesUsers(s: Store, ctx: Context, env: Env, u: User)
    requires Valid(s) && u.id != ctx.sender.id
    ensures GetUserAccessToken(Execute(s, ctx, env).store, u) == GetUserAccessToken(s, u)
    ensures GetPreviousCommand(Execute(s, ctx, env).store, u) == GetPreviousCommand(s, u)
    ensures GetSubscribedEventsForWebhook(Execute(s, ctx, env).store, u) == GetSubscribedEventsForWebhook(s, u)
    ensures GetRoom(Execute(s, ctx, env).store, u) == GetRoom(s, u)
    ensures GetUser(Execute(s, ctx, env).store) == GetUser(s)
  {
    var w := ExecuteWrites(s, ctx, env);
    var s' := Apply(s, ctx, w);
    assert Lookup(s', AccessToken(u.id)) == Lookup(s, AccessToken(u.id)) by {
      ApplyFrame(s, ctx, w, AccessToken(u.id));
    }
    assert Lookup(s', PreviousCommand(u.id)) == Lookup(s, PreviousCommand(u.id)) by {
      ApplyFrame(s, ctx, w, PreviousCommand(u.id));
    }
    assert Lookup(s', SubscribedEvents(u.id)) == Lookup(s, SubscribedEvents(u.id)) by {
      ApplyFrame(s, ctx, w, SubscribedEvents(u.id));
    }
    assert Lookup(s', SelectedRoom(u.id)) == Lookup(s, SelectedRoom(u.id)) by {
      ApplyFrame(s, ctx, w, SelectedRoom(u.id));
    }
    assert Lookup(s', SelectedUser) == Lookup(s, SelectedUser) by {
      ApplyFrame(s, ctx, w, SelectedUser);
    }
  }

  /** `connect`, `set-token`, `help` and `create` never touch a stored command. */
  lemma OtherCommandsKeepStoredCommands(s: Store, ctx: Context, env: Env, c: Command, u: User)
    requires Valid(s) && c in {Connect, SetToken, Help, Create}
    requires At(ctx.args, 0) == Some(Name(c))
    ensures GetPreviousCommand(Execute(s, ctx, env).store, u) == GetPreviousCommand(s, u)
  {
    TypedCommandRuns(s, ctx, env, c);
    var w := RouteWrites(c, s, ctx, env, Some(FirstPage), New);
    ApplyFrame(s, ctx, w, PreviousCommand(u.id));
  }

  /** After an allowed write each user's stored command is the one stored
      before, or the canonical one the sender just stored. */
  lemma ApplyStoredCommand(s: Store, ctx: Context, w: Write, u: User)
    requires Valid(s) && Allowed(w)
    ensures GetPreviousCommand(Apply(s, ctx, w), u) == GetPreviousCommand(s, u)
         || (GetPreviousCommand(Apply(s, ctx, w), u).Some? && Canonical(GetPreviousCommand(Apply(s, ctx, w), u).value))
  {
    if w.CommandWrite? && u.id == ctx.sender.id {
      PersistenceLaws.PreviousCommandRoundTrip(s, w.command, ctx.sender);
    } else {
      ApplyFrame(s, ctx, w, PreviousCommand(u.id));
    }
  }

  lemma ApplyKeepsCommandsCanonical(s: Store, ctx: Context, w: Write)
    requires Valid(s) && CommandsCanonical(s) && Allowed(w)
    ensures CommandsCanonical(Apply(s, ctx, w))
  {
    forall u | GetPreviousCommand(Apply(s, ctx, w), u).Some?
      ensures Canonical(GetPreviousCommand(Apply(s, ctx, w), u).value)
    {
      ApplyStoredCommand(s, ctx, w, u);
    }
  }

  /** Stored commands stay ones the listing handlers write. */
  lemma ExecuteKeepsCommandsCanonical(s: Store, ctx: Context, env: Env)
    requires Valid(s) && CommandsCanonical(s)
    ensures CommandsCanonical(Execute(s, ctx, env).store)
  {
    var w := ExecuteWrites(s, ctx, env);
    ApplyKeepsCommandsCanonical(s, ctx, w);
  }

  /** So in a store built by invocations alone a replay never finds another
      replay to run. */
  lemma CanonicalReplayNeverLoops(s: Store, ctx: Context, env: Env)
    requires CommandsCanonical(s)
    ensures Execute(s, ctx, env).fault != Some(ReplayLoops)
  {
    if At(ctx.args, 0) == Some(Name(NextPage)) {
      NextPageReplays(s, ctx, env);
      var stored := GetPreviousCommand(s, ctx.sender);
      if stored.Some? {
        var c := stored.value;
        assert Canonical(c);
        var k := if |c| == 2 then UserRepos else Issue;
        assert Part(c, 0) == Some(Name(k));
        ReplayRedispatches(s, ctx, env, k);
      }
    } else {
      OnlyReplayThrows(s, ctx, env);
    }
  }

  // ---------------------------------------------------------------------------
  // Runs of invocations and the webhook
  // ---------------------------------------------------------------------------

  /** The store after a run of `/github` invocations, in order. Each step pairs
      an invocation with the answers GitHub and the host give it, so the
      answers may differ from one invocation to the next. */
  function Run(s: Store, steps: seq<(Context, Env)>): Store
    decreases |steps|
  {
    if |steps| == 0 then s else Run(Execute(s, steps[0].0, steps[0].1).store, steps[1..])
  }

  /** No invocation writes the selected user. */
  lemma ExecuteKeepsSelectedUser(s: Store, ctx: Context, env: Env)
    requires Valid(s)
    ensures GetUser(Execute(s, ctx, env).store) == GetUser(s)
  {
    var w := ExecuteWrites(s, ctx, env);
    ApplyFrame(s, ctx, w, SelectedUser);
  }

  /** A run of invocations keeps the store well-formed and leaves the selected
      user as it found it, whatever each invocation is answered. */
  lemma {:induction false} RunKeepsSelectedUser(s: Store, steps: seq<(Context, Env)>)
    requires Valid(s)
    ensures Valid(Run(s, steps))
    ensures GetUser(Run(s, steps)) == GetUser(s)
    decreases |steps|
  {
    if |steps| > 0 {
      ExecutePreservesValid(s, steps[0].0, steps[0].1);
      ExecuteKeepsSelectedUser(s, steps[0].0, steps[0].1);
      RunKeepsSelectedUser(Execute(s, steps[0].0, steps[0].1).store, steps[1..]);
    }
  }

  /** Nothing the `/github` command does selects a user, so in a store built
      from nothing by invocations alone every webhook delivery fails. */
  lemma CommandsAloneLeaveWebhookFailing(steps: seq<(Context, Env)>, rooms: map<string, Room>, request: Webhook.Request)
    ensures Webhook.Post(Run([], steps), rooms, request) == Webhook.Threw(Webhook.NoSelectedUser)
  {
    RunKeepsSelectedUser([], steps);
  }
}
