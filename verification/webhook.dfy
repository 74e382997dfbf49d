/** `WebhookEndpoint.post`: a GitHub delivery is turned into at most one chat
    message in the room the repository is connected to. Every path that does
    not throw answers with success. */
module Webhook {
  import opened Js
  import opened Chat
  import opened Persistence
  import PersistenceLaws

  const FormContentType := "application/x-www-form-urlencoded"
  const BotAlias := "git-bot"

  datatype Repository = Repository(fullName: string, htmlUrl: string)

  /** The account that triggered the event. */
  datatype Account = Account(login: string, avatarUrl: string)

  /** An issue, with the web address of its author. */
  datatype Issue = Issue(htmlUrl: string, userHtmlUrl: string)

  /** A parsed delivery; an object GitHub left out is `None`. */
  datatype Payload = Payload(repository: Option<Repository>, sender: Option<Account>, issue: Option<Issue>)

  /** An incoming request: the `x-github-event` and `content-type` headers,
      the body, and the result of parsing its `payload` field as JSON (`None`
      when that field is not valid JSON). */
  datatype Request = Request(
    event: Option<string>,
    contentType: Option<string>,
    body: Payload,
    formPayload: Option<Payload>)

  /** Errors the handler does not catch. */
  datatype Fault =
    | NoSelectedUser      // the selected user is `undefined`, so reading its id throws
    | MalformedPayload    // `JSON.parse` of the form field throws
    | MissingField        // a property of a missing payload object is read

  datatype Outcome = Success(message: Option<Message>) | Threw(fault: Fault)

  /** `result?.includes(event)`: membership for a list of events, substring for
      a single string, in which case an absent header is looked for as the
      text `undefined`. Nothing stored includes nothing. */
  predicate Includes(subscription: Option<Subscription>, event: Option<string>) {
    match subscription
    case None => false
    case Some(EventList(events)) => event.Some? && event.value in events
    case Some(EventText(text)) => Contains(text, Render(event))
  }

  /** Where the payload comes from: the form field for form deliveries, the body otherwise. */
  function PayloadOf(request: Request): (p: Option<Payload>)
    ensures request.contentType != Some(FormContentType) ==> p == Some(request.body)
    ensures request.contentType == Some(FormContentType) ==> p == request.formPayload
  {
    if request.contentType == Some(FormContentType) then request.formPayload else Some(request.body)
  }

  /** The pieces of an announcement: the actor linked to the issue author's
      page, the verb, the issue address and the linked repository, on three
      lines, the later two indented as in the handler's source text. */
  function IssueTextParts(verb: string, indent: nat, sender: Account, issue: Issue, repo: Repository): seq<string> {
    [ "[", sender.login, "](", issue.userHtmlUrl, ") ", verb, " \n",
      Spaces(indent), issue.htmlUrl, " \n",
      Spaces(indent), "in repository [", repo.fullName, "](", repo.htmlUrl, ")" ]
  }

  function IssueText(verb: string, indent: nat, sender: Account, issue: Issue, repo: Repository): string {
    Concat(IssueTextParts(verb, indent, sender, issue, repo))
  }

  function Spaces(n: nat): (s: string)
    ensures |s| == n && forall i :: 0 <= i < n ==> s[i] == ' '
  {
    if n == 0 then "" else Spaces(n - 1) + " "
  }

  /** `post(request, ...)`: `rooms` resolves room ids to rooms. */
  function Post(s: Store, rooms: map<string, Room>, request: Request): (out: Outcome)
    ensures GetUser(s).None? ==> out == Threw(NoSelectedUser)
    ensures out.Success? && out.message.Some? ==>
      && Announced(request.event)
      && out.message.value.room in rooms.Values
      && out.message.value.alias == Some(BotAlias)
      && out.message.value.sender.None?
  {
    match GetUser(s)
    case None => Threw(NoSelectedUser)
    case Some(user) =>
      if !Includes(GetSubscribedEventsForWebhook(s, user), request.event) then Success(None)
      else match PayloadOf(request)
      case None => Threw(MalformedPayload)
      case Some(p) =>
        if p.repository.None? then Threw(MissingField)
        else
          var roomId := GetConnectedRoomId(s, p.repository.value.fullName);
          if !Truthy(roomId) then Success(None)
          else if roomId.value !in rooms then Success(None)
          else Dispatch(request.event, rooms[roomId.value], p)
  }

  /** The event kinds that produce a message. */
  predicate Announced(event: Option<string>) {
    event == Some("issue") || event == Some("issue_comment")
  }

  /** The event switch: issues and issue comments are announced, anything else is not. */
  function Dispatch(event: Option<string>, room: Room, p: Payload): (out: Outcome)
    requires p.repository.Some?
    ensures out.Success? && out.message.Some? ==>
      Announced(event) && out.message.value.room == room && out.message.value.alias == Some(BotAlias)
    ensures !Announced(event) ==> out == Success(None)
  {
    if event == Some("issue") || event == Some("issue_comment") then
      if p.sender.None? || p.issue.None? then Threw(MissingField)
      else
        var text := if event == Some("issue")
          then IssueText("created issue", 16, p.sender.value, p.issue.value, p.repository.value)
          else IssueText("commented", 20, p.sender.value, p.issue.value, p.repository.value);
        Success(Some(Message(room, None, Some(p.sender.value.avatarUrl), Some(BotAlias), text)))
    else Success(None)
  }

  // ---------------------------------------------------------------------------
  // Properties
  // ---------------------------------------------------------------------------

  /** The announcement names the actor, the issue and the repository, each with its link. */
  lemma IssueTextMentions(verb: string, indent: nat, sender: Account, issue: Issue, repo: Repository)
    ensures Contains(IssueText(verb, indent, sender, issue, repo), sender.login)
    ensures Contains(IssueText(verb, indent, sender, issue, repo), issue.userHtmlUrl)
    ensures Contains(IssueText(verb, indent, sender, issue, repo), verb)
    ensures Contains(IssueText(verb, indent, sender, issue, repo), issue.htmlUrl)
    ensures Contains(IssueText(verb, indent, sender, issue, repo), repo.fullName)
    ensures Contains(IssueText(verb, indent, sender, issue, repo), repo.htmlUrl)
  {
    var parts := IssueTextParts(verb, indent, sender, issue, repo);
    ContainsPart(parts, 1);
    ContainsPart(parts, 3);
    ContainsPart(parts, 5);
    ContainsPart(parts, 8);
    ContainsPart(parts, 12);
    ContainsPart(parts, 14);
  }

  /** Without a selected user the handler throws before looking at the request. */
  lemma NoSelectedUserThrows(s: Store, rooms: map<string, Room>, request: Request)
    requires GetUser(s).None?
    ensures Post(s, rooms, request) == Threw(NoSelectedUser)
  {
  }

  /** An event the selected user is not subscribed to is acknowledged and ignored. */
  lemma UnsubscribedIsIgnored(s: Store, rooms: map<string, Room>, request: Request, user: User)
    requires GetUser(s) == Some(user)
    requires !Includes(GetSubscribedEventsForWebhook(s, user), request.event)
    ensures Post(s, rooms, request) == Success(None)
  {
  }

  /** A form delivery whose `payload` field is not JSON throws: the failure is not caught. */
  lemma MalformedFormPayloadThrows(s: Store, rooms: map<string, Room>, request: Request, user: User)
    requires GetUser(s) == Some(user)
    requires Includes(GetSubscribedEventsForWebhook(s, user), request.event)
    requires request.contentType == Some(FormContentType) && request.formPayload.None?
    ensures Post(s, rooms, request) == Threw(MalformedPayload)
  {
  }

  /** A repository connected to no room, or to a room that does not resolve,
      is acknowledged and ignored. */
  lemma UnroutedIsIgnored(s: Store, rooms: map<string, Room>, request: Request, p: Payload)
    requires GetUser(s).Some? && PayloadOf(request) == Some(p) && p.repository.Some?
    requires !Truthy(GetConnectedRoomId(s, p.repository.value.fullName))
          || GetConnectedRoomId(s, p.repository.value.fullName).value !in rooms
    ensures Post(s, rooms, request) == Success(None)
  {
  }

  /** An event kind other than `issue` and `issue_comment` never yields a message. */
  lemma OtherEventsAreSilent(s: Store, rooms: map<string, Room>, request: Request)
    requires !Announced(request.event)
    ensures Post(s, rooms, request).Success? ==> Post(s, rooms, request).message.None?
  {
  }

  /** A subscribed `issue` or `issue_comment` delivery for a connected
      repository posts one message into the connected room, under the bot
      alias, with the actor's avatar, naming actor, issue and repository. */
  lemma IssueEventAnnounced(s: Store, rooms: map<string, Room>, request: Request, user: User, p: Payload)
    requires GetUser(s) == Some(user)
    requires Includes(GetSubscribedEventsForWebhook(s, user), request.event)
    requires Announced(request.event)
    requires PayloadOf(request) == Some(p) && p.repository.Some? && p.sender.Some? && p.issue.Some?
    requires Truthy(GetConnectedRoomId(s, p.repository.value.fullName))
    requires GetConnectedRoomId(s, p.repository.value.fullName).value in rooms
    ensures Post(s, rooms, request).Success? && Post(s, rooms, request).message.Some?
    ensures Post(s, rooms, request).message.value.room == rooms[GetConnectedRoomId(s, p.repository.value.fullName).value]
    ensures Post(s, rooms, request).message.value.avatarUrl == Some(p.sender.value.avatarUrl)
    ensures Contains(Post(s, rooms, request).message.value.text,
                     if request.event == Some("issue") then "created issue" else "commented")
    ensures Contains(Post(s, rooms, request).message.value.text, p.sender.value.login)
    ensures Contains(Post(s, rooms, request).message.value.text, p.issue.value.htmlUrl)
    ensures Contains(Post(s, rooms, request).message.value.text, p.repository.value.fullName)
    ensures Contains(Post(s, rooms, request).message.value.text, p.repository.value.htmlUrl)
  {
    var verb := if request.event == Some("issue") then "created issue" else "commented";
    var indent := if request.event == Some("issue") then 16 else 20;
    IssueTextMentions(verb, indent, p.sender.value, p.issue.value, p.repository.value);
  }

  /** Connecting a repository from a room routes its subscribed issue events
      into that room. */
  lemma ConnectedRepositoryIsRouted(s: Store, rooms: map<string, Room>, repoName: string, room: Room,
                                    request: Request, user: User, p: Payload)
    requires Valid(s) && GetConnectedRoomId(s, repoName).None?
    requires room.id != "" && room.id in rooms && rooms[room.id] == room
    requires GetUser(s) == Some(user)
    requires Includes(GetSubscribedEventsForWebhook(s, user), request.event) && Announced(request.event)
    requires PayloadOf(request) == Some(p) && p.sender.Some? && p.issue.Some?
    requires p.repository.Some? && p.repository.value.fullName == repoName
    ensures Post(ConnectRepoToRoom(s, repoName, room), rooms, request).Success?
    ensures Post(ConnectRepoToRoom(s, repoName, room), rooms, request).message.Some?
    ensures Post(ConnectRepoToRoom(s, repoName, room), rooms, request).message.value.room == room
  {
    var s1 := ConnectRepoToRoom(s, repoName, room);
    assert GetConnectedRoomId(s1, repoName) == Some(room.id) by {
      PersistenceLaws.ConnectRepoToRoomLookup(s, repoName, room);
    }
    assert GetUser(s1) == Some(user) by {
      PutFrame(s, RepoLink(repoName), LinkValue(repoName, room.id), SelectedUser);
    }
    assert GetSubscribedEventsForWebhook(s1, user) == GetSubscribedEventsForWebhook(s, user) by {
      PutFrame(s, RepoLink(repoName), LinkValue(repoName, room.id), SubscribedEvents(user.id));
    }
    IssueEventAnnounced(s1, rooms, request, user, p);
  }
}
