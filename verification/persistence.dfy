/** `AppPersistence`: the plugin's records over the host association store.
    Every record kind is told apart by one MISC tag; per-user kinds also carry
    the user's id, and a repository link also carries its room's id. */
module Persistence {
  import opened Js
  import opened Chat
  import AS = AssociationStore

  type Association = AS.Association

  const GithubKeyTag := "github-key"
  const CommandTag := "command"
  const EventsTag := "subs-events-list"
  const SetRoomTag := "set-room"
  const SetUserTag := "set-user"
  const RepoTagPrefix := "repo:"

  function RepoTag(repoName: string): string {
    RepoTagPrefix + repoName
  }

  predicate IsRepoTag(id: string) {
    StartsWith(id, RepoTagPrefix)
  }

  /** What may be stored as a subscription: a list of event names or a single string. */
  datatype Subscription = EventList(events: seq<string>) | EventText(text: string)

  /** The data object of each record kind. A stored command is an array whose
      elements may be `undefined`; a stored subscription may itself be `undefined`. */
  datatype Value =
    | LinkValue(repoName: string, room: string)
    | TokenValue(accessToken: string)
    | CommandValue(command: seq<Option<string>>)
    | EventsValue(subscription: Option<Subscription>)
    | RoomValue(selectedRoom: Room)
    | UserValue(selectedUser: User)

  type Store = AS.Store<Value>

  /** The slots the plugin reads: one per repository, five per user, one global. */
  datatype Key =
    | RepoLink(repo: string)
    | AccessToken(user: string)
    | PreviousCommand(user: string)
    | SubscribedEvents(user: string)
    | SelectedRoom(user: string)
    | SelectedUser

  function MiscId(k: Key): string {
    match k
    case RepoLink(repo) => RepoTag(repo)
    case AccessToken(_) => GithubKeyTag
    case PreviousCommand(_) => CommandTag
    case SubscribedEvents(_) => EventsTag
    case SelectedRoom(_) => SetRoomTag
    case SelectedUser => SetUserTag
  }

  function MiscAssociation(id: string): Association {
    AS.Association(AS.MiscModel, id)
  }

  function UserAssociation(userId: string): Association {
    AS.Association(AS.UserModel, userId)
  }

  function RoomAssociation(roomId: string): Association {
    AS.Association(AS.RoomModel, roomId)
  }

  /** The tags a slot is read under. */
  function ReadTags(k: Key): set<Association> {
    {MiscAssociation(MiscId(k))} +
    (if k.RepoLink? || k.SelectedUser? then {} else {UserAssociation(k.user)})
  }

  /** Tags written beyond the read tags: a link is also tagged with its room. */
  function ExtraTags(v: Value): set<Association> {
    if v.LinkValue? then {RoomAssociation(v.room)} else {}
  }

  function WriteTags(k: Key, v: Value): set<Association> {
    ReadTags(k) + ExtraTags(v)
  }

  function Put(s: Store, k: Key, v: Value): Store {
    AS.Update(s, WriteTags(k, v), v)
  }

  function Lookup(s: Store, k: Key): Option<Value> {
    AS.First(s, ReadTags(k))
  }

  // ---------------------------------------------------------------------------
  // The AppPersistence operations
  // ---------------------------------------------------------------------------

  function ConnectRepoToRoom(s: Store, repoName: string, room: Room): Store {
    Put(s, RepoLink(repoName), LinkValue(repoName, room.id))
  }

  function GetConnectedRoomId(s: Store, repoName: string): Option<string> {
    match Lookup(s, RepoLink(repoName))
    case Some(LinkValue(_, roomId)) => Some(roomId)
    case _ => None
  }

  function SetUserAccessToken(s: Store, accessToken: string, user: User): Store {
    Put(s, AccessToken(user.id), TokenValue(accessToken))
  }

  function GetUserAccessToken(s: Store, user: User): Option<string> {
    match Lookup(s, AccessToken(user.id))
    case Some(TokenValue(t)) => Some(t)
    case _ => None
  }

  function StorePreviousCommand(s: Store, command: seq<Option<string>>, user: User): Store {
    Put(s, PreviousCommand(user.id), CommandValue(command))
  }

  function GetPreviousCommand(s: Store, user: User): Option<seq<Option<string>>> {
    match Lookup(s, PreviousCommand(user.id))
    case Some(CommandValue(c)) => Some(c)
    case _ => None
  }

  function StoreSubscribedEventsForWebhook(s: Store, value: Option<Subscription>, user: User): Store {
    Put(s, SubscribedEvents(user.id), EventsValue(value))
  }

  function GetSubscribedEventsForWebhook(s: Store, user: User): Option<Subscription> {
    match Lookup(s, SubscribedEvents(user.id))
    case Some(EventsValue(v)) => v
    case _ => None
  }

  function SetRoom(s: Store, room: Room, user: User): Store {
    Put(s, SelectedRoom(user.id), RoomValue(room))
  }

  function GetRoom(s: Store, user: User): Option<Room> {
    match Lookup(s, SelectedRoom(user.id))
    case Some(RoomValue(r)) => Some(r)
    case _ => None
  }

  function SetUser(s: Store, user: User): Store {
    Put(s, SelectedUser, UserValue(user))
  }

  function GetUser(s: Store): Option<User> {
    match Lookup(s, SelectedUser)
    case Some(UserValue(u)) => Some(u)
    case _ => None
  }

  // ---------------------------------------------------------------------------
  // Well-formed stores
  // ---------------------------------------------------------------------------

  predicate OneTagPerModel(tags: set<Association>) {
    forall a, b :: a in tags && b in tags && a.model == b.model ==> a == b
  }

  /** A record has at most one tag per scope; it is a link exactly when it
      carries a `repo:` tag, and a link carries its own room and repository. */
  predicate RecordValid(r: AS.Record<Value>) {
    && OneTagPerModel(r.tags)
    && (forall a :: a in r.tags && a.model == AS.MiscModel && IsRepoTag(a.id) ==> r.value.LinkValue?)
    && (r.value.LinkValue? ==>
          RoomAssociation(r.value.room) in r.tags && MiscAssociation(RepoTag(r.value.repoName)) in r.tags)
  }

  predicate Valid(s: Store) {
    forall i :: 0 <= i < |s| ==> RecordValid(s[i])
  }

  /** The value written to a slot is of the slot's kind. */
  predicate Fits(k: Key, v: Value) {
    && (k.RepoLink? <==> v.LinkValue?)
    && (k.RepoLink? ==> v.repoName == k.repo)
  }

  lemma RepoTagInjective(a: string, b: string)
    requires RepoTag(a) == RepoTag(b)
    ensures a == b
  {
    assert a == RepoTag(a)[|RepoTagPrefix|..];
    assert b == RepoTag(b)[|RepoTagPrefix|..];
  }

  lemma MiscIdIsRepoTag(k: Key)
    ensures IsRepoTag(MiscId(k)) <==> k.RepoLink?
  {
    if k.RepoLink? {
      assert MiscId(k)[..|RepoTagPrefix|] == RepoTagPrefix;
    } else {
      assert MiscId(k)[0] != RepoTagPrefix[0];
    }
  }

  lemma WriteTagsOnePerModel(k: Key, v: Value)
    ensures OneTagPerModel(WriteTags(k, v))
  {
  }

  /** Writing a value of the slot's kind keeps the store well-formed. */
  lemma PutPreservesValid(s: Store, k: Key, v: Value)
    requires Valid(s) && Fits(k, v)
    ensures Valid(Put(s, k, v))
  {
    var t := WriteTags(k, v);
    var s' := Put(s, k, v);
    AS.UpdateSpec(s, t, v);
    MiscIdIsRepoTag(k);
    forall i | 0 <= i < |s'|
      ensures RecordValid(s'[i])
    {
      if i < |s| && !AS.Matches(s[i], t) {
        assert s'[i] == s[i];
      } else {
        var tags := s'[i].tags;
        assert t <= tags;
        assert s'[i].value == v;
        assert OneTagPerModel(tags) by {
          if i < |s| {
            assert tags == s[i].tags;
          } else {
            WriteTagsOnePerModel(k, v);
          }
        }
        forall a | a in tags && a.model == AS.MiscModel && IsRepoTag(a.id)
          ensures v.LinkValue?
        {
          assert MiscAssociation(MiscId(k)) in tags;
        }
      }
    }
  }

  /** Two different slots differ in a tag of the same scope. */
  lemma KeysSeparated(k1: Key, k2: Key) returns (a: Association, b: Association)
    requires k1 != k2
    ensures a in ReadTags(k1) && b in ReadTags(k2) && a.model == b.model && a != b
  {
    a, b := MiscAssociation(MiscId(k1)), MiscAssociation(MiscId(k2));
    if MiscId(k1) == MiscId(k2) {
      MiscIdIsRepoTag(k1);
      MiscIdIsRepoTag(k2);
      if k1.RepoLink? {
        RepoTagInjective(k1.repo, k2.repo);
      } else {
        a, b := UserAssociation(k1.user), UserAssociation(k2.user);
      }
    }
  }

  /** Writing one slot leaves every other slot's reading unchanged. */
  lemma PutFrame(s: Store, k: Key, v: Value, other: Key)
    requires Valid(s) && k != other
    ensures Lookup(Put(s, k, v), other) == Lookup(s, other)
  {
    var a, b := KeysSeparated(k, other);
    var t, q := WriteTags(k, v), ReadTags(other);
    WriteTagsOnePerModel(k, v);
    forall i | 0 <= i < |s|
      ensures !(AS.Matches(s[i], t) && AS.Matches(s[i], q))
    {
      assert RecordValid(s[i]);
    }
    assert b !in t;
    AS.UpdateFrame(s, t, v, q);
  }

  /** Reading a slot right after writing it gives the written value. */
  lemma PutLookup(s: Store, k: Key, v: Value)
    requires !k.RepoLink? && Fits(k, v)
    ensures Lookup(Put(s, k, v), k) == Some(v)
  {
    assert WriteTags(k, v) == ReadTags(k);
    AS.ReadAfterUpdate(s, ReadTags(k), v);
  }

  /** In a well-formed store a repository's first link record is a link to it. */
  lemma LinkLookupShape(s: Store, repoName: string)
    requires Valid(s)
    ensures Lookup(s, RepoLink(repoName)).Some? ==>
      Lookup(s, RepoLink(repoName)).value.LinkValue? &&
      Lookup(s, RepoLink(repoName)).value.repoName == repoName
  {
    var q := ReadTags(RepoLink(repoName));
    var rs := AS.Read(s, q);
    AS.ReadSpec(s, q);
    if |rs| > 0 {
      assert rs[0] in rs;
      var i :| 0 <= i < |s| && s[i] == rs[0];
      assert RecordValid(s[i]);
      var tag := MiscAssociation(RepoTag(repoName));
      assert tag in rs[0].tags;
      assert IsRepoTag(tag.id) by {
        assert tag.id[..|RepoTagPrefix|] == RepoTagPrefix;
      }
      RepoTagInjective(rs[0].value.repoName, repoName);
    }
  }
}
