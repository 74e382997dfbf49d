/** What the `AppPersistence` operations promise to each other: every getter
    returns what its setter last wrote, every setter leaves all other slots
    alone, and a repository keeps the room it was first connected to. */
module PersistenceLaws {
  import opened Js
  import opened Chat
  import AS = AssociationStore
  import opened Persistence

  /** A setter changes its own slot and nothing else. */
  lemma PutOnlyChangesItsSlot(s: Store, k: Key, v: Value)
    requires Valid(s) && Fits(k, v)
    ensures Valid(Put(s, k, v))
    ensures forall other :: other != k ==> Lookup(Put(s, k, v), other) == Lookup(s, other)
  {
    PutPreservesValid(s, k, v);
    forall other | other != k
      ensures Lookup(Put(s, k, v), other) == Lookup(s, other)
    {
      PutFrame(s, k, v, other);
    }
  }

  lemma AccessTokenRoundTrip(s: Store, token: string, user: User)
    ensures GetUserAccessToken(SetUserAccessToken(s, token, user), user) == Some(token)
  {
    PutLookup(s, AccessToken(user.id), TokenValue(token));
  }

  /** Setting a token again replaces it in place: same tags, no new record. */
  lemma AccessTokenOverwrite(s: Store, t1: string, t2: string, user: User)
    ensures GetUserAccessToken(SetUserAccessToken(SetUserAccessToken(s, t1, user), t2, user), user) == Some(t2)
    ensures |SetUserAccessToken(SetUserAccessToken(s, t1, user), t2, user)| == |SetUserAccessToken(s, t1, user)|
  {
    var s1 := SetUserAccessToken(s, t1, user);
    assert GetUserAccessToken(SetUserAccessToken(s1, t2, user), user) == Some(t2) by {
      AccessTokenRoundTrip(s1, t2, user);
    }
    var k := AccessToken(user.id);
    assert WriteTags(k, TokenValue(t1)) == WriteTags(k, TokenValue(t2));
    assert |SetUserAccessToken(s1, t2, user)| == |s1| by {
      AS.UpdateTwiceKeepsSize(s, WriteTags(k, TokenValue(t1)), TokenValue(t1), TokenValue(t2));
    }
  }

  lemma PreviousCommandRoundTrip(s: Store, command: seq<Option<string>>, user: User)
    ensures GetPreviousCommand(StorePreviousCommand(s, command, user), user) == Some(command)
  {
    PutLookup(s, PreviousCommand(user.id), CommandValue(command));
  }

  /** The stored subscription is replaced wholesale, `undefined` included, and
      nothing is subscribed before anything was stored. */
  lemma SubscribedEventsRoundTrip(s: Store, value: Option<Subscription>, user: User)
    ensures GetSubscribedEventsForWebhook(StoreSubscribedEventsForWebhook(s, value, user), user) == value
    ensures GetSubscribedEventsForWebhook([], user) == None
  {
    PutLookup(s, SubscribedEvents(user.id), EventsValue(value));
  }

  lemma SelectedRoomRoundTrip(s: Store, room: Room, user: User)
    ensures GetRoom(SetRoom(s, room, user), user) == Some(room)
  {
    PutLookup(s, SelectedRoom(user.id), RoomValue(room));
  }

  /** The selected user is one global slot: the last user set is returned,
      whoever set the one before. */
  lemma SelectedUserIsGlobal(s: Store, u1: User, u2: User)
    ensures GetUser(SetUser(s, u1)) == Some(u1)
    ensures GetUser(SetUser(SetUser(s, u1), u2)) == Some(u2)
  {
    assert GetUser(SetUser(s, u1)) == Some(u1) by {
      PutLookup(s, SelectedUser, UserValue(u1));
    }
    var s1 := SetUser(s, u1);
    assert GetUser(SetUser(s1, u2)) == Some(u2) by {
      PutLookup(s1, SelectedUser, UserValue(u2));
    }
  }

  /** Writes for one user never change what another user reads, in any slot. */
  lemma PerUserIsolation(s: Store, u: User, w: User, token: string, command: seq<Option<string>>,
                         events: Option<Subscription>, room: Room)
    requires Valid(s) && u.id != w.id
    ensures GetUserAccessToken(SetUserAccessToken(s, token, u), w) == GetUserAccessToken(s, w)
    ensures GetPreviousCommand(StorePreviousCommand(s, command, u), w) == GetPreviousCommand(s, w)
    ensures GetSubscribedEventsForWebhook(StoreSubscribedEventsForWebhook(s, events, u), w)
         == GetSubscribedEventsForWebhook(s, w)
    ensures GetRoom(SetRoom(s, room, u), w) == GetRoom(s, w)
  {
    assert GetUserAccessToken(SetUserAccessToken(s, token, u), w) == GetUserAccessToken(s, w) by {
      PutFrame(s, AccessToken(u.id), TokenValue(token), AccessToken(w.id));
    }
    assert GetPreviousCommand(StorePreviousCommand(s, command, u), w) == GetPreviousCommand(s, w) by {
      PutFrame(s, PreviousCommand(u.id), CommandValue(command), PreviousCommand(w.id));
    }
    assert GetSubscribedEventsForWebhook(StoreSubscribedEventsForWebhook(s, events, u), w)
        == GetSubscribedEventsForWebhook(s, w) by {
      PutFrame(s, SubscribedEvents(u.id), EventsValue(events), SubscribedEvents(w.id));
    }
    assert GetRoom(SetRoom(s, room, u), w) == GetRoom(s, w) by {
      PutFrame(s, SelectedRoom(u.id), RoomValue(room), SelectedRoom(w.id));
    }
  }

  /** The MISC tags keep record kinds apart: storing a token, for instance,
      changes no command, subscription, selection or link. */
  lemma KindsAreSeparate(s: Store, token: string, user: User)
    requires Valid(s)
    ensures forall w :: GetPreviousCommand(SetUserAccessToken(s, token, user), w) == GetPreviousCommand(s, w)
    ensures forall w :: GetSubscribedEventsForWebhook(SetUserAccessToken(s, token, user), w)
                     == GetSubscribedEventsForWebhook(s, w)
    ensures forall w :: GetRoom(SetUserAccessToken(s, token, user), w) == GetRoom(s, w)
    ensures GetUser(SetUserAccessToken(s, token, user)) == GetUser(s)
    ensures forall r :: GetConnectedRoomId(SetUserAccessToken(s, token, user), r) == GetConnectedRoomId(s, r)
  {
    PutOnlyChangesItsSlot(s, AccessToken(user.id), TokenValue(token));
  }

  /** Connecting a repository: if it already has a link, the answer of
      `getConnectedRoomId` does not change; otherwise it becomes this room. */
  lemma ConnectRepoToRoomLookup(s: Store, repoName: string, room: Room)
    requires Valid(s)
    ensures Valid(ConnectRepoToRoom(s, repoName, room))
    ensures GetConnectedRoomId(ConnectRepoToRoom(s, repoName, room), repoName)
         == if GetConnectedRoomId(s, repoName).Some? then GetConnectedRoomId(s, repoName) else Some(room.id)
  {
    var k, v := RepoLink(repoName), LinkValue(repoName, room.id);
    assert Valid(ConnectRepoToRoom(s, repoName, room)) by {
      PutPreservesValid(s, k, v);
    }
    var q, t := ReadTags(k), WriteTags(k, v);
    var rs := AS.Read(s, q);
    assert Lookup(s, k) == if |rs| > 0 then Some(rs[0].value) else None;
    if |rs| == 0 {
      assert Lookup(ConnectRepoToRoom(s, repoName, room), k) == Some(v) by {
        AS.FirstAfterWiderUpdate(s, t, v, q);
      }
    } else {
      assert Lookup(ConnectRepoToRoom(s, repoName, room), k) == Some(rs[0].value) by {
        AS.FirstAfterWiderUpdate(s, t, v, q);
        if AS.Matches(rs[0], t) {
          MatchingLinkHoldsValue(s, repoName, room);
        }
      }
      assert rs[0].value.LinkValue? by {
        LinkLookupShape(s, repoName);
      }
    }
  }

  /** A link record that already carries the room being connected holds
      exactly the value the connection would write. */
  lemma MatchingLinkHoldsValue(s: Store, repoName: string, room: Room)
    requires Valid(s)
    requires |AS.Read(s, ReadTags(RepoLink(repoName)))| > 0
    requires AS.Matches(AS.Read(s, ReadTags(RepoLink(repoName)))[0],
                        WriteTags(RepoLink(repoName), LinkValue(repoName, room.id)))
    ensures AS.Read(s, ReadTags(RepoLink(repoName)))[0].value == LinkValue(repoName, room.id)
  {
    var rs := AS.Read(s, ReadTags(RepoLink(repoName)));
    AS.ReadSpec(s, ReadTags(RepoLink(repoName)));
    assert rs[0] in rs;
    var i :| 0 <= i < |s| && s[i] == rs[0];
    assert RecordValid(s[i]);
    LinkLookupShape(s, repoName);
    assert RoomAssociation(room.id) in rs[0].tags;
    assert RoomAssociation(rs[0].value.room) in rs[0].tags;
  }

  /** A single connection is found again. */
  lemma ConnectThenGetConnectedRoomId(repoName: string, room: Room)
    ensures GetConnectedRoomId(ConnectRepoToRoom([], repoName, room), repoName) == Some(room.id)
    ensures GetConnectedRoomId([], repoName) == None
  {
    ConnectRepoToRoomLookup([], repoName, room);
  }

  /** Connecting the same repository from a second room adds a second record
      and leaves the repository routed to the first room: the link is not
      last-write-wins. */
  lemma FirstConnectionWins(s: Store, repoName: string, first: Room, second: Room)
    requires Valid(s) && GetConnectedRoomId(s, repoName).None? && first.id != second.id
    ensures GetConnectedRoomId(ConnectRepoToRoom(ConnectRepoToRoom(s, repoName, first), repoName, second), repoName)
         == Some(first.id)
    ensures |ConnectRepoToRoom(ConnectRepoToRoom(s, repoName, first), repoName, second)|
         == |ConnectRepoToRoom(s, repoName, first)| + 1
  {
    var s1 := ConnectRepoToRoom(s, repoName, first);
    ConnectRepoToRoomLookup(s, repoName, first);
    ConnectRepoToRoomLookup(s1, repoName, second);
    var t := WriteTags(RepoLink(repoName), LinkValue(repoName, second.id));
    if |AS.Read(s1, t)| > 0 {
      var r := AS.Read(s1, t)[0];
      AS.ReadSpec(s1, t);
      assert r in AS.Read(s1, t);
      var i :| 0 <= i < |s1| && s1[i] == r;
      assert RecordValid(s1[i]);
      assert MiscAssociation(RepoTag(repoName)) in r.tags;
      LinkOfRepoHasItsRoom(s, repoName, first, i);
      assert false;
    }
  }

  /** After one connection from `room`, every link record of the repository
      carries that room's tag and no other. */
  lemma LinkOfRepoHasItsRoom(s: Store, repoName: string, room: Room, i: nat)
    requires Valid(s) && GetConnectedRoomId(s, repoName).None?
    requires i < |ConnectRepoToRoom(s, repoName, room)|
    requires MiscAssociation(RepoTag(repoName)) in ConnectRepoToRoom(s, repoName, room)[i].tags
    ensures RoomAssociation(room.id) in ConnectRepoToRoom(s, repoName, room)[i].tags
  {
    var k, v := RepoLink(repoName), LinkValue(repoName, room.id);
    var q, t := ReadTags(k), WriteTags(k, v);
    var s1 := ConnectRepoToRoom(s, repoName, room);
    assert Lookup(s, k).None? by {
      LinkLookupShape(s, repoName);
    }
    assert |AS.Read(s, q)| == 0;
    AS.ReadSpec(s, q);
    AS.UpdateSpec(s, t, v);
    assert i >= |s|;
    assert |AS.Read(s, t)| == 0;
    assert s1 == s + [AS.Record(t, v)];
  }
}
