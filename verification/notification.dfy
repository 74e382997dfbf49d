/** `sendNotification`: a private notice from the bot to one user, shown in a
    room but not posted into it, optionally carrying image attachments. */
module Notification {
  import opened Js
  import opened Chat
  import Sdk

  datatype Attachment = Attachment(imageUrl: string)

  /** What a notice says: normally a string, but the command handlers also pass
      the error object they caught, which reaches the notice unconverted. */
  datatype Text = Plain(value: string) | ErrorObject(error: Sdk.ApiError)

  /** A notice delivered with `notifyUser` to `recipient` only. */
  datatype Notice = Notice(
    recipient: User,
    senderId: string,
    room: Room,
    text: Text,
    groupable: bool,
    attachments: seq<Attachment>)

  /** One attachment per address, in order. */
  function Attachments(urls: seq<string>): (xs: seq<Attachment>)
    ensures |xs| == |urls|
    ensures forall i :: 0 <= i < |urls| ==> xs[i].imageUrl == urls[i]
  {
    if |urls| == 0 then []
    else Attachments(urls[..|urls| - 1]) + [Attachment(urls[|urls| - 1])]
  }

  /** The image addresses a list of attachments shows. */
  function ImageUrls(xs: seq<Attachment>): (urls: seq<string>)
    ensures |urls| == |xs|
  {
    if |xs| == 0 then [] else ImageUrls(xs[..|xs| - 1]) + [xs[|xs| - 1].imageUrl]
  }

  /** Attachments are built from the addresses and give exactly them back. */
  lemma {:induction false} AttachmentsRoundTrip(urls: seq<string>)
    ensures ImageUrls(Attachments(urls)) == urls
    decreases |urls|
  {
    if |urls| > 0 {
      var init := urls[..|urls| - 1];
      AttachmentsRoundTrip(init);
      assert Attachments(urls)[..|urls| - 1] == Attachments(init);
    }
  }

  /** `sendNotification(text, read, modify, user, room, arr)`. */
  function SendNotification(text: Text, user: User, room: Room, arr: Option<seq<string>>): (n: Notice)
    ensures n.recipient == user && n.room == room && n.text == text
    ensures n.senderId == BotUserId && !n.groupable
    ensures arr.None? ==> n.attachments == []
    ensures arr.Some? ==> ImageUrls(n.attachments) == arr.value
  {
    var urls := if arr.Some? then arr.value else [];
    AttachmentsRoundTrip(urls);
    Notice(user, BotUserId, room, text, false, Attachments(urls))
  }

  /** The usual case: a plain message and no images. */
  function Notify(text: string, user: User, room: Room): (n: Notice)
    ensures n.text == Plain(text) && n.attachments == []
    ensures n.recipient == user && n.senderId == BotUserId
  {
    SendNotification(Plain(text), user, room, None)
  }
}
