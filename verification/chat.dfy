/** The chat platform's entities the plugin handles: users, rooms and the
    messages it posts into rooms. */
module Chat {
  import opened Js

  /** The bot account every notification is sent from. */
  const BotUserId := "rocket.cat"

  datatype User = User(id: string, username: string)

  datatype Room = Room(id: string)

  /** A message posted into a room. `sender` is `None` when the message goes out
      under the app's own identity; `alias` and `avatarUrl` are the optional
      display overrides. */
  datatype Message = Message(
    room: Room,
    sender: Option<User>,
    avatarUrl: Option<string>,
    alias: Option<string>,
    text: string)
}
