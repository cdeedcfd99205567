/**
 * The channel record of the chat client and the pieces of a realtime
 * database snapshot that a channel is built from.
 */
module ChannelModel {

  /**
   * A chat channel: its database key, its display name and its creation time
   * in milliseconds. The record's default creation time is a clock reading,
   * so it is passed in explicitly wherever a channel is built.
   */
  datatype Channel = Channel(id: string, name: string, createdAt: int)

  /** The value stored under one child of the channel list: absent, or a string. */
  datatype Value = Null | Str(s: string)

  /** One child of a snapshot of the channel list: its key and its value. */
  datatype Child = Child(key: string, value: Value)

  /** The platform's string conversion of a stored value: an absent value reads as "null". */
  function ValueToString(v: Value): (r: string)
    ensures v.Null? ==> r == "null"
    ensures v.Str? ==> r == v.s
  {
    match v
    case Null => "null"
    case Str(s) => s
  }

  /** The channel built from one snapshot child at clock reading `now`. */
  function ChannelOf(child: Child, now: int): (c: Channel)
    ensures c.id == child.key
    ensures c.name == ValueToString(child.value)
    ensures c.createdAt == now
  {
    Channel(child.key, ValueToString(child.value), now)
  }
}
