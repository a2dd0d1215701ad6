/** What the channel between client and device does with one request and its reply. */
module Channel {
  datatype Fate = Delivered | RequestLost | ReplyLost
}
