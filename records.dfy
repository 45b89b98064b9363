/** The per-platform field sets. The source passes untyped dictionaries;
    each dictionary shape becomes a datatype whose fields are its keys,
    so a record of one platform cannot reach another platform's
    manipulator. */
module Records {
  import opened Config

  datatype Platform = Twitter | Instagram | WhatsApp

  /** The keys of the Twitter dictionary: name, username, text, verified,
      reply_count, retweet_count, quote_count, like_count, view_count,
      timestamp, avatar_color, initials. */
  datatype Tweet = Tweet(
    name: string,
    username: string,
    text: string,
    verified: bool,
    replyCount: int,
    retweetCount: int,
    quoteCount: int,
    likeCount: int,
    viewCount: int,
    timestamp: string,
    avatarColor: string,
    initials: string)

  /** The keys of the Instagram dictionary: name, username, caption,
      verified, like_count, comment_count, timestamp, avatar_color,
      initials. */
  datatype Photo = Photo(
    name: string,
    username: string,
    caption: string,
    verified: bool,
    likeCount: int,
    commentCount: int,
    timestamp: string,
    avatarColor: string,
    initials: string)

  /** The keys of the WhatsApp dictionary: contact_name, messages,
      date_badge, avatar_color, initials. */
  datatype Chat = Chat(
    contactName: string,
    messages: seq<Message>,
    dateBadge: string,
    avatarColor: string,
    initials: string)

  /** A field set of any platform. */
  datatype Post = TweetPost(tweet: Tweet) | PhotoPost(photo: Photo) | ChatPost(chat: Chat)
  {
    function PlatformOf(): Platform {
      match this
      case TweetPost(_) => Twitter
      case PhotoPost(_) => Instagram
      case ChatPost(_) => WhatsApp
    }
  }
}
