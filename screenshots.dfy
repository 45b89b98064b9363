/** Authentic field synthesis (src/screenshots.py): the draws each
    `create_*_screenshot` makes and the record it returns. Rendering the
    record into an image is not part of this model. */
module Screenshots {
  import opened Text
  import opened Rng
  import opened Config
  import opened Generators
  import opened Records

  /** What every authentic tweet satisfies. */
  ghost predicate IsAuthenticTweet(t: Tweet) {
    && IsUsernameOf(t.username, t.name)
    && t.text in RealTweets()
    && 5 <= t.replyCount <= 500
    && 10 <= t.retweetCount <= 2000
    && 5 <= t.quoteCount <= 800
    && 50 <= t.likeCount <= 10000
    && 1000 <= t.viewCount <= 100000
    && IsRelativeStamp(t.timestamp)
    && t.avatarColor in AVATAR_COLORS
    && t.initials == GetInitials(t.name)
  }

  /** What every authentic Instagram post satisfies. */
  ghost predicate IsAuthenticPhoto(p: Photo) {
    && IsInstagramUsernameOf(p.username, p.name)
    && '@' !in p.username
    && p.caption in RealCaptions()
    && 50 <= p.likeCount <= 50000
    && 5 <= p.commentCount <= 1000
    && IsRelativeStamp(p.timestamp)
    && p.avatarColor in AVATAR_COLORS
    && p.initials == GetInitials(p.name)
  }

  /** A chat's date badge: "<h>h" for 1 <= h <= 23, "1d", "2d" or "3d". */
  ghost predicate IsDateBadge(s: string) {
    (exists h: nat :: 1 <= h <= 23 && s == NatToString(h) + "h")
    || s == "1d" || s == "2d" || s == "3d"
  }

  /** What every authentic WhatsApp conversation satisfies. */
  ghost predicate IsAuthenticChat(c: Chat) {
    && c.messages in RealConversations()
    && IsDateBadge(c.dateBadge)
    && c.avatarColor in AVATAR_COLORS
    && c.initials == GetInitials(c.contactName)
  }

  /** The oracle after a synthesis: one name used, `pos` moved forward,
      the streams themselves unchanged. */
  ghost predicate AfterOneName(o: Oracle, next: Oracle) {
    next == o.(pos := next.pos, namePos := o.namePos + 1) && next.pos > o.pos
  }

  /** `create_twitter_screenshot`'s data: name, username, text, verified
      (probability 0.3), the five counters, timestamp, avatar colour, and
      initials, drawn in that order. */
  function CreateTwitterScreenshot(o: Oracle): (r: Draw<Tweet>)
    ensures IsAuthenticTweet(r.value)
    ensures r.value.name == o.names(o.namePos)
    ensures AfterOneName(o, r.next)
  {
    var name := FakeName(o);
    var username := GenerateUsername(name.value, name.next);
    var text := GenerateTweetText(username.next);
    var verified := Random(text.next);
    var reply := RandInt(verified.next, 5, 500);
    var retweet := RandInt(reply.next, 10, 2000);
    var quote := RandInt(retweet.next, 5, 800);
    var like := RandInt(quote.next, 50, 10000);
    var view := RandInt(like.next, 1000, 100000);
    var timestamp := GenerateTimestamp(None, view.next);
    var color := GenerateAvatarColor(timestamp.next);
    Draw(Tweet(name.value, username.value, text.value, verified.value < 0.3,
               reply.value, retweet.value, quote.value, like.value, view.value,
               timestamp.value, color.value, GetInitials(name.value)),
         color.next)
  }

  /** `create_instagram_screenshot`'s data: as for a tweet, but the
      username loses every '@', verified has probability 0.2, and there
      are two counters. */
  function CreateInstagramScreenshot(o: Oracle): (r: Draw<Photo>)
    ensures IsAuthenticPhoto(r.value)
    ensures r.value.name == o.names(o.namePos)
    ensures AfterOneName(o, r.next)
  {
    var name := FakeName(o);
    var username := GenerateUsername(name.value, name.next);
    InstagramUsername(username.value, name.value);
    var caption := GenerateInstagramCaption(username.next);
    var verified := Random(caption.next);
    var like := RandInt(verified.next, 50, 50000);
    var comment := RandInt(like.next, 5, 1000);
    var timestamp := GenerateTimestamp(None, comment.next);
    var color := GenerateAvatarColor(timestamp.next);
    Draw(Photo(name.value, RemoveChar(username.value, '@'), caption.value, verified.value < 0.2,
               like.value, comment.value, timestamp.value, color.value, GetInitials(name.value)),
         color.next)
  }

  /** `create_whatsapp_screenshot`'s data: contact name, one whole
      conversation, a date badge for a day count drawn in [0, 3], avatar
      colour and initials. Per-message clock times are drawn when the chat
      is rendered, not here. */
  function CreateWhatsAppScreenshot(o: Oracle): (r: Draw<Chat>)
    ensures IsAuthenticChat(r.value)
    ensures r.value.contactName == o.names(o.namePos)
    ensures AfterOneName(o, r.next)
  {
    var contact := FakeName(o);
    var messages := GenerateWhatsAppMessages(contact.next);
    var days := RandInt(messages.next, 0, 3);
    var badge := GenerateTimestamp(Some(days.value), days.next);
    assert IsDateBadge(badge.value) by {
      if days.value == 2 {
        assert badge.value == NatToString(2) + "d";
      } else if days.value == 3 {
        assert badge.value == NatToString(3) + "d";
      }
    }
    var color := GenerateAvatarColor(badge.next);
    Draw(Chat(contact.value, messages.value, badge.value, color.value, GetInitials(contact.value)),
         color.next)
  }

  /** What every authentic record of its platform satisfies. */
  ghost predicate IsAuthentic(post: Post) {
    match post
    case TweetPost(t) => IsAuthenticTweet(t)
    case PhotoPost(p) => IsAuthenticPhoto(p)
    case ChatPost(c) => IsAuthenticChat(c)
  }

  /** The creator a platform pairs with in main.py's platform table. */
  function CreateScreenshot(platform: Platform, o: Oracle): (r: Draw<Post>)
    ensures IsAuthentic(r.value) && r.value.PlatformOf() == platform
    ensures AfterOneName(o, r.next)
  {
    match platform
    case Twitter =>
      var t := CreateTwitterScreenshot(o);
      Draw(TweetPost(t.value), t.next)
    case Instagram =>
      var p := CreateInstagramScreenshot(o);
      Draw(PhotoPost(p.value), p.next)
    case WhatsApp =>
      var c := CreateWhatsAppScreenshot(o);
      Draw(ChatPost(c.value), c.next)
  }

  /** Every date badge is also a valid relative timestamp. */
  lemma DateBadgeIsRelative(s: string)
    requires IsDateBadge(s)
    ensures IsRelativeStamp(s)
  {
    if s == "1d" {
      assert s == NatToString(1) + "d";
    } else if s == "2d" {
      assert s == NatToString(2) + "d";
    } else if s == "3d" {
      assert s == NatToString(3) + "d";
    }
  }

  const SINGLE_COMMENT_LABEL := "Ver comentário"

  /** The "view comments" text shown under an Instagram post: the plural
      phrase with the count when there is more than one comment, the
      singular phrase otherwise. */
  function CommentsLabel(commentCount: int): (r: string)
    ensures r == SINGLE_COMMENT_LABEL <==> commentCount <= 1
    ensures commentCount > 1 ==>
      exists digits :: AllDigits(digits) && ParseNat(digits) == commentCount
        && r == "Ver todos os " + digits + " comentários"
  {
    if commentCount > 1 then
      ParseNatToString(commentCount);
      var r := "Ver todos os " + IntToString(commentCount) + " comentários";
      assert r[0] != SINGLE_COMMENT_LABEL[0] || r[4] != SINGLE_COMMENT_LABEL[4];
      r
    else
      SINGLE_COMMENT_LABEL
  }

  /** Authentic posts have at least five comments, so their label is
      always the plural one. */
  lemma AuthenticLabelIsPlural(p: Photo)
    requires IsAuthenticPhoto(p)
    ensures CommentsLabel(p.commentCount) != SINGLE_COMMENT_LABEL
  {
  }

  /** "HH:MM" with a zero-padded hour in [0, 23] and minute in [0, 59]. */
  ghost predicate IsClockTime(s: string) {
    && |s| == 5 && s[2] == ':'
    && AllDigits(s[..2]) && AllDigits(s[3..])
    && ParseNat(s[..2]) <= 23 && ParseNat(s[3..]) <= 59
  }

  /** The clock times of a chat's first `count` messages, one
      `generate_time()` call per message in order, as drawn while the
      messages are rendered. */
  function MessageTimes(count: nat, o: Oracle): (r: Draw<seq<string>>)
    ensures |r.value| == count && r.next == o.Skip(2 * count)
  {
    if count == 0 then Draw([], o)
    else
      var earlier := MessageTimes(count - 1, o);
      var last := GenerateTime(earlier.next);
      Draw(earlier.value + [last.value], last.next)
  }

  /** Message `i` shows the time drawn from the `2 * i`-th draw on: each
      message consumes exactly two draws, hour then minute. */
  lemma {:induction false} MessageTimesAt(count: nat, o: Oracle, i: nat)
    requires i < count
    ensures MessageTimes(count, o).value[i] == GenerateTime(o.Skip(2 * i)).value
  {
    var earlier := MessageTimes(count - 1, o);
    var last := GenerateTime(earlier.next);
    assert MessageTimes(count, o).value == earlier.value + [last.value];
    if i < count - 1 {
      assert (earlier.value + [last.value])[i] == earlier.value[i];
      MessageTimesAt(count - 1, o, i);
    } else {
      assert earlier.next == o.Skip(2 * i);
    }
  }

  /** Every message shows a well-formed clock time. */
  lemma MessageTimesAreClockTimes(count: nat, o: Oracle)
    ensures forall i :: 0 <= i < count ==> IsClockTime(MessageTimes(count, o).value[i])
  {
    forall i | 0 <= i < count
      ensures IsClockTime(MessageTimes(count, o).value[i])
    {
      MessageTimesAt(count, o, i);
    }
  }

  /** The loop that renders a chat's messages, reduced to its draws: each
      message gets a fresh `generate_time()`. The text escaping and the
      page calls are rendering. */
  method RenderMessageTimes(messages: seq<Message>, o: Oracle) returns (times: seq<string>, next: Oracle)
    ensures times == MessageTimes(|messages|, o).value && next == MessageTimes(|messages|, o).next
    ensures |times| == |messages| && next == o.Skip(2 * |messages|)
    ensures forall i :: 0 <= i < |times| ==> IsClockTime(times[i])
  {
    times := [];
    next := o;
    for i := 0 to |messages|
      invariant times == MessageTimes(i, o).value && next == MessageTimes(i, o).next
    {
      var time := GenerateTime(next);
      times := times + [time.value];
      next := time.next;
    }
    MessageTimesAreClockTimes(|messages|, o);
  }
}
