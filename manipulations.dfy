/** The manipulation engine (src/manipulations.py): each manipulator
    copies an authentic record and overwrites some of its fields according
    to a manipulation kind. Records are values here, so the copy the
    source takes first is implicit and the original is never changed. The
    page rendering that follows each mutation is not part of this model;
    the clock-time draws of a re-rendered chat are taken by the Dataset
    module after the manipulator returns. */
module Manipulations {
  import opened Text
  import opened Rng
  import opened Config
  import opened Generators
  import opened Records
  import opened Screenshots

  /** The `manipulation_type` argument. The nine names the manipulators
      test for get a constructor each; any other string is kept as
      `Unrecognised` and matches no branch. */
  datatype Kind =
    | MetricsChange | TextChange | CaptionChange | VerificationChange | UsernameChange
    | Combined | MessageChange | ContactChange | TimeChange
    | Unrecognised(name: string)

  const KIND_NAMES: seq<string> := [
    "metrics_change", "text_change", "caption_change", "verification_change", "username_change",
    "combined", "message_change", "contact_change", "time_change"]

  /** The string a kind stands for. */
  function KindName(kind: Kind): string {
    match kind
    case MetricsChange => KIND_NAMES[0]
    case TextChange => KIND_NAMES[1]
    case CaptionChange => KIND_NAMES[2]
    case VerificationChange => KIND_NAMES[3]
    case UsernameChange => KIND_NAMES[4]
    case Combined => KIND_NAMES[5]
    case MessageChange => KIND_NAMES[6]
    case ContactChange => KIND_NAMES[7]
    case TimeChange => KIND_NAMES[8]
    case Unrecognised(name) => name
  }

  /** The kind a `manipulation_type` string selects in the if/elif chains. */
  function ParseKind(s: string): (kind: Kind)
    ensures KindName(kind) == s
    ensures kind.Unrecognised? <==> s !in KIND_NAMES
  {
    if s == KIND_NAMES[0] then MetricsChange
    else if s == KIND_NAMES[1] then TextChange
    else if s == KIND_NAMES[2] then CaptionChange
    else if s == KIND_NAMES[3] then VerificationChange
    else if s == KIND_NAMES[4] then UsernameChange
    else if s == KIND_NAMES[5] then Combined
    else if s == KIND_NAMES[6] then MessageChange
    else if s == KIND_NAMES[7] then ContactChange
    else if s == KIND_NAMES[8] then TimeChange
    else Unrecognised(s)
  }

  /** Every recognised kind is read back from its name: the names are
      pairwise distinct. */
  lemma ParseKindName(kind: Kind)
    requires !kind.Unrecognised? || kind.name !in KIND_NAMES
    ensures ParseKind(KindName(kind)) == kind
  {
    assert forall i, j :: 0 <= i < j < |KIND_NAMES| ==> KIND_NAMES[i] != KIND_NAMES[j] by {
      forall i, j | 0 <= i < j < |KIND_NAMES|
        ensures KIND_NAMES[i] != KIND_NAMES[j]
      {
        assert KIND_NAMES[i][0] != KIND_NAMES[j][0] || KIND_NAMES[i][2] != KIND_NAMES[j][2];
      }
    }
  }

  /** Python's `int(x)` on a float: truncation toward zero. */
  function Trunc(x: real): (r: int)
    ensures x >= 0.0 ==> r as real <= x < r as real + 1.0
    ensures x < 0.0 ==> r as real - 1.0 < x <= r as real
  {
    if x >= 0.0 then x.Floor else -((-x).Floor)
  }

  /** `int(count * factor)`. */
  function Scale(count: int, factor: real): int {
    Trunc(count as real * factor)
  }

  /** A non-negative count scaled by a factor in [lo, hi] lands between the
      truncated low end and the exact high end. */
  lemma ScaleBounds(count: int, factor: real, lo: real, hi: real)
    requires 0 <= count && 0.0 <= lo <= factor <= hi
    ensures Trunc(count as real * lo) <= Scale(count, factor)
    ensures Scale(count, factor) as real <= count as real * hi
  {
    var n := count as real;
    assert 0.0 <= n * lo by {
      assert 0.0 <= n && 0.0 <= lo;
    }
    assert n * lo <= n * factor by {
      assert n * factor - n * lo == n * (factor - lo);
    }
    assert n * factor <= n * hi by {
      assert n * hi - n * factor == n * (hi - factor);
    }
  }

  /** `random.uniform(0.5, 1.5)`, the factor of a metrics change. */
  function MetricsFactor(o: Oracle): (r: Draw<real>)
    ensures 0.5 <= r.value <= 1.5 && r.next == o.Skip(1)
  {
    Uniform(o, 0.5, 1.5)
  }

  /** `random.uniform(0.7, 1.3)`, the factor of a combined change. */
  function CombinedFactor(o: Oracle): (r: Draw<real>)
    ensures 0.7 <= r.value <= 1.3 && r.next == o.Skip(1)
  {
    Uniform(o, 0.7, 1.3)
  }

  /** `value` is what a resample-until-different loop over `pool`, started
      at `o` and avoiding `avoid`, returns, leaving `next`: the first draw
      from `o.pos` on whose pick differs from `avoid`. */
  ghost predicate Resampled<T>(o: Oracle, next: Oracle, pool: seq<T>, avoid: T, value: T) {
    && |pool| > 0
    && next == o.(pos := next.pos) && o.pos < next.pos
    && value == Pick(pool, o.draws(next.pos - 1)) && value != avoid
    && forall k :: o.pos <= k < next.pos - 1 ==> Pick(pool, o.draws(k)) == avoid
  }

  /** The `while new == original: new = choice(pool)` loop, after a first
      `choice(pool)`. It stops because some later draw picks another entry. */
  method Resample<T(==, !new)>(o: Oracle, pool: seq<T>, avoid: T) returns (r: Draw<T>)
    requires Recurs(o.draws, o.pos, pool, avoid)
    ensures r.value in pool
    ensures Resampled(o, r.next, pool, avoid, r.value)
  {
    ghost var k: nat :| o.pos <= k && Pick(pool, o.draws(k)) != avoid;
    var value := Choice(o, pool).value;
    var pos := o.pos + 1;
    while value == avoid
      invariant o.pos < pos <= k + 1
      invariant value in pool && value == Pick(pool, o.draws(pos - 1))
      invariant forall j :: o.pos <= j < pos - 1 ==> Pick(pool, o.draws(j)) == avoid
      decreases k + 1 - pos
    {
      value := Choice(o.(pos := pos), pool).value;
      pos := pos + 1;
    }
    r := Draw(value, o.(pos := pos));
  }

  // ---------------------------------------------------------------- Twitter

  /** The three counters a metrics change scales, by one shared factor. */
  function ScaleTweetMetrics(t: Tweet, factor: real): (r: Tweet)
    ensures r.replyCount == t.replyCount && r.quoteCount == t.quoteCount
  {
    t.(likeCount := Scale(t.likeCount, factor),
       retweetCount := Scale(t.retweetCount, factor),
       viewCount := Scale(t.viewCount, factor))
  }

  /** What `manipulate_twitter` may return for `kind`, whatever the draws. */
  ghost predicate IsTweetManipulation(original: Tweet, kind: Kind, data: Tweet) {
    if kind == MetricsChange then
      exists factor: real :: 0.5 <= factor <= 1.5 && data == ScaleTweetMetrics(original, factor)
    else if kind == TextChange then
      data == original.(text := data.text) && data.text in RealTweets() && data.text != original.text
    else if kind == VerificationChange then
      data == original.(verified := !original.verified)
    else if kind == UsernameChange then
      data == original.(username := data.username) && IsUsernameOf(data.username, original.name)
    else if kind == Combined then
      exists factor: real :: 0.7 <= factor <= 1.3
        && data == original.(likeCount := Scale(original.likeCount, factor), verified := !original.verified)
    else
      data == original
  }

  /** `manipulate_twitter`'s mutation of a copy of `original`. */
  method ManipulateTwitter(original: Tweet, kind: Kind, o: Oracle) returns (data: Tweet, next: Oracle)
    requires kind == TextChange ==> Recurs(o.draws, o.pos, RealTweets(), original.text)
    ensures IsTweetManipulation(original, kind, data)
    ensures kind == MetricsChange ==>
      data == ScaleTweetMetrics(original, MetricsFactor(o).value) && next == o.Skip(1)
    ensures kind == TextChange ==> Resampled(o, next, RealTweets(), original.text, data.text)
    ensures kind == UsernameChange ==>
      data.username == GenerateUsername(original.name, o).value && next == o.Skip(2)
    ensures kind == Combined ==>
      data.likeCount == Scale(original.likeCount, CombinedFactor(o).value) && next == o.Skip(1)
    ensures kind !in {MetricsChange, TextChange, UsernameChange, Combined} ==> next == o
  {
    data := original;
    next := o;
    if kind == MetricsChange {
      var factor := MetricsFactor(o);
      data := data.(likeCount := Scale(data.likeCount, factor.value));
      data := data.(retweetCount := Scale(data.retweetCount, factor.value));
      data := data.(viewCount := Scale(data.viewCount, factor.value));
      next := factor.next;
      assert data == ScaleTweetMetrics(original, factor.value);
    } else if kind == TextChange {
      var text := Resample(o, RealTweets(), original.text);
      data := data.(text := text.value);
      next := text.next;
    } else if kind == VerificationChange {
      data := data.(verified := !data.verified);
    } else if kind == UsernameChange {
      var username := GenerateUsername(data.name, o);
      data := data.(username := username.value);
      next := username.next;
    } else if kind == Combined {
      var factor := CombinedFactor(o);
      data := data.(likeCount := Scale(data.likeCount, factor.value));
      data := data.(verified := !data.verified);
      next := factor.next;
    }
  }

  /** Text, verification and combined changes always produce a tweet that
      differs from the original. */
  lemma TweetManipulationDiffers(original: Tweet, kind: Kind, data: Tweet)
    requires kind in {TextChange, VerificationChange, Combined}
    requires IsTweetManipulation(original, kind, data)
    ensures data != original
  {
    if kind == Combined {
      assert data.verified != original.verified;
    }
  }

  /** Changing text, verification or username keeps every property of an
      authentic tweet. */
  lemma TweetManipulationKeepsAuthentic(original: Tweet, kind: Kind, data: Tweet)
    requires kind in {TextChange, VerificationChange, UsernameChange}
    requires IsAuthenticTweet(original) && IsTweetManipulation(original, kind, data)
    ensures IsAuthenticTweet(data)
  {
  }

  /** Flipping verification twice gives back the original tweet. */
  lemma TweetVerificationInvolution(original: Tweet, once: Tweet, twice: Tweet)
    requires IsTweetManipulation(original, VerificationChange, once)
    requires IsTweetManipulation(once, VerificationChange, twice)
    ensures twice == original
  {
  }

  // -------------------------------------------------------------- Instagram

  /** What `manipulate_instagram` may return for `kind`, whatever the draws. */
  ghost predicate IsPhotoManipulation(original: Photo, kind: Kind, data: Photo) {
    if kind == MetricsChange then
      exists factor: real :: 0.5 <= factor <= 1.5
        && data == original.(likeCount := Scale(original.likeCount, factor))
    else if kind == CaptionChange then
      data == original.(caption := data.caption) && data.caption in RealCaptions()
        && data.caption != original.caption
    else if kind == VerificationChange then
      data == original.(verified := !original.verified)
    else if kind == UsernameChange then
      data == original.(username := data.username) && IsInstagramUsernameOf(data.username, original.name)
        && '@' !in data.username
    else if kind == Combined then
      exists factor: real :: 0.7 <= factor <= 1.3
        && data == original.(likeCount := Scale(original.likeCount, factor), caption := data.caption)
        && data.caption in RealCaptions() && data.caption != original.caption
    else
      data == original
  }

  /** `manipulate_instagram`'s mutation of a copy of `original`. */
  method ManipulateInstagram(original: Photo, kind: Kind, o: Oracle) returns (data: Photo, next: Oracle)
    requires kind == CaptionChange ==> Recurs(o.draws, o.pos, RealCaptions(), original.caption)
    requires kind == Combined ==> Recurs(o.draws, o.pos + 1, RealCaptions(), original.caption)
    ensures IsPhotoManipulation(original, kind, data)
    ensures kind == MetricsChange ==>
      data.likeCount == Scale(original.likeCount, MetricsFactor(o).value) && next == o.Skip(1)
    ensures kind == CaptionChange ==> Resampled(o, next, RealCaptions(), original.caption, data.caption)
    ensures kind == UsernameChange ==>
      data.username == RemoveChar(GenerateUsername(original.name, o).value, '@') && next == o.Skip(2)
    ensures kind == Combined ==>
      && data.likeCount == Scale(original.likeCount, CombinedFactor(o).value)
      && Resampled(o.Skip(1), next, RealCaptions(), original.caption, data.caption)
    ensures kind !in {MetricsChange, CaptionChange, UsernameChange, Combined} ==> next == o
  {
    data := original;
    next := o;
    if kind == MetricsChange {
      var factor := MetricsFactor(o);
      data := data.(likeCount := Scale(data.likeCount, factor.value));
      next := factor.next;
    } else if kind == CaptionChange {
      var caption := Resample(o, RealCaptions(), original.caption);
      data := data.(caption := caption.value);
      next := caption.next;
    } else if kind == VerificationChange {
      data := data.(verified := !data.verified);
    } else if kind == UsernameChange {
      var username := GenerateUsername(data.name, o);
      InstagramUsername(username.value, data.name);
      data := data.(username := RemoveChar(username.value, '@'));
      next := username.next;
    } else if kind == Combined {
      var factor := CombinedFactor(o);
      data := data.(likeCount := Scale(data.likeCount, factor.value));
      var caption := Resample(factor.next, RealCaptions(), original.caption);
      data := data.(caption := caption.value);
      next := caption.next;
    }
  }

  /** Caption, verification and combined changes always produce a post
      that differs from the original. */
  lemma PhotoManipulationDiffers(original: Photo, kind: Kind, data: Photo)
    requires kind in {CaptionChange, VerificationChange, Combined}
    requires IsPhotoManipulation(original, kind, data)
    ensures data != original
  {
    if kind == Combined {
      assert data.caption != original.caption;
    }
  }

  /** Changing caption, verification or username keeps every property of
      an authentic post, and so do the counters a combined change leaves
      alone: it never touches verified or the comment count. */
  lemma PhotoManipulationKeepsAuthentic(original: Photo, kind: Kind, data: Photo)
    requires kind in {CaptionChange, VerificationChange, UsernameChange}
    requires IsAuthenticPhoto(original) && IsPhotoManipulation(original, kind, data)
    ensures IsAuthenticPhoto(data)
  {
  }

  /** A combined Instagram change leaves verified as it was, unlike the
      combined Twitter change. */
  lemma PhotoCombinedKeepsVerified(original: Photo, data: Photo)
    requires IsPhotoManipulation(original, Combined, data)
    ensures data.verified == original.verified && data.commentCount == original.commentCount
  {
  }

  // --------------------------------------------------------------- WhatsApp

  /** What `manipulate_whatsapp` may return for `kind`, whatever the draws. */
  ghost predicate IsChatManipulation(original: Chat, kind: Kind, data: Chat) {
    if kind == MessageChange then
      data == original.(messages := data.messages) && data.messages in RealConversations()
        && data.messages != original.messages
    else if kind == ContactChange then
      data == original.(contactName := data.contactName, initials := GetInitials(data.contactName))
    else if kind == Combined then
      data == original.(contactName := data.contactName, initials := GetInitials(data.contactName),
                        messages := data.messages)
        && data.messages in RealConversations() && data.messages != original.messages
    else
      data == original
  }

  /** `manipulate_whatsapp`'s mutation of a copy of `original`. A time
      change leaves the record as it is: new clock times come only from
      rendering its messages again. */
  method ManipulateWhatsApp(original: Chat, kind: Kind, o: Oracle) returns (data: Chat, next: Oracle)
    requires kind in {MessageChange, Combined} ==>
      Recurs(o.draws, o.pos, RealConversations(), original.messages)
    ensures IsChatManipulation(original, kind, data)
    ensures kind == MessageChange ==>
      Resampled(o, next, RealConversations(), original.messages, data.messages)
    ensures kind == ContactChange ==>
      data.contactName == o.names(o.namePos) && next == o.(namePos := o.namePos + 1)
    ensures kind == Combined ==>
      && data.contactName == o.names(o.namePos)
      && Resampled(o.(namePos := o.namePos + 1), next, RealConversations(), original.messages, data.messages)
    ensures kind !in {MessageChange, ContactChange, Combined} ==> next == o
  {
    data := original;
    next := o;
    if kind == MessageChange {
      var messages := Resample(o, RealConversations(), original.messages);
      data := data.(messages := messages.value);
      next := messages.next;
    } else if kind == ContactChange {
      var contact := FakeName(o);
      data := data.(contactName := contact.value);
      data := data.(initials := GetInitials(data.contactName));
      next := contact.next;
    } else if kind == TimeChange {
    } else if kind == Combined {
      var contact := FakeName(o);
      data := data.(contactName := contact.value);
      data := data.(initials := GetInitials(data.contactName));
      var messages := Resample(contact.next, RealConversations(), original.messages);
      data := data.(messages := messages.value);
      next := messages.next;
    }
  }

  /** Every WhatsApp manipulation keeps every property of an authentic
      conversation: new messages come from the pool and the initials
      follow the new contact name. */
  lemma ChatManipulationKeepsAuthentic(original: Chat, kind: Kind, data: Chat)
    requires IsAuthenticChat(original) && IsChatManipulation(original, kind, data)
    ensures IsAuthenticChat(data)
  {
  }

  /** Message and combined changes always produce a conversation that
      differs from the original; a time change produces the original. */
  lemma ChatManipulationDiffers(original: Chat, kind: Kind, data: Chat)
    requires IsChatManipulation(original, kind, data)
    ensures kind in {MessageChange, Combined} ==> data != original
    ensures kind == TimeChange ==> data == original
  {
    if kind in {MessageChange, Combined} {
      assert data.messages != original.messages;
    }
  }

  // --------------------------------------------------------------- Dispatch

  /** The draw streams under which every resample loop of every
      manipulator stops, wherever it starts and whatever it avoids. */
  ghost predicate Fair(draws: nat -> nat) {
    && (forall from: nat, avoid: string :: Recurs(draws, from, RealTweets(), avoid))
    && (forall from: nat, avoid: string :: Recurs(draws, from, RealCaptions(), avoid))
    && (forall from: nat, avoid: seq<Message> :: Recurs(draws, from, RealConversations(), avoid))
  }

  /** The draw stream 0, 2, 0, 2, ...: `choice` alternates between a
      pool's first and third entries. */
  function Alternating(k: nat): nat {
    if k % 2 == 0 then 0 else 2
  }

  /** Any pool whose first and third entries differ recurs under the
      alternating stream. */
  lemma AlternatingRecurs<T(!new)>(pool: seq<T>, from: nat, avoid: T)
    requires |pool| >= 3 && pool[0] != pool[2]
    ensures Recurs(Alternating, from, pool, avoid)
  {
    assert 0 % |pool| == 0 && 2 % |pool| == 2;
    assert Pick(pool, Alternating(from)) != Pick(pool, Alternating(from + 1));
    if Pick(pool, Alternating(from)) == avoid {
      assert Pick(pool, Alternating(from + 1)) != avoid;
    }
  }

  lemma FirstTweetLength()
    ensures |RealTweets()[0]| == 88
  {
    assert RealTweets()[0] == TweetAt(0);
  }

  lemma ThirdTweetLength()
    ensures |RealTweets()[2]| == 93
  {
    assert RealTweets()[2] == TweetAt(2);
  }

  /** The first and third tweets differ: they differ in length. */
  lemma TweetsVary()
    ensures RealTweets()[0] != RealTweets()[2]
  {
    FirstTweetLength();
    ThirdTweetLength();
  }

  /** The first and third captions differ in their first character. */
  lemma CaptionsVary()
    ensures RealCaptions()[0] != RealCaptions()[2]
  {
    assert RealCaptions()[0] == CaptionAt(0) && RealCaptions()[2] == CaptionAt(2);
    assert CaptionAt(0)[0] != CaptionAt(2)[0];
  }

  /** The first and third conversations differ in their opening message. */
  lemma ConversationsVary()
    ensures RealConversations()[0] != RealConversations()[2]
  {
    assert RealConversations()[0] == ConversationAt(0) && RealConversations()[2] == ConversationAt(2);
    assert ConversationAt(0)[0].text[0] != ConversationAt(2)[0].text[0];
  }

  /** Fairness is satisfiable: the alternating stream is fair. */
  lemma AlternatingIsFair()
    ensures Fair(Alternating)
  {
    TweetsVary();
    CaptionsVary();
    ConversationsVary();
    forall from: nat, avoid: string
      ensures Recurs(Alternating, from, RealTweets(), avoid)
    {
      AlternatingRecurs(RealTweets(), from, avoid);
    }
    forall from: nat, avoid: string
      ensures Recurs(Alternating, from, RealCaptions(), avoid)
    {
      AlternatingRecurs(RealCaptions(), from, avoid);
    }
    forall from: nat, avoid: seq<Message>
      ensures Recurs(Alternating, from, RealConversations(), avoid)
    {
      AlternatingRecurs(RealConversations(), from, avoid);
    }
  }

  /** What the platform's manipulator may return for `kind`. */
  ghost predicate IsManipulation(original: Post, kind: Kind, data: Post) {
    match original
    case TweetPost(t) => data.TweetPost? && IsTweetManipulation(t, kind, data.tweet)
    case PhotoPost(p) => data.PhotoPost? && IsPhotoManipulation(p, kind, data.photo)
    case ChatPost(c) => data.ChatPost? && IsChatManipulation(c, kind, data.chat)
  }

  /** The manipulator a platform pairs with (main.py's platform table),
      applied to `original`; the streams are left as they were, only the
      positions move. */
  method Manipulate(original: Post, kind: Kind, o: Oracle) returns (data: Post, next: Oracle)
    requires Fair(o.draws)
    ensures IsManipulation(original, kind, data)
    ensures data.PlatformOf() == original.PlatformOf()
    ensures next == o.(pos := next.pos, namePos := next.namePos)
    ensures o.pos <= next.pos && o.namePos <= next.namePos
  {
    match original
    case TweetPost(t) =>
      var tweet;
      tweet, next := ManipulateTwitter(t, kind, o);
      data := TweetPost(tweet);
    case PhotoPost(p) =>
      var photo;
      photo, next := ManipulateInstagram(p, kind, o);
      data := PhotoPost(photo);
    case ChatPost(c) =>
      var chat;
      chat, next := ManipulateWhatsApp(c, kind, o);
      data := ChatPost(chat);
  }
}
