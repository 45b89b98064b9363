# Social-media screenshot dataset generator — data model

This project models the data side of a generator of labelled screenshots of
fake social-media posts (Twitter, Instagram and WhatsApp), used to train
classifiers that tell authentic screenshots from manipulated ones. It covers:

- the content corpus (`config.dfy`, `generators.dfy`): the constant pools of
  tweets, captions, conversations and avatar colours, and the formatting and
  sampling helpers `get_initials`, `generate_username`, `format_number`,
  `generate_timestamp`, `generate_time` and the pool pickers;
- authentic field synthesis (`screenshots.dfy`): the draws each
  `create_*_screenshot` makes and the record it returns, the Instagram
  comments label, and the clock times a chat's messages get when rendered;
- the manipulation engine (`manipulations.dfy`): `manipulate_twitter`,
  `manipulate_instagram` and `manipulate_whatsapp` as copy-then-mutate on
  immutable records, with the resample-until-different loops as a `while`
  loop;
- the ledger orchestration (`labels.dfy`, `dataset.dfy`): the
  platform × post × manipulation traversal of `generate_dataset`, the label
  rows it appends to the module-level list (a `Ledger` class whose only
  operation is `Append`), the file-name scheme, counts, order and
  referential integrity.

Randomness is an explicit input (`Rng.Oracle`): an infinite stream of raw
draws read at a position, where every `randint`, `choice`, `random` and
`uniform` consumes one draw; Faker's `fake.name()` is a separate stream of
names; the calendar date "d days ago" is a third input. Every operation
returns the oracle it leaves behind, so the order of draws is the source's.

The untyped dictionaries become three record datatypes (`Records.Tweet`,
`Records.Photo`, `Records.Chat`) and a union `Records.Post`; a Twitter kind
can therefore never be applied to a WhatsApp record. The manipulation type
stays open: the nine names the manipulators test for are constructors of
`Manipulations.Kind`, and any other string is `Unrecognised`, which — as in
the source, whose if/elif chains have no `else` and raise nothing — returns
an unchanged copy. The source raises no error for a kind outside a
platform's list; the model follows the code there.

The resample loops (`while new == original: new = choice(pool)`) stop only
if some later draw picks a different entry; `Manipulations.Resample`
requires exactly that (`Rng.Recurs`), and the traversal requires it of every
position (`Manipulations.Fair`). `Manipulations.AlternatingIsFair` shows the
requirement can be met with the pools as configured.

## Model

| member | source | states |
|---|---|---|
| Generators.GenerateAvatarColor | src/generators.py:17-33 | the colour is a member of the avatar colour pool; one draw is consumed |
| Generators.GenerateTweetText | src/generators.py:93-113 | the text is a member of the tweet pool; one draw is consumed |
| Generators.GenerateInstagramCaption | src/generators.py:116-136 | the caption is a member of the caption pool; one draw is consumed |
| Generators.GenerateWhatsAppMessages | src/generators.py:139-161 | the conversation is one whole entry of the conversation pool; one draw is consumed |
| Text.SplitSound | src/generators.py:60 | `str.split()` yields non-empty whitespace-free tokens that together hold exactly the non-whitespace characters of the name, in order |
| Generators.GetInitials | src/generators.py:36-63 | the empty name gives "?"; every result is non-empty and already upper-case |
| Generators.InitialsOfTwoWords | src/generators.py:60-62 | a name with at least two tokens (any surrounding whitespace) gives the upper-cased first characters of tokens 1 and 2 |
| Generators.InitialsOfOneWord | src/generators.py:63 | a single token gives its first character upper-cased |
| Generators.InitialsOfPaddedWord | src/generators.py:60-63 | with fewer than two tokens and leading whitespace, the result is that whitespace character (the raw first character), not a letter |
| Generators.InitialsOfBlank | src/generators.py:63 | a non-empty whitespace-only name gives its first character, not "?" |
| Generators.InitialsExampleTwoWords | src/generators.py:53-54 | "Maria Santos" gives "MS" |
| Generators.InitialsExampleOneWord | src/generators.py:55-56 | "João" gives "J" |
| Generators.GenerateUsername | src/generators.py:87-90 | the username is "@" + the lower-cased name without ' ' + one of "_oficial", "_real", "br" or str(n) with n in [1, 999]; two draws are consumed |
| Generators.InstagramUsername | src/screenshots.py:141 | removing every '@' from a generated username leaves the handle with its '@'s removed plus the same suffix, and no '@' at all |
| Generators.FormatNumber | src/generators.py:191-195 | below 1000 (negatives included) the text is str(n); from 1000 it is one-decimal thousands with 'K', from a million one-decimal millions with 'M', within half a unit of the last digit |
| Generators.FormatNumberSmallRoundTrip | src/generators.py:195 | below 1000 the text reads back as the number |
| Generators.FormatNumberUnit | src/generators.py:191-195 | the text ends in 'M' exactly when n >= 1000000, in 'K' exactly when 1000 <= n < 1000000, and in a digit otherwise |
| Generators.FormatNumberExamples | src/generators.py:184-189 | 1500 gives "1.5K", 2500000 gives "2.5M", 999 gives "999" |
| Generators.FormatNumberBelowMillion | src/generators.py:191-194 | 999999 is shown as "1000.0K": the thousands form can round up to four digits |
| Generators.GenerateTimestamp | src/generators.py:227-239 | no argument draws d in [0, 7] and always gives "<h>h" (1..23) or "<d>d" (1..7); 0 gives "<h>h" with h in [1, 23]; 1 gives "1d"; 2..7 give "<d>d"; a negative d gives "-<|d|>d"; above 7 the date d days ago |
| Generators.GenerateTime | src/generators.py:260-262 | five characters "HH:MM", both fields two digits, hour <= 23 and minute <= 59; two draws |
| Screenshots.CreateTwitterScreenshot | src/screenshots.py:51-107 | the record has a username generated from its name, a pool text, reply in [5, 500], retweet in [10, 2000], quote in [5, 800], like in [50, 10000], view in [1000, 100000], a relative timestamp, a pool colour and initials = get_initials(name); one Faker name is used |
| Screenshots.CreateInstagramScreenshot | src/screenshots.py:139-184 | the username is a generated username with every '@' removed, the caption is from the pool, like in [50, 50000], comments in [5, 1000], relative timestamp, pool colour, initials = get_initials(name) |
| Screenshots.CreateWhatsAppScreenshot | src/screenshots.py:217-256 | one whole pool conversation, a date badge from d in [0, 3] ("<h>h", "1d", "2d" or "3d"), a pool colour and initials = get_initials(contact_name) |
| Screenshots.CreateScreenshot | main.py:77-89 | each platform's creator yields an authentic record of that platform |
| Screenshots.DateBadgeIsRelative | src/screenshots.py:220 | every date badge is a valid relative timestamp |
| Screenshots.CommentsLabel | src/screenshots.py:157 | the singular "Ver comentário" exactly when the count is <= 1; otherwise "Ver todos os <n> comentários" with digits reading back as the count |
| Screenshots.AuthenticLabelIsPlural | src/screenshots.py:146-157 | with the synthesis range, the label of an authentic post is always the plural one |
| Screenshots.MessageTimesAt | src/screenshots.py:238-239 | message i shows the time drawn from the 2i-th draw on: two draws per message |
| Screenshots.MessageTimesAreClockTimes | src/screenshots.py:238-239 | every rendered message shows a well-formed "HH:MM" time |
| Screenshots.RenderMessageTimes | src/screenshots.py:238-245 | the rendering loop draws one clock time per message, in order, each well-formed |
| Manipulations.ParseKind | src/manipulations.py:51-77 | the kind a manipulation_type string selects reads back as that string; it is Unrecognised exactly when the string is none of the nine names |
| Manipulations.ParseKindName | src/manipulations.py:51-77 | the nine names are pairwise distinct: each recognised kind is selected by its own name |
| Manipulations.Trunc | src/manipulations.py:54 | `int(x)` truncates toward zero |
| Manipulations.ScaleBounds | src/manipulations.py:53-56 | a non-negative count scaled by a factor in [lo, hi] lies between the truncated low end and count × hi |
| Manipulations.MetricsFactor | src/manipulations.py:53 | the metrics factor lies in [0.5, 1.5]; one draw |
| Manipulations.CombinedFactor | src/manipulations.py:75 | the combined factor lies in [0.7, 1.3]; one draw |
| Manipulations.Resample | src/manipulations.py:60-63 | the loop returns a pool entry different from the original: the pick of the first draw that differs, every earlier draw having picked the original |
| Manipulations.ScaleTweetMetrics | src/manipulations.py:53-56 | reply and quote counts are left as they were |
| Manipulations.ManipulateTwitter | src/manipulations.py:49-77 | metrics_change scales like, retweet and view by one factor in [0.5, 1.5] and nothing else; text_change gives a new pool text ≠ the original's and nothing else; verification_change flips verified only; username_change rebuilds the username with '@' from the name; combined scales like (factor in [0.7, 1.3]) and flips verified; any other kind returns the record unchanged |
| Manipulations.TweetManipulationDiffers | src/manipulations.py:58-77 | text, verification and combined changes always give a tweet different from the original |
| Manipulations.TweetManipulationKeepsAuthentic | src/manipulations.py:58-71 | text, verification and username changes keep every property of an authentic tweet |
| Manipulations.TweetVerificationInvolution | src/manipulations.py:65-67 | flipping verified twice gives the original back |
| Manipulations.ManipulateInstagram | src/manipulations.py:133-159 | metrics_change scales like only; caption_change gives a new pool caption ≠ the original's; verification_change flips verified; username_change rebuilds the username with every '@' removed; combined scales like (factor in [0.7, 1.3]) and forces a new caption; other kinds return the record unchanged |
| Manipulations.PhotoManipulationDiffers | src/manipulations.py:139-159 | caption, verification and combined changes always give a post different from the original |
| Manipulations.PhotoManipulationKeepsAuthentic | src/manipulations.py:139-150 | caption, verification and username changes keep every property of an authentic post |
| Manipulations.PhotoCombinedKeepsVerified | src/manipulations.py:152-159 | the Instagram combined change leaves verified and the comment count as they were |
| Manipulations.ManipulateWhatsApp | src/manipulations.py:210-236 | message_change gives a new pool conversation ≠ the original; contact_change takes the next Faker name and sets initials = get_initials of it; combined does both; time_change and other kinds return the record unchanged |
| Manipulations.ChatManipulationKeepsAuthentic | src/manipulations.py:212-236 | every WhatsApp manipulation keeps every property of an authentic conversation |
| Manipulations.ChatManipulationDiffers | src/manipulations.py:212-236 | message and combined changes always differ from the original; time_change returns the original |
| Manipulations.AlternatingIsFair | src/config.py:36-142 | every pool has two distinct entries, so a draw stream exists under which every resample loop stops |
| Manipulations.Manipulate | main.py:77-81 | each platform's manipulator keeps the platform and returns one of the manipulations its kind allows |
| Labels.ManipulationKinds | main.py:103-120 | each platform has three distinct recognised kinds, in the declared order |
| Labels.SlotFilenameInjective | main.py:88-123 | "<platform>_<iii>.png" and "<platform>_<iii>_manip_<j>.png" names determine platform, post and slot |
| Labels.AuthenticRow | main.py:92-98 | the authentic row has class 'autentico', type 'none' and itself as original file |
| Labels.ManipulatedRow | main.py:122-134 | manipulated row j has file "<platform>_<iii>_manip_<j+1>.png", class 'manipulado' and the authentic file of its post as original |
| Labels.ManipulatedRowKind | main.py:125-131 | a manipulated row's type selects, in the manipulator, exactly the kind applied |
| Labels.PostRowsAt | main.py:88-134 | a post's rows are its authentic row followed by its manipulated rows in kind order |
| Labels.PlatformRowsTotals | main.py:86-134 | a platform's n posts give n authentic and 3n manipulated rows, 4n in all |
| Labels.DatasetTotals | main.py:70-71 | the ledger holds n × 3 authentic rows, n × 3 × 3 manipulated rows and n × 3 × 4 rows in all |
| Labels.ConfiguredDatasetTotals | src/config.py:32-33 | with 20 posts per platform: 60 authentic, 180 manipulated, 240 rows |
| Labels.DatasetRowsOrder | main.py:77-134 | the ledger is every twitter row, then every instagram row, then every whatsapp row |
| Labels.PlatformRowsAt | main.py:86-134 | within a platform, row 4i + s is slot s of post i: posts ascending, each post's authentic row followed by its three manipulated rows |
| Labels.RowsOfPlatformsResolve | main.py:122-134 | every manipulated row names as original an authentic row of the same network earlier in the ledger; authentic rows name themselves |
| Labels.DatasetRowsSound | main.py:88-134 | file names in the ledger are pairwise distinct and every original reference resolves |
| Dataset.Ledger.constructor | main.py:30 | the ledger starts empty |
| Dataset.Ledger.Append | main.py:92 | appending adds exactly one row at the end; earlier rows are unchanged |
| Dataset.CaptureAuthentic | main.py:88-98 | creates an authentic record of the platform and appends its authentic row |
| Dataset.CaptureManipulation | main.py:123-134 | applies the platform's j-th kind to the authentic record and appends manipulated row j |
| Dataset.CaptureManipulations | main.py:122-134 | every manipulation is derived from the same authentic record, never chained; the ledger gains the post's manipulated rows in order |
| Dataset.CapturePost | main.py:86-134 | one post adds its authentic row then its manipulated rows |
| Dataset.CapturePlatform | main.py:86-134 | posts 0 .. n-1 of one platform, in order |
| Dataset.GenerateDataset | main.py:77-134 | the ledger gains exactly the rows of the traversal, whatever the draws, and each post's captures are authentic records and manipulations of them |

## Left out

- Rendering through Playwright (page navigation, script evaluation, screenshots, the browser lifecycle, the text escaping): external I/O. Only the clock-time draws a chat's rendering makes are kept, because they move the random stream.
- The CSV export through pandas and the statistics printed at the end: a library call and console output; the rows themselves are modelled.
- Seeding, Faker construction and directory creation in the configuration: process-wide side effects of a foreign library; the pools and counts are kept as data.
- Python's Mersenne Twister and how `_randbelow` turns machine words into a value: each primitive is modelled as consuming one abstract draw, so the model fixes the order of draws, not their numeric values for a given seed.
- `asyncio`: the awaits are strictly sequential and are modelled as ordinary sequential calls.
- Generators.FormatNumber: rounds exact halves upward on the exact quotient, whereas `.1f` rounds the binary float, so at ties such as 1250 (Python shows "1.2K") and 1150 the last digit can differ.
- Generators.GenerateTimestamp: the absolute-date branch takes the formatted date from an input, since it depends on the current time.
- Generators.GetInitials: upper-casing covers ASCII and Latin-1 only (with 'ß' as "SS"); other scripts are left unchanged.
- Generators.GenerateUsername: lower-casing covers ASCII and Latin-1 only.
- Manipulations.Scale: `int(count * factor)` is computed on exact reals, not on binary floats, so a product that lands within float error of an integer may truncate differently.
- Manipulations.Resample: the source loops forever when every later draw picks the original; the model requires a stream under which the loop stops.
- `src/__init__.py` only re-exports names and is not part of this model.
