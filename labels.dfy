/** The label ledger main.py's `generate_dataset` builds: one row per
    screenshot, in the order the screenshots are taken, with the file
    names it gives them. The rows are values; the list they are appended
    to is the `Ledger` class of the Dataset module. */
module Labels {
  import opened Text
  import opened Config
  import opened Records
  import opened Manipulations

  const NO_MANIPULATION := "none"

  /** The `class` column: one of two labels. */
  datatype Class = Authentic | Manipulated

  /** The label written to the CSV for a class. */
  function ClassName(c: Class): string {
    match c
    case Authentic => "autentico"
    case Manipulated => "manipulado"
  }

  /** One label row, with the keys filename, class, manipulation_type,
      original_filename and social_network. */
  datatype Row = Row(
    filename: string,
    category: Class,
    manipulationType: string,
    originalFilename: string,
    socialNetwork: string)

  /** The platform table, in traversal order. */
  const PLATFORMS: seq<Platform> := [Twitter, Instagram, WhatsApp]

  function PlatformName(p: Platform): string {
    match p
    case Twitter => "twitter"
    case Instagram => "instagram"
    case WhatsApp => "whatsapp"
  }

  /** Platform names start with distinct letters, none of them a digit. */
  lemma PlatformNameInjective(p: Platform, q: Platform)
    ensures |PlatformName(p)| > 0 && !IsDigit(PlatformName(p)[0])
    ensures PlatformName(p)[0] == PlatformName(q)[0] ==> p == q
  {
  }

  /** The manipulation kinds applied to each post of a platform, in order. */
  function ManipulationKinds(p: Platform): (r: seq<Kind>)
    ensures |r| == MANIPULATIONS_PER_POST
    ensures forall j :: 0 <= j < |r| ==> !r[j].Unrecognised?
    ensures forall j, k :: 0 <= j < k < |r| ==> r[j] != r[k]
  {
    match p
    case Twitter => [MetricsChange, TextChange, VerificationChange]
    case Instagram => [MetricsChange, CaptionChange, VerificationChange]
    case WhatsApp => [TimeChange, MessageChange, ContactChange]
  }

  // ------------------------------------------------------------ file names

  /** What follows the post number: ".png" for the authentic screenshot
      (slot 0), "_manip_<s>.png" for manipulation `s` (from 1). */
  function SlotSuffix(s: nat): (r: string)
    ensures |r| > 0 && !IsDigit(r[0])
    ensures r[0] == '.' <==> s == 0
  {
    if s == 0 then ".png" else "_manip_" + NatToString(s) + ".png"
  }

  /** The file name of slot `s` of post `i`: `<platform>_<iii>.png` or
      `<platform>_<iii>_manip_<s>.png`. */
  function SlotFilename(p: Platform, i: nat, s: nat): (r: string)
    ensures |r| > 0 && r[0] == PlatformName(p)[0]
  {
    PlatformName(p) + "_" + (ZeroPad(i, 3) + SlotSuffix(s))
  }

  lemma SlotSuffixInjective(s: nat, t: nat)
    requires SlotSuffix(s) == SlotSuffix(t)
    ensures s == t
  {
    if s != 0 && t != 0 {
      var m := "_manip_";
      assert SlotSuffix(s) == m + (NatToString(s) + ".png");
      assert SlotSuffix(t) == m + (NatToString(t) + ".png");
      assert NatToString(s) + ".png" == SlotSuffix(s)[|m|..];
      DigitRunUnique(NatToString(s), ".png", NatToString(t), ".png");
      NatToStringInjective(s, t);
    }
  }

  /** The platform name ahead of the first '_' is read back. */
  lemma HeadInjective(p: Platform, x: string, q: Platform, y: string)
    requires PlatformName(p) + "_" + x == PlatformName(q) + "_" + y
    ensures p == q && x == y
  {
    var s := PlatformName(p) + "_" + x;
    PlatformNameInjective(p, q);
    assert s[0] == PlatformName(p)[0];
    assert x == s[|PlatformName(p)| + 1..];
  }

  /** A zero-padded post number followed by a non-digit is read back. */
  lemma PaddedInjective(i: nat, x: string, k: nat, y: string)
    requires |x| > 0 && |y| > 0 && !IsDigit(x[0]) && !IsDigit(y[0])
    requires ZeroPad(i, 3) + x == ZeroPad(k, 3) + y
    ensures i == k && x == y
  {
    DigitRunUnique(ZeroPad(i, 3), x, ZeroPad(k, 3), y);
    ParseZeroPad(i, 3);
    ParseZeroPad(k, 3);
  }

  /** Different screenshots get different file names: the name reads back
      as its platform, post number and slot. */
  lemma SlotFilenameInjective(p: Platform, i: nat, s: nat, q: Platform, k: nat, t: nat)
    requires SlotFilename(p, i, s) == SlotFilename(q, k, t)
    ensures p == q && i == k && s == t
  {
    HeadInjective(p, ZeroPad(i, 3) + SlotSuffix(s), q, ZeroPad(k, 3) + SlotSuffix(t));
    PaddedInjective(i, SlotSuffix(s), k, SlotSuffix(t));
    SlotSuffixInjective(s, t);
  }

  // ------------------------------------------------------------------ rows

  /** The row of the authentic screenshot of post `i`: it names itself as
      its own original. */
  function AuthenticRow(p: Platform, i: nat): (r: Row)
    ensures r.filename == SlotFilename(p, i, 0)
    ensures r.category == Authentic && r.manipulationType == NO_MANIPULATION
    ensures r.originalFilename == r.filename && r.socialNetwork == PlatformName(p)
  {
    var name := SlotFilename(p, i, 0);
    Row(name, Authentic, NO_MANIPULATION, name, PlatformName(p))
  }

  /** The row of manipulation `j` (from 0) of post `i`: its file name
      counts from 1, it names the authentic screenshot of the same post as
      its original, and its type reads back as the kind applied. */
  function ManipulatedRow(p: Platform, i: nat, j: nat): (r: Row)
    requires j < MANIPULATIONS_PER_POST
    ensures r.filename == SlotFilename(p, i, j + 1)
    ensures r.category == Manipulated && r.originalFilename == SlotFilename(p, i, 0)
    ensures r.socialNetwork == PlatformName(p)
  {
    Row(SlotFilename(p, i, j + 1), Manipulated, KindName(ManipulationKinds(p)[j]),
        SlotFilename(p, i, 0), PlatformName(p))
  }

  /** A manipulated row's type reads back, through the manipulators'
      if/elif chains, as the kind that was applied. */
  lemma ManipulatedRowKind(p: Platform, i: nat, j: nat)
    requires j < MANIPULATIONS_PER_POST
    ensures ParseKind(ManipulatedRow(p, i, j).manipulationType) == ManipulationKinds(p)[j]
  {
    ParseKindName(ManipulationKinds(p)[j]);
  }

  /** The rows of the first `j` manipulations of post `i`. */
  function ManipulatedRows(p: Platform, i: nat, j: nat): (r: seq<Row>)
    requires j <= MANIPULATIONS_PER_POST
    ensures |r| == j
  {
    if j == 0 then [] else ManipulatedRows(p, i, j - 1) + [ManipulatedRow(p, i, j - 1)]
  }

  /** The rows of post `i`: the authentic row first. */
  function PostRows(p: Platform, i: nat): (r: seq<Row>)
    ensures |r| == 1 + MANIPULATIONS_PER_POST
  {
    [AuthenticRow(p, i)] + ManipulatedRows(p, i, MANIPULATIONS_PER_POST)
  }

  /** The rows of posts 0 .. n-1 of one platform. */
  function PlatformRows(p: Platform, n: nat): (r: seq<Row>)
    ensures |r| == (1 + MANIPULATIONS_PER_POST) * n
  {
    if n == 0 then [] else PlatformRows(p, n - 1) + PostRows(p, n - 1)
  }

  /** The rows of the first `k` platforms of the table, `n` posts each. */
  function RowsOfPlatforms(k: nat, n: nat): (r: seq<Row>)
    requires k <= |PLATFORMS|
    ensures |r| == (1 + MANIPULATIONS_PER_POST) * (k * n)
  {
    if k == 0 then [] else RowsOfPlatforms(k - 1, n) + PlatformRows(PLATFORMS[k - 1], n)
  }

  /** The whole ledger for `n` posts per platform. */
  function DatasetRows(n: nat): seq<Row> {
    RowsOfPlatforms(|PLATFORMS|, n)
  }

  // ------------------------------------------------------- shape of a post

  lemma {:induction false} ManipulatedRowsAt(p: Platform, i: nat, j: nat)
    requires j <= MANIPULATIONS_PER_POST
    ensures |ManipulatedRows(p, i, j)| == j
    ensures forall k :: 0 <= k < j ==> ManipulatedRows(p, i, j)[k] == ManipulatedRow(p, i, k)
  {
    if j > 0 {
      ManipulatedRowsAt(p, i, j - 1);
    }
  }

  /** A post's rows: the authentic row, then manipulation 0, 1, 2 in the
      platform's kind order. */
  lemma PostRowsAt(p: Platform, i: nat)
    ensures |PostRows(p, i)| == 1 + MANIPULATIONS_PER_POST
    ensures PostRows(p, i)[0] == AuthenticRow(p, i)
    ensures forall k :: 0 <= k < MANIPULATIONS_PER_POST ==> PostRows(p, i)[k + 1] == ManipulatedRow(p, i, k)
  {
    ManipulatedRowsAt(p, i, MANIPULATIONS_PER_POST);
  }

  /** Slot `s` of a post's rows is the screenshot named for slot `s`. */
  lemma PostRowsFilenames(p: Platform, i: nat)
    ensures forall s :: 0 <= s < |PostRows(p, i)| ==> PostRows(p, i)[s].filename == SlotFilename(p, i, s)
  {
    PostRowsAt(p, i);
    forall s | 0 <= s < |PostRows(p, i)|
      ensures PostRows(p, i)[s].filename == SlotFilename(p, i, s)
    {
      if s > 0 {
        assert PostRows(p, i)[(s - 1) + 1] == ManipulatedRow(p, i, s - 1);
      }
    }
  }

  // ---------------------------------------------------------------- totals

  /** How many rows carry the class `c`. */
  function CountClass(rows: seq<Row>, c: Class): nat {
    if rows == [] then 0
    else CountClass(rows[..|rows| - 1], c) + (if rows[|rows| - 1].category == c then 1 else 0)
  }

  lemma {:induction false} CountClassAppend(a: seq<Row>, b: seq<Row>, c: Class)
    ensures CountClass(a + b, c) == CountClass(a, c) + CountClass(b, c)
    decreases |b|
  {
    if b == [] {
      assert a + b == a;
    } else {
      assert (a + b)[..|a + b| - 1] == a + b[..|b| - 1];
      CountClassAppend(a, b[..|b| - 1], c);
    }
  }

  lemma {:induction false} ManipulatedRowsTotals(p: Platform, i: nat, j: nat)
    requires j <= MANIPULATIONS_PER_POST
    ensures CountClass(ManipulatedRows(p, i, j), Authentic) == 0
    ensures CountClass(ManipulatedRows(p, i, j), Manipulated) == j
  {
    if j > 0 {
      var row := ManipulatedRow(p, i, j - 1);
      ManipulatedRowsTotals(p, i, j - 1);
      CountClassAppend(ManipulatedRows(p, i, j - 1), [row], Authentic);
      CountClassAppend(ManipulatedRows(p, i, j - 1), [row], Manipulated);
      assert [row][..0] == [];
    }
  }

  /** `rows` are the rows of `posts` whole posts: one authentic row and
      MANIPULATIONS_PER_POST manipulated rows each. */
  ghost predicate HasTotals(rows: seq<Row>, posts: nat) {
    && |rows| == (1 + MANIPULATIONS_PER_POST) * posts
    && CountClass(rows, Authentic) == posts
    && CountClass(rows, Manipulated) == MANIPULATIONS_PER_POST * posts
  }

  lemma TotalsAppend(a: seq<Row>, x: nat, b: seq<Row>, y: nat)
    requires HasTotals(a, x) && HasTotals(b, y)
    ensures HasTotals(a + b, x + y)
  {
    CountClassAppend(a, b, Authentic);
    CountClassAppend(a, b, Manipulated);
  }

  /** Each post contributes one authentic row and one manipulated row per
      manipulation. */
  lemma PostRowsTotals(p: Platform, i: nat)
    ensures HasTotals(PostRows(p, i), 1)
  {
    var a := [AuthenticRow(p, i)];
    PostRowsAt(p, i);
    ManipulatedRowsTotals(p, i, MANIPULATIONS_PER_POST);
    CountClassAppend(a, ManipulatedRows(p, i, MANIPULATIONS_PER_POST), Authentic);
    CountClassAppend(a, ManipulatedRows(p, i, MANIPULATIONS_PER_POST), Manipulated);
    assert a[..0] == [];
  }

  lemma {:induction false} PlatformRowsTotals(p: Platform, n: nat)
    ensures HasTotals(PlatformRows(p, n), n)
  {
    if n > 0 {
      PlatformRowsTotals(p, n - 1);
      PostRowsTotals(p, n - 1);
      TotalsAppend(PlatformRows(p, n - 1), n - 1, PostRows(p, n - 1), 1);
    } else {
      assert CountClass([], Authentic) == 0 && CountClass([], Manipulated) == 0;
    }
  }

  lemma {:induction false} RowsOfPlatformsTotals(k: nat, n: nat)
    requires k <= |PLATFORMS|
    ensures HasTotals(RowsOfPlatforms(k, n), k * n)
  {
    if k > 0 {
      RowsOfPlatformsTotals(k - 1, n);
      PlatformRowsTotals(PLATFORMS[k - 1], n);
      TotalsAppend(RowsOfPlatforms(k - 1, n), (k - 1) * n, PlatformRows(PLATFORMS[k - 1], n), n);
      MultiplyStep(k, n);
    } else {
      assert CountClass([], Authentic) == 0 && CountClass([], Manipulated) == 0;
    }
  }

  lemma MultiplyStep(k: nat, n: nat)
    requires k > 0
    ensures (k - 1) * n + n == k * n
  {
  }

  /** The totals main.py announces before it starts, for `n` posts per
      platform over the three platforms: `n * 3` authentic screenshots,
      `n * 3 * MANIPULATIONS_PER_POST` manipulated ones, and their sum. */
  lemma DatasetTotals(n: nat)
    ensures CountClass(DatasetRows(n), Authentic) == n * 3
    ensures CountClass(DatasetRows(n), Manipulated) == n * 3 * MANIPULATIONS_PER_POST
    ensures |DatasetRows(n)| == n * 3 * (1 + MANIPULATIONS_PER_POST)
  {
    RowsOfPlatformsTotals(|PLATFORMS|, n);
  }

  /** The rows of a post's slots come `1 + MANIPULATIONS_PER_POST` at a
      time: row `s` of post `i` sits at `(1 + MANIPULATIONS_PER_POST) * i + s`. */
  lemma {:induction false} PlatformRowsAt(p: Platform, n: nat, i: nat, s: nat)
    requires i < n && s <= MANIPULATIONS_PER_POST
    ensures PlatformRows(p, n)[(1 + MANIPULATIONS_PER_POST) * i + s] == PostRows(p, i)[s]
  {
    assert 1 + MANIPULATIONS_PER_POST == 4;
    var earlier, last := PlatformRows(p, n - 1), PostRows(p, n - 1);
    assert PlatformRows(p, n) == earlier + last;
    assert |earlier| == 4 * (n - 1);
    if i < n - 1 {
      PlatformRowsAt(p, n - 1, i, s);
      assert 4 * i + s < 4 * (n - 1);
      assert (earlier + last)[4 * i + s] == earlier[4 * i + s];
    } else {
      assert (earlier + last)[4 * i + s] == last[s];
    }
  }

  /** The ledger in emission order: all Twitter rows, then all Instagram
      rows, then all WhatsApp rows; within a platform, `PlatformRowsAt`
      places each post's rows in index order. */
  lemma DatasetRowsOrder(n: nat)
    ensures DatasetRows(n)
            == PlatformRows(Twitter, n) + PlatformRows(Instagram, n) + PlatformRows(WhatsApp, n)
  {
    var tw, ig, wa := PlatformRows(Twitter, n), PlatformRows(Instagram, n), PlatformRows(WhatsApp, n);
    assert PLATFORMS[0] == Twitter && PLATFORMS[1] == Instagram && PLATFORMS[2] == WhatsApp;
    assert RowsOfPlatforms(0, n) == [];
    assert RowsOfPlatforms(1, n) == [] + tw == tw;
    assert RowsOfPlatforms(2, n) == tw + ig;
    assert RowsOfPlatforms(3, n) == tw + ig + wa;
  }

  /** With the configured twenty posts per platform, main.py announces 60
      authentic and 180 manipulated screenshots, 240 in all. */
  lemma ConfiguredDatasetTotals()
    ensures CountClass(DatasetRows(POSTS_PER_PLATFORM), Authentic) == 60
    ensures CountClass(DatasetRows(POSTS_PER_PLATFORM), Manipulated) == 180
    ensures |DatasetRows(POSTS_PER_PLATFORM)| == 240
  {
    DatasetTotals(POSTS_PER_PLATFORM);
  }

  // ---------------------------------------------------------------- origins

  /** Every manipulated row names as its original an authentic row of the
      same network that comes earlier in the ledger; every authentic row
      names itself. */
  ghost predicate Resolves(rows: seq<Row>) {
    && (forall k :: 0 <= k < |rows| && rows[k].category == Authentic ==>
          rows[k].originalFilename == rows[k].filename)
    && (forall k :: 0 <= k < |rows| && rows[k].category == Manipulated ==>
          exists a :: (0 <= a < k && rows[a].category == Authentic
                       && rows[a].filename == rows[k].originalFilename
                       && rows[a].socialNetwork == rows[k].socialNetwork))
  }

  lemma ResolvesAppend(a: seq<Row>, b: seq<Row>)
    requires Resolves(a) && Resolves(b)
    ensures Resolves(a + b)
  {
    var ab := a + b;
    forall k | 0 <= k < |ab| && ab[k].category == Manipulated
      ensures exists x :: (0 <= x < k && ab[x].category == Authentic
                           && ab[x].filename == ab[k].originalFilename
                           && ab[x].socialNetwork == ab[k].socialNetwork)
    {
      if k < |a| {
        var x :| 0 <= x < k && a[x].category == Authentic
          && a[x].filename == a[k].originalFilename && a[x].socialNetwork == a[k].socialNetwork;
        assert ab[x] == a[x];
      } else {
        assert ab[k] == b[k - |a|];
        var x :| 0 <= x < k - |a| && b[x].category == Authentic
          && b[x].filename == b[k - |a|].originalFilename && b[x].socialNetwork == b[k - |a|].socialNetwork;
        assert ab[x + |a|] == b[x];
      }
    }
  }

  lemma PostRowsResolve(p: Platform, i: nat)
    ensures Resolves(PostRows(p, i))
  {
    var rows := PostRows(p, i);
    PostRowsAt(p, i);
    forall k | 0 <= k < |rows|
      ensures rows[k].category == (if k == 0 then Authentic else Manipulated)
      ensures rows[k].originalFilename == rows[0].filename
      ensures rows[k].socialNetwork == rows[0].socialNetwork
    {
      if k > 0 {
        assert rows[(k - 1) + 1] == ManipulatedRow(p, i, k - 1);
      }
    }
  }

  lemma {:induction false} PlatformRowsResolve(p: Platform, n: nat)
    ensures Resolves(PlatformRows(p, n))
  {
    if n > 0 {
      PlatformRowsResolve(p, n - 1);
      PostRowsResolve(p, n - 1);
      ResolvesAppend(PlatformRows(p, n - 1), PostRows(p, n - 1));
    }
  }

  /** The ledger is referentially whole: no manipulated row points at a
      screenshot that is missing or that was not taken before it. */
  lemma {:induction false} RowsOfPlatformsResolve(k: nat, n: nat)
    requires k <= |PLATFORMS|
    ensures Resolves(RowsOfPlatforms(k, n))
  {
    if k > 0 {
      RowsOfPlatformsResolve(k - 1, n);
      PlatformRowsResolve(PLATFORMS[k - 1], n);
      ResolvesAppend(RowsOfPlatforms(k - 1, n), PlatformRows(PLATFORMS[k - 1], n));
    }
  }

  // -------------------------------------------------------- distinct names

  /** No two rows share a file name, so no screenshot overwrites another. */
  ghost predicate DistinctFilenames(rows: seq<Row>) {
    forall a, b :: 0 <= a < b < |rows| ==> rows[a].filename != rows[b].filename
  }

  lemma DistinctAppend(a: seq<Row>, b: seq<Row>)
    requires DistinctFilenames(a) && DistinctFilenames(b)
    requires forall x, y :: 0 <= x < |a| && 0 <= y < |b| ==> a[x].filename != b[y].filename
    ensures DistinctFilenames(a + b)
  {
    var ab := a + b;
    forall x, y | 0 <= x < y < |ab|
      ensures ab[x].filename != ab[y].filename
    {
      if y < |a| {
        assert ab[x] == a[x] && ab[y] == a[y];
      } else if x < |a| {
        assert ab[x] == a[x] && ab[y] == b[y - |a|];
      } else {
        assert ab[x] == b[x - |a|] && ab[y] == b[y - |a|];
      }
    }
  }

  lemma PostRowsDistinct(p: Platform, i: nat)
    ensures DistinctFilenames(PostRows(p, i))
  {
    PostRowsFilenames(p, i);
    forall a, b | 0 <= a < b < |PostRows(p, i)|
      ensures PostRows(p, i)[a].filename != PostRows(p, i)[b].filename
    {
      if SlotFilename(p, i, a) == SlotFilename(p, i, b) {
        SlotFilenameInjective(p, i, a, p, i, b);
      }
    }
  }

  /** Every row's name begins with the character `c`. */
  ghost predicate AllBeginWith(rows: seq<Row>, c: char) {
    forall r :: 0 <= r < |rows| ==> |rows[r].filename| > 0 && rows[r].filename[0] == c
  }

  /** No row has the name of a slot of post `n` of `p` or a later one. */
  ghost predicate AvoidsPostsFrom(rows: seq<Row>, p: Platform, n: nat) {
    forall r, i, s :: 0 <= r < |rows| && n <= i ==> rows[r].filename != SlotFilename(p, i, s)
  }

  lemma AllBeginWithAppend(a: seq<Row>, b: seq<Row>, c: char)
    requires AllBeginWith(a, c) && AllBeginWith(b, c)
    ensures AllBeginWith(a + b, c)
  {
    forall r | 0 <= r < |a + b|
      ensures |(a + b)[r].filename| > 0 && (a + b)[r].filename[0] == c
    {
      if r >= |a| {
        assert (a + b)[r] == b[r - |a|];
      } else {
        assert (a + b)[r] == a[r];
      }
    }
  }

  lemma AvoidsAppend(a: seq<Row>, b: seq<Row>, p: Platform, n: nat)
    requires AvoidsPostsFrom(a, p, n) && AvoidsPostsFrom(b, p, n)
    ensures AvoidsPostsFrom(a + b, p, n)
  {
    forall r, i, s | 0 <= r < |a + b| && n <= i
      ensures (a + b)[r].filename != SlotFilename(p, i, s)
    {
      if r >= |a| {
        assert (a + b)[r] == b[r - |a|];
      } else {
        assert (a + b)[r] == a[r];
      }
    }
  }

  lemma AvoidsLater(rows: seq<Row>, p: Platform, m: nat, n: nat)
    requires m <= n && AvoidsPostsFrom(rows, p, m)
    ensures AvoidsPostsFrom(rows, p, n)
  {
  }

  /** The rows of post `j` avoid the slots of every later post. */
  lemma PostRowsAvoid(p: Platform, j: nat)
    ensures AvoidsPostsFrom(PostRows(p, j), p, j + 1)
    ensures AllBeginWith(PostRows(p, j), PlatformName(p)[0])
  {
    PostRowsFilenames(p, j);
    forall r, i, s | 0 <= r < |PostRows(p, j)| && j + 1 <= i
      ensures PostRows(p, j)[r].filename != SlotFilename(p, i, s)
    {
      if SlotFilename(p, j, r) == SlotFilename(p, i, s) {
        SlotFilenameInjective(p, j, r, p, i, s);
      }
    }
  }

  /** Every row of a platform's first `n` posts has a name beginning like
      the platform's name and different from every slot of a later post. */
  lemma {:induction false} PlatformRowsNames(p: Platform, n: nat)
    ensures AllBeginWith(PlatformRows(p, n), PlatformName(p)[0])
    ensures AvoidsPostsFrom(PlatformRows(p, n), p, n)
  {
    if n > 0 {
      var earlier, last := PlatformRows(p, n - 1), PostRows(p, n - 1);
      assert PlatformRows(p, n) == earlier + last;
      PlatformRowsNames(p, n - 1);
      AvoidsLater(earlier, p, n - 1, n);
      PostRowsAvoid(p, n - 1);
      AllBeginWithAppend(earlier, last, PlatformName(p)[0]);
      AvoidsAppend(earlier, last, p, n);
    }
  }

  /** Rows that avoid the slots of post `j` share no name with its rows. */
  lemma AvoidsPost(a: seq<Row>, p: Platform, j: nat)
    requires AvoidsPostsFrom(a, p, j)
    ensures forall x, y :: 0 <= x < |a| && 0 <= y < |PostRows(p, j)| ==>
      a[x].filename != PostRows(p, j)[y].filename
  {
    PostRowsFilenames(p, j);
  }

  /** The rows of one platform's first `n` posts have distinct names. */
  lemma {:induction false} PlatformRowsDistinct(p: Platform, n: nat)
    ensures DistinctFilenames(PlatformRows(p, n))
  {
    if n > 0 {
      var earlier, last := PlatformRows(p, n - 1), PostRows(p, n - 1);
      assert PlatformRows(p, n) == earlier + last;
      PlatformRowsDistinct(p, n - 1);
      PlatformRowsNames(p, n - 1);
      AvoidsPost(earlier, p, n - 1);
      PostRowsDistinct(p, n - 1);
      DistinctAppend(earlier, last);
    }
  }

  /** No row's name begins with any of the characters `cs`. */
  ghost predicate NoneBeginWith(rows: seq<Row>, cs: set<char>) {
    forall r :: 0 <= r < |rows| ==> |rows[r].filename| > 0 && rows[r].filename[0] !in cs
  }

  /** The first letters of the names of platforms `k` onwards. */
  function LaterInitials(k: nat): set<char>
    requires k <= |PLATFORMS|
  {
    set m | k <= m < |PLATFORMS| :: PlatformName(PLATFORMS[m])[0]
  }

  lemma NoneBeginWithAppend(a: seq<Row>, b: seq<Row>, cs: set<char>)
    requires NoneBeginWith(a, cs) && NoneBeginWith(b, cs)
    ensures NoneBeginWith(a + b, cs)
  {
    forall r | 0 <= r < |a + b|
      ensures |(a + b)[r].filename| > 0 && (a + b)[r].filename[0] !in cs
    {
      if r >= |a| {
        assert (a + b)[r] == b[r - |a|];
      } else {
        assert (a + b)[r] == a[r];
      }
    }
  }

  /** No row of the first `k` platforms has a name beginning like the name
      of a platform still to come. */
  lemma {:induction false} RowsOfPlatformsPrefix(k: nat, n: nat)
    requires k <= |PLATFORMS|
    ensures NoneBeginWith(RowsOfPlatforms(k, n), LaterInitials(k))
  {
    if k > 0 {
      var p := PLATFORMS[k - 1];
      var block := PlatformRows(p, n);
      RowsOfPlatformsPrefix(k - 1, n);
      PlatformRowsNames(p, n);
      assert LaterInitials(k) <= LaterInitials(k - 1);
      assert PlatformName(p)[0] !in LaterInitials(k) by {
        forall m | k <= m < |PLATFORMS|
          ensures PlatformName(PLATFORMS[m])[0] != PlatformName(p)[0]
        {
          PlatformNameInjective(PLATFORMS[m], p);
        }
      }
      assert NoneBeginWith(block, LaterInitials(k));
      NoneBeginWithAppend(RowsOfPlatforms(k - 1, n), block, LaterInitials(k));
    }
  }

  /** The rows of the first `k` platforms have distinct names. */
  lemma {:induction false} RowsOfPlatformsDistinct(k: nat, n: nat)
    requires k <= |PLATFORMS|
    ensures DistinctFilenames(RowsOfPlatforms(k, n))
  {
    if k > 0 {
      var p := PLATFORMS[k - 1];
      RowsOfPlatformsDistinct(k - 1, n);
      RowsOfPlatformsPrefix(k - 1, n);
      PlatformRowsDistinct(p, n);
      PlatformRowsNames(p, n);
      assert PlatformName(p)[0] in LaterInitials(k - 1);
      DistinctAppend(RowsOfPlatforms(k - 1, n), PlatformRows(p, n));
    }
  }

  /** The ledger's guarantees: every screenshot gets its own file name,
      and every manipulated one points back at an authentic one taken
      before it on the same network. */
  lemma DatasetRowsSound(n: nat)
    ensures DistinctFilenames(DatasetRows(n))
    ensures Resolves(DatasetRows(n))
  {
    RowsOfPlatformsDistinct(|PLATFORMS|, n);
    RowsOfPlatformsResolve(|PLATFORMS|, n);
  }
}
