/** The ledger traversal of main.py's `generate_dataset`: for each
    platform in turn and each post index, one authentic screenshot and
    its label row, then one manipulated screenshot and label row per
    manipulation kind of the platform. The label rows are the dataset's
    ledger; the CSV export that follows is not part of this model. */
module Dataset {
  import opened Text
  import opened Rng
  import opened Config
  import opened Records
  import opened Screenshots
  import opened Manipulations
  import opened Labels

  // ------------------------------------------------------------ the ledger

  /** The module-level list of label rows, only ever appended to. */
  class Ledger {
    var rows: seq<Row>

    constructor()
      ensures rows == []
    {
      rows := [];
    }

    method Append(row: Row)
      modifies this
      ensures rows == old(rows) + [row]
    {
      rows := rows + [row];
    }
  }

  lemma Associative<T>(a: seq<T>, b: seq<T>, c: seq<T>)
    ensures a + b + c == a + (b + c)
  {
  }

  /** Appending the rows of platform `q` extends the rows of the platforms
      before it. */
  lemma LedgerStep(before: seq<Row>, q: nat, n: nat)
    requires q < |PLATFORMS|
    ensures before + RowsOfPlatforms(q, n) + PlatformRows(PLATFORMS[q], n) == before + RowsOfPlatforms(q + 1, n)
  {
    Associative(before, RowsOfPlatforms(q, n), PlatformRows(PLATFORMS[q], n));
  }

  /** The screenshots of one post: the authentic record and the record
      each manipulation rendered. */
  datatype Capture = Capture(original: Post, manipulated: seq<Post>)

  /** A capture of platform `p`: an authentic record, and for each kind of
      the platform a manipulation of that same record (never of an earlier
      manipulation). */
  ghost predicate IsCaptureOf(c: Capture, p: Platform) {
    && IsAuthentic(c.original) && c.original.PlatformOf() == p
    && |c.manipulated| == MANIPULATIONS_PER_POST
    && forall j :: 0 <= j < MANIPULATIONS_PER_POST ==>
         IsManipulation(c.original, ManipulationKinds(p)[j], c.manipulated[j])
  }

  /** The authentic half of post `i`: create the record, render it
      (drawing its clock times when it is a chat) and append its row. */
  method CaptureAuthentic(ledger: Ledger, p: Platform, i: nat, o: Oracle) returns (original: Post, next: Oracle)
    modifies ledger
    ensures ledger.rows == old(ledger.rows) + [AuthenticRow(p, i)]
    ensures IsAuthentic(original) && original.PlatformOf() == p
    ensures next.draws == o.draws
  {
    var created := CreateScreenshot(p, o);
    original := created.value;
    next := created.next;
    if original.ChatPost? {
      var times;
      times, next := RenderMessageTimes(original.chat.messages, next);
    }
    ledger.Append(AuthenticRow(p, i));
  }

  /** Manipulation `j` of post `i`: apply the platform's `j`-th kind to the
      authentic record, render the result and append its row. */
  method CaptureManipulation(ledger: Ledger, original: Post, p: Platform, i: nat, j: nat, o: Oracle)
    returns (data: Post, next: Oracle)
    requires j < MANIPULATIONS_PER_POST && Fair(o.draws)
    modifies ledger
    ensures ledger.rows == old(ledger.rows) + [ManipulatedRow(p, i, j)]
    ensures IsManipulation(original, ManipulationKinds(p)[j], data)
    ensures next.draws == o.draws
  {
    data, next := Manipulate(original, ManipulationKinds(p)[j], o);
    if data.ChatPost? {
      var times;
      times, next := RenderMessageTimes(data.chat.messages, next);
    }
    ledger.Append(ManipulatedRow(p, i, j));
  }

  /** Appending the manipulation of the next kind keeps every
      manipulation with its kind. */
  lemma ManipulationsExtend(original: Post, p: Platform, done: seq<Post>, data: Post)
    requires |done| < MANIPULATIONS_PER_POST
    requires forall k :: 0 <= k < |done| ==> IsManipulation(original, ManipulationKinds(p)[k], done[k])
    requires IsManipulation(original, ManipulationKinds(p)[|done|], data)
    ensures forall k :: 0 <= k <= |done| ==> IsManipulation(original, ManipulationKinds(p)[k], (done + [data])[k])
  {
    forall k | 0 <= k <= |done|
      ensures IsManipulation(original, ManipulationKinds(p)[k], (done + [data])[k])
    {
      if k < |done| {
        assert (done + [data])[k] == done[k];
      }
    }
  }

  /** The manipulations of post `i`: one per kind of the platform, each
      applied to the same authentic record, in kind order. */
  method CaptureManipulations(ledger: Ledger, original: Post, p: Platform, i: nat, o: Oracle)
    returns (manipulated: seq<Post>, next: Oracle)
    requires Fair(o.draws)
    modifies ledger
    ensures ledger.rows == old(ledger.rows) + ManipulatedRows(p, i, MANIPULATIONS_PER_POST)
    ensures |manipulated| == MANIPULATIONS_PER_POST
    ensures forall k :: 0 <= k < MANIPULATIONS_PER_POST ==>
      IsManipulation(original, ManipulationKinds(p)[k], manipulated[k])
    ensures next.draws == o.draws
  {
    manipulated := [];
    next := o;
    for j := 0 to MANIPULATIONS_PER_POST
      invariant ledger.rows == old(ledger.rows) + ManipulatedRows(p, i, j)
      invariant |manipulated| == j && next.draws == o.draws
      invariant forall k :: 0 <= k < j ==> IsManipulation(original, ManipulationKinds(p)[k], manipulated[k])
    {
      Associative(old(ledger.rows), ManipulatedRows(p, i, j), [ManipulatedRow(p, i, j)]);
      var data;
      data, next := CaptureManipulation(ledger, original, p, i, j, next);
      ManipulationsExtend(original, p, manipulated, data);
      manipulated := manipulated + [data];
    }
  }

  /** Post `i` of platform `p`: the authentic screenshot and its row, then
      its manipulations and their rows. */
  method CapturePost(ledger: Ledger, p: Platform, i: nat, o: Oracle) returns (capture: Capture, next: Oracle)
    requires Fair(o.draws)
    modifies ledger
    ensures ledger.rows == old(ledger.rows) + PostRows(p, i)
    ensures IsCaptureOf(capture, p)
    ensures next.draws == o.draws
  {
    var original, manipulated;
    original, next := CaptureAuthentic(ledger, p, i, o);
    manipulated, next := CaptureManipulations(ledger, original, p, i, next);
    Associative(old(ledger.rows), [AuthenticRow(p, i)], ManipulatedRows(p, i, MANIPULATIONS_PER_POST));
    capture := Capture(original, manipulated);
  }

  /** The captures of one platform: `n` of them, each a capture of that
      platform. */
  ghost predicate IsBlockOf(block: seq<Capture>, p: Platform, n: nat) {
    |block| == n && forall b :: 0 <= b < |block| ==> IsCaptureOf(block[b], p)
  }

  /** Appending the next post's capture keeps every capture with its
      platform. */
  lemma CapturesExtend(captures: seq<Capture>, capture: Capture, p: Platform)
    requires forall b :: 0 <= b < |captures| ==> IsCaptureOf(captures[b], p)
    requires IsCaptureOf(capture, p)
    ensures forall b :: 0 <= b <= |captures| ==> IsCaptureOf((captures + [capture])[b], p)
  {
    forall b | 0 <= b <= |captures|
      ensures IsCaptureOf((captures + [capture])[b], p)
    {
      if b < |captures| {
        assert (captures + [capture])[b] == captures[b];
      }
    }
  }

  /** Posts 0 .. n-1 of platform `p`, in index order. */
  method CapturePlatform(ledger: Ledger, p: Platform, n: nat, o: Oracle) returns (captures: seq<Capture>, next: Oracle)
    requires Fair(o.draws)
    modifies ledger
    ensures ledger.rows == old(ledger.rows) + PlatformRows(p, n)
    ensures IsBlockOf(captures, p, n)
    ensures next.draws == o.draws
  {
    captures := [];
    next := o;
    for i := 0 to n
      invariant ledger.rows == old(ledger.rows) + PlatformRows(p, i)
      invariant |captures| == i && next.draws == o.draws
      invariant forall b :: 0 <= b < i ==> IsCaptureOf(captures[b], p)
    {
      Associative(old(ledger.rows), PlatformRows(p, i), PostRows(p, i));
      var capture;
      capture, next := CapturePost(ledger, p, i, next);
      CapturesExtend(captures, capture, p);
      captures := captures + [capture];
    }
  }

  /** Appending the next platform's block keeps every block with its
      platform. */
  lemma BlocksExtend(blocks: seq<seq<Capture>>, block: seq<Capture>, n: nat)
    requires |blocks| < |PLATFORMS|
    requires forall r :: 0 <= r < |blocks| ==> IsBlockOf(blocks[r], PLATFORMS[r], n)
    requires IsBlockOf(block, PLATFORMS[|blocks|], n)
    ensures forall r :: 0 <= r <= |blocks| ==> IsBlockOf((blocks + [block])[r], PLATFORMS[r], n)
  {
    forall r | 0 <= r <= |blocks|
      ensures IsBlockOf((blocks + [block])[r], PLATFORMS[r], n)
    {
      if r < |blocks| {
        assert (blocks + [block])[r] == blocks[r];
      } else {
        assert (blocks + [block])[r] == block;
      }
    }
  }

  /** `generate_dataset`'s traversal: platforms in table order, posts
      0 .. n-1 of each, where main.py takes `n` from POSTS_PER_PLATFORM.
      `captures[q]` holds the posts of platform `PLATFORMS[q]`, and the
      ledger gains exactly the rows `DatasetRows(n)`, whose totals, file
      names and origins the Labels module proves. */
  method GenerateDataset(ledger: Ledger, n: nat, o: Oracle) returns (captures: seq<seq<Capture>>, next: Oracle)
    requires Fair(o.draws)
    modifies ledger
    ensures ledger.rows == old(ledger.rows) + DatasetRows(n)
    ensures |captures| == |PLATFORMS|
    ensures forall q :: 0 <= q < |PLATFORMS| ==> IsBlockOf(captures[q], PLATFORMS[q], n)
    ensures next.draws == o.draws
  {
    captures := [];
    next := o;
    for q := 0 to |PLATFORMS|
      invariant ledger.rows == old(ledger.rows) + RowsOfPlatforms(q, n)
      invariant |captures| == q && next.draws == o.draws
      invariant forall r :: 0 <= r < q ==> IsBlockOf(captures[r], PLATFORMS[r], n)
    {
      LedgerStep(old(ledger.rows), q, n);
      var block;
      block, next := CapturePlatform(ledger, PLATFORMS[q], n, next);
      BlocksExtend(captures, block, n);
      captures := captures + [block];
    }
  }
}
