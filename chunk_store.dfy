/**
 * The chunked-upload scratch area shared by the four upload handlers.
 *
 * A scratch directory is a map from file name to file contents. Chunk `n`
 * of an upload is stored under `prefix + str(n)` (`chunk_` in the API
 * server, `{file_id}_chunk_` in the project and SVG managers), so sending
 * an index again overwrites it. The received count is the number of names
 * in the directory that start with the prefix; reassembly reads chunks
 * `0 .. total-1` in index order and concatenates them.
 */
module ChunkStore {
  import opened Wrappers
  import opened Strings

  newtype byte = b: int | 0 <= b < 256

  type Bytes = seq<byte>

  type Dir = map<string, Bytes>

  /**
   * The managers' `chunk_info` dictionary; `fileId` is `None` when the
   * client sent no `file_id`.
   */
  datatype ChunkInfo = ChunkInfo(chunkNumber: int, totalChunks: int, fileId: Option<string>, filename: string)

  /** The text of the `ZeroDivisionError` a zero `total_chunks` raises. */
  const DivisionMessage := "division by zero"

  /** Stand-in for the text of the `FileNotFoundError` a missing chunk raises. */
  const MissingChunkMessage := "No such file or directory: chunk"

  function ChunkName(prefix: string, n: int): string {
    Numbered(prefix, n)
  }

  /** The names that `os.listdir` followed by a `startswith(prefix)` filter yields. */
  function NamesWithPrefix(dir: Dir, prefix: string): set<string> {
    set k | k in dir && StartsWith(k, prefix)
  }

  function ReceivedCount(dir: Dir, prefix: string): nat {
    |NamesWithPrefix(dir, prefix)|
  }

  /** Writing chunk `n`: the file for that index is created or overwritten, nothing else changes. */
  function StoreChunk(dir: Dir, prefix: string, n: int, data: Bytes): (d: Dir)
    ensures d.Keys == dir.Keys + {ChunkName(prefix, n)}
    ensures d[ChunkName(prefix, n)] == data
    ensures forall k | k in dir && k != ChunkName(prefix, n) :: d[k] == dir[k]
  {
    dir[ChunkName(prefix, n) := data]
  }

  /** Number of iterations of `for i in range(total)`. */
  function Steps(total: int): nat {
    if total < 0 then 0 else total
  }

  predicate HasChunks(dir: Dir, prefix: string, k: nat) {
    forall i | 0 <= i < k :: ChunkName(prefix, i) in dir
  }

  /** Chunks `0 .. k-1` concatenated in index order. */
  function Joined(dir: Dir, prefix: string, k: nat): Bytes
    requires HasChunks(dir, prefix, k)
  {
    if k == 0 then [] else Joined(dir, prefix, k - 1) + dir[ChunkName(prefix, k - 1)]
  }

  function FirstMissingFrom(dir: Dir, prefix: string, i: nat, n: nat): (r: nat)
    requires i <= n
    ensures i <= r <= n
    ensures forall j | i <= j < r :: ChunkName(prefix, j) in dir
    ensures r < n ==> ChunkName(prefix, r) !in dir
    decreases n - i
  {
    if i == n then n
    else if ChunkName(prefix, i) !in dir then i
    else FirstMissingFrom(dir, prefix, i + 1, n)
  }

  /**
   * Where a reassembly loop over `range(total)` stops: the first index whose
   * chunk file cannot be opened, or `Steps(total)` when every one is there.
   */
  function FirstMissing(dir: Dir, prefix: string, total: int): (k: nat)
    ensures k <= Steps(total) && HasChunks(dir, prefix, k)
    ensures k < Steps(total) ==> ChunkName(prefix, k) !in dir
  {
    FirstMissingFrom(dir, prefix, 0, Steps(total))
  }

  function NamesBelow(prefix: string, k: nat): set<string> {
    set i | 0 <= i < k :: ChunkName(prefix, i)
  }

  /**
   * The API server's reassembly loop (`for i in range(total_chunks)`, reading
   * and appending each chunk). `missing` is the index whose file could not
   * be opened, at which point the loop raised; `out` is what had been
   * written to the output file by then.
   */
  method ReadChunks(dir: Dir, prefix: string, total: int) returns (out: Bytes, missing: Option<nat>)
    ensures missing.None? <==> HasChunks(dir, prefix, Steps(total))
    ensures missing.None? ==> out == Joined(dir, prefix, Steps(total))
    ensures missing.Some? ==> missing.value == FirstMissing(dir, prefix, total)
                              && out == Joined(dir, prefix, missing.value)
  {
    var n := Steps(total);
    out := [];
    var i := 0;
    while i < n
      invariant 0 <= i <= n
      invariant HasChunks(dir, prefix, i)
      invariant i <= FirstMissing(dir, prefix, total)
      invariant out == Joined(dir, prefix, i)
    {
      var name := ChunkName(prefix, i);
      if name !in dir {
        missing := Some(i);
        return;
      }
      out := out + dir[name];
      i := i + 1;
    }
    missing := None;
  }

  /**
   * The managers' reassembly loop: each chunk is read, appended and then
   * removed, so a missing index leaves the chunks before it deleted.
   */
  method ReadAndRemoveChunks(dir: Dir, prefix: string, total: int)
    returns (out: Bytes, missing: Option<nat>, rest: Dir)
    ensures missing.None? <==> HasChunks(dir, prefix, Steps(total))
    ensures missing.None? ==> out == Joined(dir, prefix, Steps(total))
                              && rest == dir - NamesBelow(prefix, Steps(total))
    ensures missing.Some? ==> missing.value == FirstMissing(dir, prefix, total)
                              && out == Joined(dir, prefix, missing.value)
                              && rest == dir - NamesBelow(prefix, missing.value)
  {
    var n := Steps(total);
    out, rest := [], dir;
    var i := 0;
    while i < n
      invariant 0 <= i <= n
      invariant HasChunks(dir, prefix, i)
      invariant i <= FirstMissing(dir, prefix, total)
      invariant out == Joined(dir, prefix, i)
      invariant rest == dir - NamesBelow(prefix, i)
    {
      var name := ChunkName(prefix, i);
      NameNotBelow(prefix, i, i);
      if name !in rest {
        missing := Some(i);
        return;
      }
      out := out + rest[name];
      rest := rest - {name};
      assert NamesBelow(prefix, i + 1) == NamesBelow(prefix, i) + {name};
      i := i + 1;
    }
    missing := None;
  }

  lemma NameNotBelow(prefix: string, n: int, k: nat)
    requires n >= k
    ensures ChunkName(prefix, n) !in NamesBelow(prefix, k)
  {
    forall i | 0 <= i < k ensures ChunkName(prefix, i) != ChunkName(prefix, n) {
      NumberedInjective(prefix, i, n);
    }
  }

  // ---------------------------------------------------------------------
  // The client side: splitting a file into chunks (upload_large_file.py).

  /** `(file_size + chunk_size - 1) // chunk_size` */
  function ChunkCount(size: nat, chunkSize: nat): nat
    requires chunkSize > 0
  {
    (size + chunkSize - 1) / chunkSize
  }

  /** Successive `f.read(chunk_size)` results until the file is exhausted. */
  function Split(data: Bytes, chunkSize: nat): seq<Bytes>
    requires chunkSize > 0
    decreases |data|
  {
    if |data| == 0 then []
    else if |data| <= chunkSize then [data]
    else [data[..chunkSize]] + Split(data[chunkSize..], chunkSize)
  }

  function Concat(chunks: seq<Bytes>): Bytes {
    if chunks == [] then [] else Concat(chunks[..|chunks| - 1]) + chunks[|chunks| - 1]
  }

  lemma {:induction false} ConcatCons(c: Bytes, cs: seq<Bytes>)
    ensures Concat([c] + cs) == c + Concat(cs)
    decreases |cs|
  {
    if cs != [] {
      var all := [c] + cs;
      assert all[..|all| - 1] == [c] + cs[..|cs| - 1];
      ConcatCons(c, cs[..|cs| - 1]);
    }
  }

  lemma CountStep(m: nat, c: nat)
    requires c > 0
    ensures ChunkCount(m + c, c) == ChunkCount(m, c) + 1
  {
    var x := m + c - 1;
    assert x == c * (x / c) + x % c;
    assert x + c == c * (x / c + 1) + x % c;
    assert 0 <= x % c < c;
    DivUnique(x + c, c, x / c + 1, x % c);
  }

  lemma DivUnique(n: int, c: int, q: int, r: int)
    requires c > 0 && 0 <= r < c && n == c * q + r
    ensures n / c == q
  {
    var q', r' := n / c, n % c;
    assert n == c * q' + r' && 0 <= r' < c;
    assert c * (q - q') == r' - r;
    MulAtLeast(c, q - q');
    MulAtLeast(c, q' - q);
  }

  lemma {:induction false} MulAtLeast(c: int, d: int)
    requires c > 0
    ensures d >= 1 ==> c * d >= c
    decreases if d < 1 then 0 else d
  {
    if d > 1 {
      MulAtLeast(c, d - 1);
      assert c * d == c * (d - 1) + c;
    }
  }

  /** The client sends exactly `ChunkCount` chunks. */
  lemma {:induction false} SplitCount(data: Bytes, chunkSize: nat)
    requires chunkSize > 0
    ensures |Split(data, chunkSize)| == ChunkCount(|data|, chunkSize)
    decreases |data|
  {
    if |data| == 0 {
      assert ChunkCount(0, chunkSize) == 0 by { DivUnique(chunkSize - 1, chunkSize, 0, chunkSize - 1); }
    } else if |data| <= chunkSize {
      DivUnique(|data| + chunkSize - 1, chunkSize, 1, |data| - 1);
    } else {
      SplitCount(data[chunkSize..], chunkSize);
      CountStep(|data| - chunkSize, chunkSize);
    }
  }

  /** Concatenating the chunks gives the file back. */
  lemma {:induction false} SplitConcat(data: Bytes, chunkSize: nat)
    requires chunkSize > 0
    ensures Concat(Split(data, chunkSize)) == data
    decreases |data|
  {
    if |data| == 0 {
    } else if |data| <= chunkSize {
      assert Concat([data]) == Concat([]) + data;
    } else {
      SplitConcat(data[chunkSize..], chunkSize);
      ConcatCons(data[..chunkSize], Split(data[chunkSize..], chunkSize));
      assert data[..chunkSize] + data[chunkSize..] == data;
    }
  }

  // ---------------------------------------------------------------------
  // Arrival order: chunks sent in any order, possibly more than once.

  /** The scratch directory after chunk indices `arrivals` have been stored, in that order. */
  function Arrive(dir: Dir, prefix: string, chunks: seq<Bytes>, arrivals: seq<nat>): Dir
    requires forall j | 0 <= j < |arrivals| :: arrivals[j] < |chunks|
  {
    if arrivals == [] then dir
    else
      var a := arrivals[|arrivals| - 1];
      StoreChunk(Arrive(dir, prefix, chunks, arrivals[..|arrivals| - 1]), prefix, a, chunks[a])
  }

  function IndexSet(arrivals: seq<nat>): set<int> {
    set j | 0 <= j < |arrivals| :: arrivals[j] as int
  }

  predicate NoneWithPrefix(dir: Dir, prefix: string) {
    NamesWithPrefix(dir, prefix) == {}
  }

  function NamesOf(prefix: string, ids: set<int>): set<string> {
    set i | i in ids :: ChunkName(prefix, i)
  }

  /** `{0, ..., n-1}` */
  function Below(n: nat): (s: set<int>)
    ensures forall i :: i in s <==> 0 <= i < n
  {
    if n == 0 then {} else Below(n - 1) + {n - 1}
  }

  lemma StoreChunkNames(d: Dir, prefix: string, a: int, c: Bytes)
    ensures NamesWithPrefix(StoreChunk(d, prefix, a, c), prefix)
            == NamesWithPrefix(d, prefix) + {ChunkName(prefix, a)}
  {
    NumberedStartsWith(prefix, a);
  }

  lemma NamesOfAdd(prefix: string, ids: set<int>, a: int)
    ensures NamesOf(prefix, ids + {a}) == NamesOf(prefix, ids) + {ChunkName(prefix, a)}
  {
  }

  lemma IndexSetSnoc(arrivals: seq<nat>)
    requires arrivals != []
    ensures IndexSet(arrivals)
            == IndexSet(arrivals[..|arrivals| - 1]) + {arrivals[|arrivals| - 1] as int}
  {
    var front := arrivals[..|arrivals| - 1];
    forall x | x in IndexSet(arrivals)
      ensures x in IndexSet(front) + {arrivals[|arrivals| - 1] as int}
    {
      var j :| 0 <= j < |arrivals| && arrivals[j] as int == x;
      if j < |arrivals| - 1 { assert front[j] == arrivals[j]; }
    }
    forall x | x in IndexSet(front) ensures x in IndexSet(arrivals) {
      var j :| 0 <= j < |front| && front[j] as int == x;
      assert arrivals[j] == front[j];
    }
  }

  /** The chunk names present are those of the indices that arrived, each holding its chunk. */
  lemma {:induction false} ArriveNames(dir: Dir, prefix: string, chunks: seq<Bytes>, arrivals: seq<nat>)
    requires forall j | 0 <= j < |arrivals| :: arrivals[j] < |chunks|
    requires NoneWithPrefix(dir, prefix)
    ensures NamesWithPrefix(Arrive(dir, prefix, chunks, arrivals), prefix)
            == NamesOf(prefix, IndexSet(arrivals))
    ensures forall i | i in IndexSet(arrivals) ::
              && ChunkName(prefix, i) in Arrive(dir, prefix, chunks, arrivals)
              && 0 <= i < |chunks|
              && Arrive(dir, prefix, chunks, arrivals)[ChunkName(prefix, i)] == chunks[i]
    decreases |arrivals|
  {
    if arrivals != [] {
      var front := arrivals[..|arrivals| - 1];
      var a := arrivals[|arrivals| - 1];
      var before := Arrive(dir, prefix, chunks, front);
      ArriveNames(dir, prefix, chunks, front);
      IndexSetSnoc(arrivals);
      StoreChunkNames(before, prefix, a, chunks[a]);
      NamesOfAdd(prefix, IndexSet(front), a);
      forall i | i in IndexSet(front) && i != a
        ensures ChunkName(prefix, i) != ChunkName(prefix, a)
      {
        NumberedInjective(prefix, i, a);
      }
    } else {
      assert IndexSet(arrivals) == {};
    }
  }

  lemma {:induction false} ImageSize(prefix: string, s: set<int>)
    ensures |NamesOf(prefix, s)| == |s|
    decreases |s|
  {
    if |s| > 0 {
      HasElement(s);
      var x :| x in s;
      var s' := s - {x};
      ImageSize(prefix, s');
      assert s == s' + {x};
      NamesOfAdd(prefix, s', x);
      forall y | y in s' ensures ChunkName(prefix, y) != ChunkName(prefix, x) {
        NumberedInjective(prefix, x, y);
      }
      assert ChunkName(prefix, x) !in NamesOf(prefix, s');
    } else {
      assert NamesOf(prefix, s) == {};
    }
  }

  lemma {:induction false} BelowSize(n: nat)
    ensures |Below(n)| == n
  {
    if n > 0 {
      BelowSize(n - 1);
      var front := Below(n - 1);
      assert n - 1 !in front;
      assert |front + {n - 1}| == |front| + 1;
    }
  }

  /** A subset of `{0..n-1}` with `n` elements is all of it. */
  lemma FullSubset(s: set<int>, n: nat)
    requires s <= Below(n) && |s| == n
    ensures s == Below(n)
  {
    BelowSize(n);
    if s != Below(n) {
      var x :| x in Below(n) && x !in s;
      assert s <= Below(n) - {x};
      assert |Below(n) - {x}| == n - 1;
      SubsetSize(s, Below(n) - {x});
    }
  }

  lemma HasElement(s: set<int>)
    requires |s| > 0
    ensures exists y :: y in s
  {
    if forall y :: y !in s { assert false; }
  }

  lemma {:induction false} SubsetSize(a: set<int>, b: set<int>)
    requires a <= b
    ensures |a| <= |b|
    decreases |b|
  {
    if |a| > 0 {
      HasElement(a);
      var x :| x in a;
      SubsetSize(a - {x}, b - {x});
    }
  }

  /**
   * Re-sending never double-counts: the received count is the number of
   * distinct indices that have arrived.
   */
  lemma ArrivalCount(dir: Dir, prefix: string, chunks: seq<Bytes>, arrivals: seq<nat>)
    requires forall j | 0 <= j < |arrivals| :: arrivals[j] < |chunks|
    requires NoneWithPrefix(dir, prefix)
    ensures ReceivedCount(Arrive(dir, prefix, chunks, arrivals), prefix) == |IndexSet(arrivals)|
  {
    ArriveNames(dir, prefix, chunks, arrivals);
    ImageSize(prefix, IndexSet(arrivals));
  }

  /**
   * The trigger `count == total_chunks` fires exactly when every index
   * `0 .. N-1` has arrived at least once.
   */
  lemma ArrivalTrigger(dir: Dir, prefix: string, chunks: seq<Bytes>, arrivals: seq<nat>)
    requires forall j | 0 <= j < |arrivals| :: arrivals[j] < |chunks|
    requires NoneWithPrefix(dir, prefix)
    ensures ReceivedCount(Arrive(dir, prefix, chunks, arrivals), prefix) == |chunks|
            <==> forall i | 0 <= i < |chunks| :: i in IndexSet(arrivals)
  {
    ArrivalCount(dir, prefix, chunks, arrivals);
    assert IndexSet(arrivals) <= Below(|chunks|);
    if |IndexSet(arrivals)| == |chunks| {
      FullSubset(IndexSet(arrivals), |chunks|);
    }
    if forall i | 0 <= i < |chunks| :: i in IndexSet(arrivals) {
      assert IndexSet(arrivals) == Below(|chunks|);
      BelowSize(|chunks|);
    }
  }

  lemma {:induction false} JoinedIsConcat(d: Dir, prefix: string, chunks: seq<Bytes>, k: nat)
    requires k <= |chunks|
    requires forall i | 0 <= i < k :: ChunkName(prefix, i) in d && d[ChunkName(prefix, i)] == chunks[i]
    ensures HasChunks(d, prefix, k) && Joined(d, prefix, k) == Concat(chunks[..k])
  {
    if k > 0 {
      JoinedIsConcat(d, prefix, chunks, k - 1);
      assert chunks[..k][..k - 1] == chunks[..k - 1];
    }
  }

  /**
   * Upload round trip: a file split by the client and sent in any order,
   * with repeats, is reassembled byte for byte once the trigger fires.
   */
  lemma ArrivalRoundTrip(dir: Dir, prefix: string, data: Bytes, chunkSize: nat, arrivals: seq<nat>)
    requires chunkSize > 0
    requires forall j | 0 <= j < |arrivals| :: arrivals[j] < |Split(data, chunkSize)|
    requires NoneWithPrefix(dir, prefix)
    requires ReceivedCount(Arrive(dir, prefix, Split(data, chunkSize), arrivals), prefix)
             == |Split(data, chunkSize)|
    ensures var d := Arrive(dir, prefix, Split(data, chunkSize), arrivals);
            var total := |Split(data, chunkSize)|;
            && FirstMissing(d, prefix, total) == total
            && Joined(d, prefix, total) == data
  {
    var chunks := Split(data, chunkSize);
    var d := Arrive(dir, prefix, chunks, arrivals);
    ArrivalTrigger(dir, prefix, chunks, arrivals);
    ArriveNames(dir, prefix, chunks, arrivals);
    forall i | 0 <= i < |chunks| ensures ChunkName(prefix, i) in d && d[ChunkName(prefix, i)] == chunks[i] {
      assert ChunkName(prefix, i) in NamesWithPrefix(d, prefix);
    }
    JoinedIsConcat(d, prefix, chunks, |chunks|);
    assert chunks[..|chunks|] == chunks;
    SplitConcat(data, chunkSize);
  }
}
