/** Batched audit roots: events are hashed into leaves, leaves into a binary tree whose odd last node is paired with
    itself. */
module Merkle {
  import opened Prelude

  /** `time` is the clock's reading when the root was made. */
  datatype AuditRoot = AuditRoot(root: string, leafCount: nat, createdAt: int)

  /** The strings one level hands to the hash. */
  function Pairs(level: seq<string>): seq<string> {
    seq((|level| + 1) / 2, i requires 0 <= i < (|level| + 1) / 2 =>
      level[2 * i] + (if 2 * i + 1 < |level| then level[2 * i + 1] else level[2 * i]))
  }

  function HashAll(h: string -> string, texts: seq<string>): seq<string> {
    seq(|texts|, i requires 0 <= i < |texts| => h(texts[i]))
  }

  function Root(h: string -> string, level: seq<string>): string
    requires level != []
    decreases |level|
  {
    if |level| == 1 then level[0] else Root(h, HashAll(h, Pairs(level)))
  }

  /** Every string hashed on the way to the root. */
  function Hashed(h: string -> string, level: seq<string>): seq<string>
    decreases |level|
  {
    if |level| <= 1 then [] else Pairs(level) + Hashed(h, HashAll(h, Pairs(level)))
  }

  function Concat(batches: seq<seq<string>>): seq<string> {
    if batches == [] then [] else Concat(batches[..|batches| - 1]) + batches[|batches| - 1]
  }

  class AuditRootBatcher {
    const hash: string -> string
    const size: nat
    var leaves: seq<string>
    /** Calls made to the sink, in order. */
    var appended: seq<AuditRoot>
    /** All event texts ever added, and how they were cut into batches. */
    ghost var added: seq<string>
    ghost var batches: seq<seq<string>>

    ghost predicate Valid()
      reads this
    {
      && size >= 1 && |leaves| < size
      && HashAll(hash, added) == Concat(batches) + leaves
      && |appended| == |batches|
      && forall i :: 0 <= i < |batches| ==> Commits(hash, appended[i], batches[i])
    }

    /** `size < 1` is the caller's error. */
    static method Make(hash: string -> string, size: int) returns (r: Result<AuditRootBatcher, string>)
      ensures r.Ok? <==> size >= 1
      ensures r.Ok? ==>
        fresh(r.value) && r.value.Valid() && r.value.size == size && r.value.added == [] && r.value.appended == []
    {
      if size < 1 {
        return Err("invalid batch size");
      }
      var b := new AuditRootBatcher(hash, size);
      r := Ok(b);
    }

    constructor (hash: string -> string, size: nat)
      requires size >= 1
      ensures Valid() && this.hash == hash && this.size == size && added == [] && appended == []
    {
      this.hash, this.size, leaves, appended, added, batches := hash, size, [], [], [], [];
    }

    method Add(text: string, now: int) returns (r: Option<AuditRoot>)
      requires Valid()
      modifies this
      ensures Valid() && added == old(added) + [text]
      ensures r.Some? <==> |old(leaves)| + 1 == size
      ensures r.None? ==> appended == old(appended) && batches == old(batches) && leaves == old(leaves) + [hash(text)]
      ensures r.Some? ==> leaves == [] && appended == old(appended) + [r.value]
      ensures r.Some? ==> batches == old(batches) + [old(leaves) + [hash(text)]] && r.value.createdAt == now
    {
      AddOneHash(hash, added, text);
      leaves := leaves + [hash(text)];
      added := added + [text];
      if |leaves| < size {
        return None;
      }
      r := FlushLeaves(now);
    }

    method Flush(now: int) returns (r: Option<AuditRoot>)
      requires Valid()
      modifies this
      ensures Valid() && added == old(added) && leaves == []
      ensures r.None? <==> old(leaves) == []
      ensures r.None? ==> appended == old(appended) && batches == old(batches)
      ensures r.Some? ==> appended == old(appended) + [r.value] && batches == old(batches) + [old(leaves)]
      ensures r.Some? ==> r.value.createdAt == now
    {
      r := FlushLeaves(now);
    }

    /** Both entry points come here; `Add` with one leaf too many for `Valid`. */
    method FlushLeaves(now: int) returns (r: Option<AuditRoot>)
      requires size >= 1 && HashAll(hash, added) == Concat(batches) + leaves && |appended| == |batches|
      requires forall i :: 0 <= i < |batches| ==> Commits(hash, appended[i], batches[i])
      modifies this
      ensures Valid() && added == old(added) && leaves == []
      ensures r.None? <==> old(leaves) == []
      ensures r.None? ==> appended == old(appended) && batches == old(batches)
      ensures r.Some? ==> appended == old(appended) + [r.value] && batches == old(batches) + [old(leaves)]
      ensures r.Some? ==> r.value.createdAt == now
    {
      if leaves == [] {
        return None;
      }
      var level := leaves;
      var count := |level|;
      leaves := [];
      while |level| > 1
        invariant level != [] && Root(hash, level) == Root(hash, old(leaves))
        modifies {}
        decreases |level|
      {
        level := NextLevel(level);
      }
      var root := AuditRoot(level[0], count, now);
      assert (batches + [old(leaves)])[..|batches|] == batches;
      batches := batches + [old(leaves)];
      appended := appended + [root];
      r := Some(root);
    }

    method NextLevel(level: seq<string>) returns (next: seq<string>)
      requires |level| > 1
      ensures next == HashAll(hash, Pairs(level))
    {
      next := [];
      var i := 0;
      while i < |level|
        invariant 0 <= i <= |level| + 1 && i % 2 == 0 && |next| == i / 2
        invariant forall k :: 0 <= k < |next| ==> next[k] == hash(Pairs(level)[k])
      {
        var right := if i + 1 < |level| then level[i + 1] else level[i];
        assert Pairs(level)[i / 2] == level[i] + right;
        next := next + [hash(level[i] + right)];
        i := i + 2;
      }
    }
  }

  lemma AddOneHash(h: string -> string, texts: seq<string>, text: string)
    ensures HashAll(h, texts + [text]) == HashAll(h, texts) + [h(text)]
  {
  }

  /** The published record for a batch of leaves. */
  ghost predicate Commits(h: string -> string, r: AuditRoot, batch: seq<string>) {
    batch != [] && r.leafCount == |batch| && r.root == Root(h, batch)
  }

  // ---------------------------------------------------------------- a root binds its leaves

  /** No two of these strings share a digest. */
  ghost predicate CollisionFree(h: string -> string, texts: seq<string>) {
    forall i, j | 0 <= i < |texts| && 0 <= j < |texts| && h(texts[i]) == h(texts[j]) :: texts[i] == texts[j]
  }

  ghost predicate FixedLength(h: string -> string, n: nat) {
    forall x :: |h(x)| == n
  }

  predicate AllOfLength(s: seq<string>, n: nat) {
    forall i | 0 <= i < |s| :: |s[i]| == n
  }

  lemma PairsDetermineLevel(a: seq<string>, b: seq<string>, n: nat)
    requires |a| == |b| && AllOfLength(a, n) && AllOfLength(b, n) && Pairs(a) == Pairs(b)
    ensures a == b
  {
    forall k | 0 <= k < |a|
      ensures a[k] == b[k]
    {
      var i := k / 2;
      assert Pairs(a)[i] == Pairs(b)[i];
      assert Pairs(a)[i][..n] == a[2 * i] && Pairs(b)[i][..n] == b[2 * i];
      if k % 2 == 1 {
        assert Pairs(a)[i][n..] == a[k] && Pairs(b)[i][n..] == b[k];
      }
    }
  }

  lemma HashAllIsInjective(h: string -> string, a: seq<string>, b: seq<string>, texts: seq<string>)
    requires CollisionFree(h, texts) && (forall x :: x in a || x in b ==> x in texts) && HashAll(h, a) == HashAll(h, b)
    ensures a == b
  {
    assert |a| == |HashAll(h, a)| == |b|;
    forall k | 0 <= k < |a|
      ensures a[k] == b[k]
    {
      assert HashAll(h, a)[k] == HashAll(h, b)[k];
      assert a[k] in texts && b[k] in texts;
    }
  }

  /** Two leaf lists of one root and one length are the same list. */
  lemma {:induction false} RootBindsLeaves(h: string -> string, a: seq<string>, b: seq<string>, texts: seq<string>,
      n: nat)
    requires a != [] && |a| == |b| && AllOfLength(a, n) && AllOfLength(b, n) && FixedLength(h, n)
    requires CollisionFree(h, texts) && forall x :: x in Hashed(h, a) || x in Hashed(h, b) ==> x in texts
    requires Root(h, a) == Root(h, b)
    ensures a == b
    decreases |a|
  {
    if |a| > 1 {
      RootBindsLeaves(h, HashAll(h, Pairs(a)), HashAll(h, Pairs(b)), texts, n);
      HashAllIsInjective(h, Pairs(a), Pairs(b), texts);
      PairsDetermineLevel(a, b, n);
    }
  }

  /** What has to be collision-free for two batches of events: the event texts and the tree nodes of both. */
  function Inputs(h: string -> string, a: seq<string>, b: seq<string>): seq<string> {
    a + b + Hashed(h, HashAll(h, a)) + Hashed(h, HashAll(h, b))
  }

  /** Equal published records mean equal events, in the same order. */
  lemma RecordBindsEvents(h: string -> string, r: AuditRoot, s: AuditRoot, a: seq<string>, b: seq<string>, n: nat)
    requires FixedLength(h, n) && CollisionFree(h, Inputs(h, a, b))
    requires Commits(h, r, HashAll(h, a)) && Commits(h, s, HashAll(h, b))
    requires r.root == s.root && r.leafCount == s.leafCount
    ensures a == b
  {
    RootBindsLeaves(h, HashAll(h, a), HashAll(h, b), Inputs(h, a, b), n);
    HashAllIsInjective(h, a, b, Inputs(h, a, b));
  }

  lemma PairsOfRepeatedLast(a: seq<string>)
    requires |a| % 2 == 1
    ensures Pairs(a + [a[|a| - 1]]) == Pairs(a)
  {
    var b, n := a + [a[|a| - 1]], (|a| + 1) / 2;
    assert |Pairs(b)| == |Pairs(a)| == n;
    forall i | 0 <= i < n
      ensures Pairs(b)[i] == Pairs(a)[i]
    {
      assert b[2 * i] == a[2 * i];
      if i < n - 1 {
        assert b[2 * i + 1] == a[2 * i + 1];
      } else {
        assert b[2 * i + 1] == a[2 * i];
      }
    }
  }

  /** The count is part of the commitment: an odd list and the same list with its last leaf repeated share a root. */
  lemma RepeatedLastLeafKeepsRoot(h: string -> string, a: seq<string>)
    requires |a| >= 3 && |a| % 2 == 1
    ensures Root(h, a + [a[|a| - 1]]) == Root(h, a)
  {
    PairsOfRepeatedLast(a);
  }

  // ---------------------------------------------------------------- whole publications

  /** Everything hashed under a list of published roots. */
  function AllHashed(h: string -> string, batches: seq<seq<string>>): seq<string> {
    if batches == [] then [] else AllHashed(h, batches[..|batches| - 1]) + Hashed(h, batches[|batches| - 1])
  }

  ghost predicate CommitsAll(h: string -> string, published: seq<AuditRoot>, batches: seq<seq<string>>) {
    |published| == |batches| && forall i | 0 <= i < |batches| :: Commits(h, published[i], batches[i])
  }

  predicate SameRecords(a: seq<AuditRoot>, b: seq<AuditRoot>) {
    |a| == |b| && forall i | 0 <= i < |a| :: a[i].root == b[i].root && a[i].leafCount == b[i].leafCount
  }

  lemma {:induction false} PublicationBindsBatches(
    h: string -> string, pa: seq<AuditRoot>, pb: seq<AuditRoot>, a: seq<seq<string>>, b: seq<seq<string>>,
    texts: seq<string>, n: nat)
    requires CommitsAll(h, pa, a) && CommitsAll(h, pb, b) && SameRecords(pa, pb)
    requires FixedLength(h, n) && AllOfLength(Concat(a), n) && AllOfLength(Concat(b), n)
    requires CollisionFree(h, texts) && forall x :: x in AllHashed(h, a) || x in AllHashed(h, b) ==> x in texts
    ensures a == b
  {
    if a != [] {
      var k := |a| - 1;
      PrefixOfLength(a, n);
      PrefixOfLength(b, n);
      PublicationBindsBatches(h, pa[..k], pb[..k], a[..k], b[..k], texts, n);
      RootBindsLeaves(h, a[k], b[k], texts, n);
      assert a == a[..k] + [a[k]] && b == b[..k] + [b[k]];
    }
  }

  lemma SplitLength(a: seq<string>, b: seq<string>, n: nat)
    requires AllOfLength(a + b, n)
    ensures AllOfLength(a, n) && AllOfLength(b, n)
  {
    assert forall i :: 0 <= i < |a| ==> a[i] == (a + b)[i];
    assert forall i :: 0 <= i < |b| ==> b[i] == (a + b)[|a| + i];
  }

  lemma PrefixOfLength(batches: seq<seq<string>>, n: nat)
    requires batches != [] && AllOfLength(Concat(batches), n)
    ensures AllOfLength(Concat(batches[..|batches| - 1]), n) && AllOfLength(batches[|batches| - 1], n)
  {
    SplitLength(Concat(batches[..|batches| - 1]), batches[|batches| - 1], n);
  }

  /** Two batchers that published the same records took the same events so far, up to those still pending. */
  lemma PublicationBindsHistory(x: AuditRootBatcher, y: AuditRootBatcher, n: nat)
    requires x.Valid() && y.Valid() && x.hash == y.hash && FixedLength(x.hash, n)
    requires SameRecords(x.appended, y.appended)
    requires CollisionFree(x.hash, x.added + y.added + AllHashed(x.hash, x.batches) + AllHashed(x.hash, y.batches))
    ensures x.batches == y.batches
    ensures var flushed := |Concat(x.batches)|;
      flushed <= |x.added| && flushed <= |y.added| && x.added[..flushed] == y.added[..flushed]
      && |x.leaves| == |x.added| - flushed && |y.leaves| == |y.added| - flushed
  {
    var h := x.hash;
    var texts := x.added + y.added + AllHashed(h, x.batches) + AllHashed(h, y.batches);
    LeavesOfLength(x, n);
    LeavesOfLength(y, n);
    PublicationBindsBatches(h, x.appended, y.appended, x.batches, y.batches, texts, n);
    var flushed := |Concat(x.batches)|;
    assert |HashAll(h, x.added)| == |x.added| && |HashAll(h, y.added)| == |y.added|;
    assert HashAll(h, x.added[..flushed]) == HashAll(h, x.added)[..flushed] == Concat(x.batches);
    assert HashAll(h, y.added[..flushed]) == HashAll(h, y.added)[..flushed] == Concat(x.batches);
    HashAllIsInjective(h, x.added[..flushed], y.added[..flushed], texts);
  }

  lemma LeavesOfLength(x: AuditRootBatcher, n: nat)
    requires x.Valid() && FixedLength(x.hash, n)
    ensures AllOfLength(Concat(x.batches), n)
  {
    var all := HashAll(x.hash, x.added);
    assert forall i :: 0 <= i < |Concat(x.batches)| ==> Concat(x.batches)[i] == all[i];
  }
}
