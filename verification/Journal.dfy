/** The hash-chained audit journal. */
module Journal {
  import opened Sorting
  import opened Json
  import opened JsonCanonical

  const GENESIS: Text := [71, 69, 78, 69, 83, 73, 83]
  const KEY_INDEX: Text := [105, 110, 100, 101, 120]
  const KEY_TYPE: Text := [116, 121, 112, 101]
  const KEY_PAYLOAD: Text := [112, 97, 121, 108, 111, 97, 100]
  const KEY_PREVIOUS: Text := [112, 114, 101, 118, 105, 111, 117, 115, 72, 97, 115, 104]

  datatype Entry = Entry(index: nat, kind: Text, payload: Json, previousHash: Text, hash: Text)

  type Digest = Json -> Text

  function Decimal(n: nat): Text {
    if n < 10 then [48 + n] else Decimal(n / 10) + [48 + n % 10]
  }

  function Base(index: nat, kind: Text, payload: Json, previousHash: Text): Json {
    Object([Field(KEY_INDEX, Number(Decimal(index))), Field(KEY_TYPE, String(kind)), Field(KEY_PAYLOAD, payload),
            Field(KEY_PREVIOUS, String(previousHash))])
  }

  function BaseOf(e: Entry): Json {
    Base(e.index, e.kind, e.payload, e.previousHash)
  }

  /** The hash the next entry has to carry on from. */
  function Head(entries: seq<Entry>): Text {
    if entries == [] then GENESIS else entries[|entries| - 1].hash
  }

  predicate EntryOk(digest: Digest, entries: seq<Entry>, i: nat)
    requires i < |entries|
  {
    && entries[i].index == i
    && entries[i].previousHash == (if i == 0 then GENESIS else entries[i - 1].hash)
    && entries[i].hash == digest(BaseOf(entries[i]))
  }

  predicate Verified(digest: Digest, entries: seq<Entry>) {
    forall i | 0 <= i < |entries| :: EntryOk(digest, entries, i)
  }

  class AuditJournal {
    const digest: Digest
    var entries: seq<Entry>

    constructor (digest: Digest)
      ensures this.digest == digest && entries == []
    {
      this.digest, entries := digest, [];
    }

    /** Whatever has been tampered with before, the new entry itself is in order. */
    method Append(kind: Text, payload: Json) returns (e: Entry)
      modifies this
      ensures entries == old(entries) + [e]
      ensures e.kind == kind && e.payload == payload
      ensures EntryOk(digest, entries, |entries| - 1)
      ensures Verified(digest, old(entries)) <==> Verified(digest, entries)
    {
      var previousHash := if entries == [] then GENESIS else entries[|entries| - 1].hash;
      var hash := digest(Base(|entries|, kind, payload, previousHash));
      e := Entry(|entries|, kind, payload, previousHash, hash);
      AppendedIsOk(digest, entries, e);
      entries := entries + [e];
    }

    method Verify() returns (ok: bool)
      ensures ok == Verified(digest, entries)
    {
      for i := 0 to |entries|
        invariant forall k :: 0 <= k < i ==> EntryOk(digest, entries, k)
      {
        if !EntryOk(digest, entries, i) {
          return false;
        }
      }
      ok := true;
    }
  }

  lemma AppendedIsOk(digest: Digest, was: seq<Entry>, e: Entry)
    requires e.index == |was| && e.previousHash == Head(was) && e.hash == digest(BaseOf(e))
    ensures EntryOk(digest, was + [e], |was|)
    ensures Verified(digest, was) <==> Verified(digest, was + [e])
  {
    var now := was + [e];
    assert now[..|was|] == was;
    PrefixIsVerified(digest, now, |was|);
    assert EntryOk(digest, now, |was|);
  }

  lemma PrefixIsVerified(digest: Digest, entries: seq<Entry>, n: nat)
    requires n <= |entries|
    ensures forall k :: 0 <= k < n ==> (EntryOk(digest, entries[..n], k) <==> EntryOk(digest, entries, k))
    ensures Verified(digest, entries) ==> Verified(digest, entries[..n])
  {
  }

  // ---------------------------------------------------------------- the head commits to the whole journal

  ghost predicate WellFormed(entries: seq<Entry>) {
    forall i | 0 <= i < |entries| :: Valid(entries[i].payload)
  }

  /** How entries are digested: a hash of the canonical text, keys in the order `less`. */
  datatype Scheme = Scheme(hash: Text -> Text, less: (Text, Text) -> bool)

  ghost predicate Digests(digest: Digest, s: Scheme) {
    forall v :: digest(v) == s.hash(Canonical(v, s.less))
  }

  function Texts(s: Scheme, entries: seq<Entry>): seq<Text> {
    seq(|entries|, i requires 0 <= i < |entries| => Canonical(BaseOf(entries[i]), s.less))
  }

  /** No two of the texts share a hash, and none hashes to the genesis mark. */
  ghost predicate CollisionFree(s: Scheme, texts: seq<Text>) {
    && (forall i, j | 0 <= i < |texts| && 0 <= j < |texts| && s.hash(texts[i]) == s.hash(texts[j]) ::
      texts[i] == texts[j])
    && (forall i | 0 <= i < |texts| :: s.hash(texts[i]) != GENESIS)
  }

  lemma {:induction false} DecimalIsNumber(n: nat)
    ensures IsNumber(Decimal(n)) && forall i :: 0 <= i < |Decimal(n)| ==> 48 <= Decimal(n)[i] <= 57
  {
    if n >= 10 {
      DecimalIsNumber(n / 10);
    }
  }

  lemma BaseIsValid(e: Entry)
    requires Valid(e.payload)
    ensures Valid(Base(e.index, e.kind, e.payload, e.previousHash))
  {
    DecimalIsNumber(e.index);
    var fields := Base(e.index, e.kind, e.payload, e.previousHash).fields;
    assert |KEY_INDEX| == 5 && |KEY_TYPE| == 4 && |KEY_PAYLOAD| == 7 && |KEY_PREVIOUS| == 12;
    assert DistinctKeys(fields);
    forall i | 0 <= i < |fields|
      ensures Valid(fields[i].value)
    {
      assert i == 0 || i == 1 || i == 2 || i == 3;
    }
  }

  ghost predicate SameEntry(a: Entry, b: Entry) {
    && a.index == b.index && a.kind == b.kind && SameTree(a.payload, b.payload)
    && a.previousHash == b.previousHash && a.hash == b.hash
  }

  lemma KeyIsUnique(fields: seq<Field>, f: Field, g: Field)
    requires DistinctKeys(fields) && f in fields && g in fields && f.key == g.key
    ensures f == g
  {
  }

  /** Objects with one normal form agree under every key. */
  lemma KeyAgrees(x: Json, y: Json, k: nat, less: (Text, Text) -> bool)
    requires x.Object? && y.Object? && DistinctKeys(x.fields) && DistinctKeys(y.fields) && TotalOrder(less)
    requires k < |x.fields| == |y.fields| && x.fields[k].key == y.fields[k].key
    requires Norm(x, less) == Norm(y, less)
    ensures Norm(x.fields[k].value, less) == Norm(y.fields[k].value, less)
  {
    SortedFields(x, less);
    SortedFields(y, less);
    var f, g := Norms(x.fields, less)[k], Norms(y.fields, less)[k];
    assert f in Norms(x.fields, less) && g in Norms(y.fields, less);
    KeyIsUnique(Norm(y, less).fields, f, g);
  }

  lemma SameTextSameEntry(less: (Text, Text) -> bool, a: Entry, b: Entry)
    requires TotalOrder(less) && Valid(a.payload) && Valid(b.payload)
    requires Canonical(BaseOf(a), less) == Canonical(BaseOf(b), less)
    ensures a.kind == b.kind && SameTree(a.payload, b.payload) && a.previousHash == b.previousHash
  {
    BaseIsValid(a);
    BaseIsValid(b);
    var x, y := BaseOf(a), BaseOf(b);
    CanonicalRoundTrip(x, less);
    CanonicalRoundTrip(y, less);
    assert Norm(x, less) == Norm(y, less);
    KeyAgrees(x, y, 1, less);
    KeyAgrees(x, y, 2, less);
    KeyAgrees(x, y, 3, less);
    SameTreeSameNorm(a.payload, b.payload, less);
  }

  /** Two journals that verify and share a head hash are the same, entry for entry, payloads up to key order. */
  lemma {:induction false} HeadBindsJournal(digest: Digest, s: Scheme, a: seq<Entry>, b: seq<Entry>, texts: seq<Text>)
    requires Digests(digest, s) && TotalOrder(s.less) && Verified(digest, a) && Verified(digest, b)
    requires WellFormed(a) && WellFormed(b)
    requires CollisionFree(s, texts) && forall t :: t in Texts(s, a) || t in Texts(s, b) ==> t in texts
    requires Head(a) == Head(b)
    ensures |a| == |b| && forall i :: 0 <= i < |a| ==> SameEntry(a[i], b[i])
    decreases |a|
  {
    if a != [] && b != [] {
      var m, n := |a| - 1, |b| - 1;
      LastEntriesAgree(digest, s, a, b, texts);
      PrefixIsVerified(digest, a, m);
      PrefixIsVerified(digest, b, n);
      TextsOfPrefix(s, a, m);
      TextsOfPrefix(s, b, n);
      HeadBindsJournal(digest, s, a[..m], b[..n], texts);
      forall i | 0 <= i < |a|
        ensures SameEntry(a[i], b[i])
      {
        if i < m {
          assert a[i] == a[..m][i] && b[i] == b[..n][i];
        }
      }
    } else if a != [] {
      LastEntry(digest, s, a, texts);
    } else if b != [] {
      LastEntry(digest, s, b, texts);
    }
  }

  lemma LastEntry(digest: Digest, s: Scheme, a: seq<Entry>, texts: seq<Text>)
    requires Digests(digest, s) && Verified(digest, a) && a != [] && CollisionFree(s, texts)
    requires forall t :: t in Texts(s, a) ==> t in texts
    ensures var e := a[|a| - 1];
      && e.index == |a| - 1 && e.previousHash == Head(a[..|a| - 1]) && e.hash == Head(a) != GENESIS
      && e.hash == s.hash(Canonical(BaseOf(e), s.less)) && Canonical(BaseOf(e), s.less) in texts
  {
    LastIsOk(digest, a);
    LastTextIsListed(s, a, texts);
    DigestOf(digest, s, BaseOf(a[|a| - 1]), texts);
  }

  lemma LastIsOk(digest: Digest, a: seq<Entry>)
    requires Verified(digest, a) && a != []
    ensures var e := a[|a| - 1];
      e.index == |a| - 1 && e.previousHash == Head(a[..|a| - 1]) && e.hash == digest(BaseOf(e)) == Head(a)
  {
    assert EntryOk(digest, a, |a| - 1);
  }

  lemma DigestOf(digest: Digest, s: Scheme, v: Json, texts: seq<Text>)
    requires Digests(digest, s) && CollisionFree(s, texts) && Canonical(v, s.less) in texts
    ensures digest(v) == s.hash(Canonical(v, s.less)) != GENESIS
  {
  }

  lemma LastTextIsListed(s: Scheme, a: seq<Entry>, texts: seq<Text>)
    requires a != [] && forall t :: t in Texts(s, a) ==> t in texts
    ensures Canonical(BaseOf(a[|a| - 1]), s.less) in texts
  {
    assert Texts(s, a)[|a| - 1] in texts;
  }

  lemma LastEntriesAgree(digest: Digest, s: Scheme, a: seq<Entry>, b: seq<Entry>, texts: seq<Text>)
    requires Digests(digest, s) && TotalOrder(s.less) && Verified(digest, a) && Verified(digest, b)
    requires WellFormed(a) && WellFormed(b) && a != [] && b != []
    requires CollisionFree(s, texts) && forall t :: t in Texts(s, a) || t in Texts(s, b) ==> t in texts
    requires Head(a) == Head(b)
    ensures var x, y := a[|a| - 1], b[|b| - 1];
      && x.index == |a| - 1 && y.index == |b| - 1 && x.kind == y.kind && SameTree(x.payload, y.payload)
      && x.previousHash == y.previousHash && x.hash == y.hash
    ensures Head(a[..|a| - 1]) == Head(b[..|b| - 1])
  {
    LastEntry(digest, s, a, texts);
    LastEntry(digest, s, b, texts);
    SameTextSameEntry(s.less, a[|a| - 1], b[|b| - 1]);
  }

  lemma TextsOfPrefix(s: Scheme, entries: seq<Entry>, n: nat)
    requires n <= |entries|
    ensures Texts(s, entries[..n]) == Texts(s, entries)[..n]
  {
  }
}
