/** Newline-delimited JSON framing of the signer's socket. */
module Framing {
  import opened Prelude

  const NEWLINE: Byte := 10

  type Parser<!V> = seq<Byte> -> Option<V>

  datatype Outcome<V> = Frames(out: seq<V>) | TooLarge | BadJson

  function FirstNewline(s: seq<Byte>): (r: Option<nat>)
    ensures r.Some? ==> r.value < |s| && s[r.value] == NEWLINE && NEWLINE !in s[..r.value]
    ensures r.None? ==> NEWLINE !in s
  {
    if s == [] then None
    else if s[0] == NEWLINE then Some(0)
    else
      var r := FirstNewline(s[1..]);
      if r.Some? then assert s[..r.value + 1] == [s[0]] + s[1..][..r.value]; Some(r.value + 1) else None
  }

  function Prepend<V>(v: V, rest: (Outcome<V>, seq<Byte>)): (Outcome<V>, seq<Byte>) {
    if rest.0.Frames? then (Frames([v] + rest.0.out), rest.1) else rest
  }

  /** The loop of `push`: take complete lines off the front until none is left or one is refused. */
  function Drain<V>(max: nat, parse: Parser<V>, p: seq<Byte>): (Outcome<V>, seq<Byte>)
    decreases |p|
  {
    match FirstNewline(p)
    case None => (Frames([]), p)
    case Some(i) =>
      if i > max then (TooLarge, p)
      else if i == 0 then Drain(max, parse, p[1..])
      else
        match parse(p[..i])
        case None => (BadJson, p[i + 1..])
        case Some(v) => Prepend(v, Drain(max, parse, p[i + 1..]))
  }

  /** Taking one line off the front. */
  lemma DrainLine<V>(max: nat, parse: Parser<V>, p: seq<Byte>, i: nat)
    requires FirstNewline(p) == Some(i)
    ensures var rest := p[i + 1..];
      Drain(max, parse, p)
      == if i > max then (TooLarge, p)
         else if i == 0 then Drain(max, parse, rest)
         else if parse(p[..i]).None? then (BadJson, rest)
         else Prepend(parse(p[..i]).value, Drain(max, parse, rest))
  {
  }

  /** What the loop owes once it has collected `out`. */
  function With<V>(out: seq<V>, rest: (Outcome<V>, seq<Byte>)): (Outcome<V>, seq<Byte>) {
    if rest.0.Frames? then (Frames(out + rest.0.out), rest.1) else rest
  }

  lemma WithCons<V>(out: seq<V>, v: V, rest: (Outcome<V>, seq<Byte>))
    ensures With(out, Prepend(v, rest)) == With(out + [v], rest)
  {
    if rest.0.Frames? {
      assert out + ([v] + rest.0.out) == (out + [v]) + rest.0.out;
    }
  }

  lemma WithNothing<V>(rest: (Outcome<V>, seq<Byte>))
    ensures With([], rest) == rest
  {
    if rest.0.Frames? {
      assert [] + rest.0.out == rest.0.out;
    }
  }

  function PushOn<V>(max: nat, parse: Parser<V>, pending: seq<Byte>, chunk: seq<Byte>): (Outcome<V>, seq<Byte>) {
    var p := pending + chunk;
    if |p| > max && NEWLINE !in p then (TooLarge, p) else Drain(max, parse, p)
  }

  class JsonFrameDecoder<V> {
    const max: nat
    const parse: Parser<V>
    var pending: seq<Byte>

    constructor (max: nat, parse: Parser<V>)
      ensures this.max == max && this.parse == parse && pending == []
    {
      this.max, this.parse, pending := max, parse, [];
    }

    method Push(chunk: seq<Byte>) returns (r: Outcome<V>)
      modifies this
      ensures (r, pending) == PushOn(max, parse, old(pending), chunk)
    {
      pending := pending + chunk;
      if |pending| > max && NEWLINE !in pending {
        return TooLarge;
      }
      ghost var all := pending;
      var out: seq<V> := [];
      WithNothing(Drain(max, parse, all));
      while true
        invariant Drain(max, parse, all) == With(out, Drain(max, parse, pending))
        decreases |pending|
      {
        var i := FirstNewline(pending);
        if i.None? {
          assert out + [] == out;
          return Frames(out);
        }
        DrainLine(max, parse, pending, i.value);
        if i.value > max {
          return TooLarge;
        }
        var line := pending[..i.value];
        pending := pending[i.value + 1..];
        if line != [] {
          var v := parse(line);
          if v.None? {
            return BadJson;
          }
          WithCons(out, v.value, Drain(max, parse, pending));
          out := out + [v.value];
        }
      }
    }
  }

  // ---------------------------------------------------------------- a stream, seen whole

  /** Every complete line of the stream, without its newline, in order. */
  function Lines(s: seq<Byte>): seq<seq<Byte>>
    decreases |s|
  {
    match FirstNewline(s)
    case None => []
    case Some(i) => [s[..i]] + Lines(s[i + 1..])
  }

  /** What follows the last newline. */
  function Tail(s: seq<Byte>): (t: seq<Byte>)
    ensures NEWLINE !in t
    decreases |s|
  {
    match FirstNewline(s)
    case None => s
    case Some(i) => Tail(s[i + 1..])
  }

  /** A line the protocol accepts: blank, or within the limit and parseable. */
  predicate GoodLine<V>(max: nat, parse: Parser<V>, line: seq<Byte>) {
    line == [] || (|line| <= max && parse(line).Some?)
  }

  predicate GoodLines<V>(max: nat, parse: Parser<V>, lines: seq<seq<Byte>>) {
    forall i | 0 <= i < |lines| :: GoodLine(max, parse, lines[i])
  }

  function Values<V>(parse: Parser<V>, lines: seq<seq<Byte>>): seq<V> {
    if lines == [] then []
    else if lines[0] == [] || parse(lines[0]).None? then Values(parse, lines[1..])
    else [parse(lines[0]).value] + Values(parse, lines[1..])
  }

  /** Feed chunks one push at a time; a refused push ends the connection. */
  function Feed<V>(max: nat, parse: Parser<V>, pending: seq<Byte>, chunks: seq<seq<Byte>>): (Outcome<V>, seq<Byte>)
    decreases |chunks|
  {
    if chunks == [] then (Frames([]), pending)
    else
      var first := PushOn(max, parse, pending, chunks[0]);
      if !first.0.Frames? then first
      else
        var rest := Feed(max, parse, first.1, chunks[1..]);
        if rest.0.Frames? then (Frames(first.0.out + rest.0.out), rest.1) else rest
  }

  function Concat(chunks: seq<seq<Byte>>): seq<Byte> {
    if chunks == [] then [] else chunks[0] + Concat(chunks[1..])
  }

  // ---------------------------------------------------------------- draining and splitting

  lemma {:induction false} FirstNewlineIs(s: seq<Byte>, i: nat)
    requires i < |s| && s[i] == NEWLINE && NEWLINE !in s[..i]
    ensures FirstNewline(s) == Some(i)
  {
    assert s[i] in s;
  }

  lemma GoodCons<V>(max: nat, parse: Parser<V>, line: seq<Byte>, rest: seq<seq<Byte>>)
    ensures GoodLines(max, parse, [line] + rest) <==> GoodLine(max, parse, line) && GoodLines(max, parse, rest)
  {
    var lines := [line] + rest;
    assert lines[0] == line;
    assert forall k :: 0 <= k < |rest| ==> rest[k] == lines[k + 1];
  }

  lemma ValuesCons<V>(parse: Parser<V>, line: seq<Byte>, rest: seq<seq<Byte>>)
    ensures Values(parse, [line] + rest)
         == (if line == [] || parse(line).None? then [] else [parse(line).value]) + Values(parse, rest)
  {
    assert ([line] + rest)[1..] == rest;
  }

  /** The loop succeeds exactly when every complete line is good, and then yields their values and keeps the tail. */
  ghost predicate Splits<V>(max: nat, parse: Parser<V>, p: seq<Byte>) {
    var drained := Drain(max, parse, p);
    && (drained.0.Frames? <==> GoodLines(max, parse, Lines(p)))
    && (drained.0.Frames? ==> drained == (Frames(Values(parse, Lines(p))), Tail(p)))
  }

  lemma LinesOfFirst(p: seq<Byte>, i: nat)
    requires FirstNewline(p) == Some(i)
    ensures Lines(p) == [p[..i]] + Lines(p[i + 1..]) && Tail(p) == Tail(p[i + 1..])
  {
  }

  lemma SplitsLine<V>(max: nat, parse: Parser<V>, p: seq<Byte>, i: nat)
    requires FirstNewline(p) == Some(i) && Splits(max, parse, p[i + 1..])
    ensures Splits(max, parse, p)
  {
    DrainLine(max, parse, p, i);
    LinesOfFirst(p, i);
    GoodCons(max, parse, p[..i], Lines(p[i + 1..]));
    ValuesCons(parse, p[..i], Lines(p[i + 1..]));
  }

  lemma {:induction false} DrainSplits<V>(max: nat, parse: Parser<V>, p: seq<Byte>)
    ensures Splits(max, parse, p)
    decreases |p|
  {
    var first := FirstNewline(p);
    if first.Some? {
      DrainSplits(max, parse, p[first.value + 1..]);
      SplitsLine(max, parse, p, first.value);
    }
  }

  lemma NoNewlineHasNoLines(s: seq<Byte>)
    requires NEWLINE !in s
    ensures Lines(s) == [] && Tail(s) == s
  {
  }

  lemma FirstLineOfConcat(a: seq<Byte>, b: seq<Byte>, i: nat)
    requires FirstNewline(a) == Some(i)
    ensures FirstNewline(a + b) == Some(i)
    ensures (a + b)[..i] == a[..i] && (a + b)[i + 1..] == a[i + 1..] + b
  {
    assert (a + b)[..i] == a[..i];
    FirstNewlineIs(a + b, i);
  }

  /** Splitting can be resumed: the tail of a prefix carries all that is needed of it. */
  lemma {:induction false} SplitResumes(a: seq<Byte>, b: seq<Byte>)
    ensures Lines(a + b) == Lines(a) + Lines(Tail(a) + b)
    ensures Tail(a + b) == Tail(Tail(a) + b)
    decreases |a|
  {
    var first := FirstNewline(a);
    if first.Some? {
      var i := first.value;
      FirstLineOfConcat(a, b, i);
      SplitResumes(a[i + 1..], b);
      var line, inner, outer := [a[..i]], Lines(a[i + 1..]), Lines(Tail(a) + b);
      assert line + (inner + outer) == line + inner + outer;
    }
  }

  lemma {:induction false} ValuesOfConcat<V>(parse: Parser<V>, a: seq<seq<Byte>>, b: seq<seq<Byte>>)
    ensures Values(parse, a + b) == Values(parse, a) + Values(parse, b)
  {
    if a == [] {
      assert a + b == b;
    } else {
      assert (a + b)[1..] == a[1..] + b;
      ValuesOfConcat(parse, a[1..], b);
    }
  }

  lemma GoodConcat<V>(max: nat, parse: Parser<V>, a: seq<seq<Byte>>, b: seq<seq<Byte>>)
    ensures GoodLines(max, parse, a + b) <==> GoodLines(max, parse, a) && GoodLines(max, parse, b)
  {
    assert forall i :: 0 <= i < |b| ==> (a + b)[|a| + i] == b[i];
    assert forall i :: 0 <= i < |a| ==> (a + b)[i] == a[i];
  }

  // ---------------------------------------------------------------- one push

  /** Exactly when one push is accepted: every line it completes is good, and an unfinished line fits the limit
    * unless this push also completed one. */
  lemma PushSucceedsExactly<V>(max: nat, parse: Parser<V>, pending: seq<Byte>, chunk: seq<Byte>)
    ensures PushOn(max, parse, pending, chunk).0.Frames?
            <==> GoodLines(max, parse, Lines(pending + chunk))
                 && (NEWLINE in pending + chunk || |pending + chunk| <= max)
    ensures PushOn(max, parse, pending, chunk).0.Frames? ==>
      PushOn(max, parse, pending, chunk) == (Frames(Values(parse, Lines(pending + chunk))), Tail(pending + chunk))
  {
    DrainSplits(max, parse, pending + chunk);
  }

  // ---------------------------------------------------------------- many pushes

  lemma ConcatSplits(pending: seq<Byte>, chunks: seq<seq<Byte>>)
    requires chunks != []
    ensures pending + Concat(chunks) == (pending + chunks[0]) + Concat(chunks[1..])
  {
  }

  /** However the stream was cut, an accepted feed yields the values of the whole stream and keeps its tail. */
  lemma {:induction false} AcceptedFeedIgnoresCuts<V>(max: nat, parse: Parser<V>, pending: seq<Byte>,
      chunks: seq<seq<Byte>>)
    requires NEWLINE !in pending
    requires Feed(max, parse, pending, chunks).0.Frames?
    ensures var stream := pending + Concat(chunks);
      && GoodLines(max, parse, Lines(stream))
      && Feed(max, parse, pending, chunks) == (Frames(Values(parse, Lines(stream))), Tail(stream))
    decreases |chunks|
  {
    if chunks == [] {
      assert pending + Concat(chunks) == pending;
      NoNewlineHasNoLines(pending);
    } else {
      var p := pending + chunks[0];
      PushSucceedsExactly(max, parse, pending, chunks[0]);
      AcceptedFeedIgnoresCuts(max, parse, Tail(p), chunks[1..]);
      ConcatSplits(pending, chunks);
      SplitResumes(p, Concat(chunks[1..]));
      ValuesOfConcat(parse, Lines(p), Lines(Tail(p) + Concat(chunks[1..])));
      GoodConcat(max, parse, Lines(p), Lines(Tail(p) + Concat(chunks[1..])));
    }
  }

  /** The first line of a stream is at least as long as whatever precedes the newline in a prefix of it. */
  lemma PrefixFits<V>(max: nat, parse: Parser<V>, p: seq<Byte>, rest: seq<Byte>)
    requires NEWLINE !in p && GoodLines(max, parse, Lines(p + rest)) && |Tail(p + rest)| <= max
    ensures |p| <= max
  {
    var first := FirstNewline(p + rest);
    if first.Some? {
      assert Lines(p + rest)[0] == (p + rest)[..first.value];
      if p != [] {
        assert GoodLine(max, parse, Lines(p + rest)[0]);
      }
    }
  }

  /** If every complete line of the stream is good and its tail fits, no way of cutting it makes the decoder throw. */
  lemma {:induction false} GoodStreamIsAccepted<V>(max: nat, parse: Parser<V>, pending: seq<Byte>,
      chunks: seq<seq<Byte>>)
    requires NEWLINE !in pending
    requires GoodLines(max, parse, Lines(pending + Concat(chunks))) && |Tail(pending + Concat(chunks))| <= max
    ensures Feed(max, parse, pending, chunks).0.Frames?
    decreases |chunks|
  {
    if chunks != [] {
      var p := pending + chunks[0];
      var rest := Concat(chunks[1..]);
      ConcatSplits(pending, chunks);
      SplitResumes(p, rest);
      GoodConcat(max, parse, Lines(p), Lines(Tail(p) + rest));
      if NEWLINE !in p {
        PrefixFits(max, parse, p, rest);
      }
      PushSucceedsExactly(max, parse, pending, chunks[0]);
      GoodStreamIsAccepted(max, parse, Tail(p), chunks[1..]);
    }
  }

  // ---------------------------------------------------------------- encoding

  function Encode<V>(encode: V -> seq<Byte>, vs: seq<V>): seq<Byte> {
    if vs == [] then [] else encode(vs[0]) + [NEWLINE] + Encode(encode, vs[1..])
  }

  /** The encoder writes each value on one line of its own that parses back to it. */
  ghost predicate Framable<V>(max: nat, parse: Parser<V>, encode: V -> seq<Byte>, vs: seq<V>) {
    forall i :: 0 <= i < |vs| ==>
      var line := encode(vs[i]);
      line != [] && |line| <= max && NEWLINE !in line && parse(line) == Some(vs[i])
  }

  lemma LinesOfLine(line: seq<Byte>, rest: seq<Byte>)
    requires NEWLINE !in line
    ensures Lines(line + [NEWLINE] + rest) == [line] + Lines(rest) && Tail(line + [NEWLINE] + rest) == Tail(rest)
  {
    var s := line + [NEWLINE] + rest;
    assert s[..|line|] == line && s[|line|] == NEWLINE;
    FirstNewlineIs(s, |line|);
    assert s[|line| + 1..] == rest;
  }

  lemma {:induction false} EncodedLines<V>(max: nat, parse: Parser<V>, encode: V -> seq<Byte>, vs: seq<V>)
    requires Framable(max, parse, encode, vs)
    ensures GoodLines(max, parse, Lines(Encode(encode, vs)))
    ensures Values(parse, Lines(Encode(encode, vs))) == vs && Tail(Encode(encode, vs)) == []
    decreases |vs|
  {
    if vs != [] {
      var line, rest := encode(vs[0]), Encode(encode, vs[1..]);
      EncodedLines(max, parse, encode, vs[1..]);
      LinesOfLine(line, rest);
      GoodCons(max, parse, line, Lines(rest));
      ValuesCons(parse, line, Lines(rest));
      assert vs == [vs[0]] + vs[1..];
    }
  }

  /** Encode any list of values, cut the bytes anywhere, push the pieces: the same list comes out, with nothing
      pending. */
  lemma DecodeUndoesEncode<V>(max: nat, parse: Parser<V>, encode: V -> seq<Byte>, vs: seq<V>, chunks: seq<seq<Byte>>)
    requires Framable(max, parse, encode, vs) && Concat(chunks) == Encode(encode, vs)
    ensures Feed(max, parse, [], chunks) == (Frames(vs), [])
  {
    EncodedLines(max, parse, encode, vs);
    assert [] + Concat(chunks) == Concat(chunks);
    GoodStreamIsAccepted(max, parse, [], chunks);
    AcceptedFeedIgnoresCuts(max, parse, [], chunks);
  }
}
