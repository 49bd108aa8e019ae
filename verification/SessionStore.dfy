/** Branching chat sessions: rows of sessions and messages, and the transcript a branch inherits. */
module Sessions {
  import opened Prelude

  datatype Branch = Branch(session: string, message: string)

  datatype Session = Session(id: string, title: Option<string>, parent: Option<Branch>, createdAt: int)

  /** `sequence` is the row number the table assigns. */
  datatype Message = Message(id: string, sessionId: string, role: string, content: string, createdAt: int,
    sequence: nat)

  /** Rows in the order they were inserted; no statement updates or deletes them. */
  datatype Tables = Tables(sessions: seq<Session>, messages: seq<Message>)

  function FindSession(sessions: seq<Session>, id: string): (r: Option<nat>)
    ensures r.Some? ==> r.value < |sessions| && sessions[r.value].id == id
    ensures r.None? ==> forall k :: 0 <= k < |sessions| ==> sessions[k].id != id
  {
    if sessions == [] then None
    else if sessions[|sessions| - 1].id == id then Some(|sessions| - 1)
    else FindSession(sessions[..|sessions| - 1], id)
  }

  function FindMessage(rows: seq<Message>, id: string): (r: Option<nat>)
    ensures r.Some? ==> r.value < |rows|
  {
    if rows == [] then None
    else
      var before := FindMessage(rows[..|rows| - 1], id);
      if before.Some? then before
      else if rows[|rows| - 1].id == id then Some(|rows| - 1)
      else None
  }

  /** The first message of that id, if there is one. */
  lemma {:induction false} FindMessageIs(rows: seq<Message>, id: string)
    ensures var r := FindMessage(rows, id);
      && (r.Some? ==> rows[r.value].id == id && forall k :: 0 <= k < r.value ==> rows[k].id != id)
      && (r.None? ==> forall k :: 0 <= k < |rows| ==> rows[k].id != id)
  {
    if rows != [] {
      var n := |rows| - 1;
      FindMessageIs(rows[..n], id);
      assert forall k :: 0 <= k < n ==> rows[..n][k] == rows[k];
    }
  }

  lemma FindMessageAt(rows: seq<Message>, id: string, i: nat)
    requires i < |rows| && rows[i].id == id && forall k :: 0 <= k < i ==> rows[k].id != id
    ensures FindMessage(rows, id) == Some(i)
  {
    FindMessageIs(rows, id);
  }

  /** The messages of one session, in order. */
  function Own(messages: seq<Message>, id: string): seq<Message> {
    if messages == [] then []
    else
      var n := |messages| - 1;
      Own(messages[..n], id) + if messages[n].sessionId == id then [messages[n]] else []
  }

  predicate HasMessage(t: Tables, b: Branch) {
    exists i | 0 <= i < |t.messages| :: t.messages[i].sessionId == b.session && t.messages[i].id == b.message
  }

  /** One of the first `n` sessions has this id. */
  predicate HasSession(sessions: seq<Session>, n: nat, id: string)
    requires n <= |sessions|
  {
    exists j | 0 <= j < n :: sessions[j].id == id
  }

  /** What the schema's keys and references guarantee. */
  predicate Valid(t: Tables) {
    && (forall j, k | 0 <= j < k < |t.sessions| :: t.sessions[j].id != t.sessions[k].id)
    && (forall i, j | 0 <= i < j < |t.messages| :: t.messages[i].id != t.messages[j].id)
    && (forall i | 0 <= i < |t.messages| ::
         t.messages[i].sequence == i + 1 && HasSession(t.sessions, |t.sessions|, t.messages[i].sessionId))
    && (forall k | 0 <= k < |t.sessions| :: t.sessions[k].parent.Some? ==>
         var b := t.sessions[k].parent.value;
         HasMessage(t, b) && HasSession(t.sessions, k, b.session))
  }

  // ---------------------------------------------------------------- statements

  datatype SessionRequest = SessionRequest(
    id: string, title: Option<string>, parentSession: Option<string>, parentMessage: Option<string>, createdAt: int)

  const BAD_PARENT := "CHECK constraint failed"
  const NO_REFERENCE := "FOREIGN KEY constraint failed"
  const SESSION_CONFLICT := "Session id conflict"
  const MESSAGE_CONFLICT := "Message id conflict"

  function Requested(r: SessionRequest): Session {
    Session(r.id, r.title, if r.parentSession.Some? && r.parentMessage.Some?
                           then Some(Branch(r.parentSession.value, r.parentMessage.value)) else None, r.createdAt)
  }

  /** Insert unless the id is taken; then the stored row must be the requested one. */
  function Create(t: Tables, r: SessionRequest): (Tables, Result<Session, string>) {
    var s := Requested(r);
    if r.parentSession.Some? != r.parentMessage.Some? then (t, Err(BAD_PARENT))
    else
      match FindSession(t.sessions, r.id)
      case Some(k) => (t, if t.sessions[k] == s then Ok(s) else Err(SESSION_CONFLICT))
      case None =>
        if s.parent.Some? && !HasMessage(t, s.parent.value) then (t, Err(NO_REFERENCE))
        else (t.(sessions := t.sessions + [s]), Ok(s))
  }

  predicate SameMessage(a: Message, b: Message) {
    a.(sequence := 0) == b.(sequence := 0)
  }

  function Append(t: Tables, m: Message): (Tables, Result<Message, string>) {
    match FindMessage(t.messages, m.id)
    case Some(i) => (t, if SameMessage(t.messages[i], m) then Ok(t.messages[i]) else Err(MESSAGE_CONFLICT))
    case None =>
      if FindSession(t.sessions, m.sessionId).None? then (t, Err(NO_REFERENCE))
      else
        var row := m.(sequence := |t.messages| + 1);
        (t.(messages := t.messages + [row]), Ok(row))
  }

  // ---------------------------------------------------------------- transcripts

  /** The position of the session this one branched from. An empty parent id reads as no parent. */
  function ParentOf(t: Tables, k: nat): (r: Option<nat>)
    requires Valid(t) && k < |t.sessions|
    ensures r.Some? ==>
      r.value < k && t.sessions[k].parent.Some? && t.sessions[r.value].id == t.sessions[k].parent.value.session
  {
    if t.sessions[k].parent.None? || t.sessions[k].parent.value.session == "" then None
    else FindSession(t.sessions, t.sessions[k].parent.value.session)
  }

  /** Up to and including the branch message. An empty message id reads as no cut. */
  function Cut(rows: seq<Message>, message: string): seq<Message> {
    if message == "" then rows
    else
      match FindMessage(rows, message)
      case Some(i) => rows[..i + 1]
      case None => rows
  }

  /** What a reader of session `k` sees. */
  function Transcript(t: Tables, k: nat): seq<Message>
    requires Valid(t) && k < |t.sessions|
    decreases k, 1
  {
    Inherited(t, k) + Own(t.messages, t.sessions[k].id)
  }

  /** The parent's transcript, cut at the branch message. */
  function Inherited(t: Tables, k: nat): seq<Message>
    requires Valid(t) && k < |t.sessions|
    decreases k, 0
  {
    match ParentOf(t, k)
    case None => []
    case Some(j) => Cut(Transcript(t, j), t.sessions[k].parent.value.message)
  }

  /** From the root down to session `k`. */
  function Line(t: Tables, k: nat): seq<Session>
    requires Valid(t) && k < |t.sessions|
    decreases k, 1
  {
    Above(t, k) + [t.sessions[k]]
  }

  function Above(t: Tables, k: nat): seq<Session>
    requires Valid(t) && k < |t.sessions|
    decreases k, 0
  {
    match ParentOf(t, k)
    case None => []
    case Some(j) => Line(t, j)
  }

  /** The stretch of line[n]'s own rows that its successor keeps. */
  function Piece(messages: seq<Message>, line: seq<Session>, n: nat): seq<Message>
    requires n < |line|
  {
    if n + 1 < |line| && line[n + 1].parent.Some? then Cut(Own(messages, line[n].id), line[n + 1].parent.value.message)
    else Own(messages, line[n].id)
  }

  function Pieces(messages: seq<Message>, line: seq<Session>, n: nat): seq<Message>
    requires n <= |line|
  {
    if n == 0 then [] else Pieces(messages, line, n - 1) + Piece(messages, line, n - 1)
  }

  lemma {:induction false} OwnHas(messages: seq<Message>, id: string, m: Message)
    ensures m in Own(messages, id) <==> m in messages && m.sessionId == id
  {
    if messages != [] {
      var n := |messages| - 1;
      OwnHas(messages[..n], id, m);
      assert messages == messages[..n] + [messages[n]];
    }
  }

  lemma PieceOfPrefix(messages: seq<Message>, line: seq<Session>, longer: seq<Session>, n: nat)
    requires n + 1 < |line| <= |longer| && longer[n] == line[n] && longer[n + 1] == line[n + 1]
    ensures Piece(messages, longer, n) == Piece(messages, line, n)
  {
  }

  lemma {:induction false} PiecesOfPrefix(messages: seq<Message>, line: seq<Session>, longer: seq<Session>, n: nat)
    requires n < |line| <= |longer| && forall i :: 0 <= i < |line| ==> longer[i] == line[i]
    ensures Pieces(messages, longer, n) == Pieces(messages, line, n)
  {
    if n > 0 {
      PiecesOfPrefix(messages, line, longer, n - 1);
      PieceOfPrefix(messages, line, longer, n - 1);
    }
  }

  /** An inherited message belongs to an earlier session. */
  lemma {:induction false} InheritedIsForeign(t: Tables, k: nat, m: Message)
    requires Valid(t) && k < |t.sessions| && m in Inherited(t, k)
    ensures m in t.messages && m.sessionId != t.sessions[k].id
    ensures exists j :: 0 <= j < k && t.sessions[j].id == m.sessionId
  {
    var j := ParentOf(t, k).value;
    assert m in Transcript(t, j);
    OwnHas(t.messages, t.sessions[j].id, m);
    if m in Inherited(t, j) {
      InheritedIsForeign(t, j, m);
    }
  }

  lemma BranchMessageIsOwn(t: Tables, k: nat)
    requires Valid(t) && k < |t.sessions| && ParentOf(t, k).Some?
    ensures var b := t.sessions[k].parent.value;
      FindMessage(Own(t.messages, b.session), b.message).Some?
  {
    var b := t.sessions[k].parent.value;
    var i :| 0 <= i < |t.messages| && t.messages[i].sessionId == b.session && t.messages[i].id == b.message;
    OwnHas(t.messages, b.session, t.messages[i]);
    FindMessageIs(Own(t.messages, b.session), b.message);
  }

  lemma FoundBehind(a: seq<Message>, b: seq<Message>, message: string, i: nat)
    requires FindMessage(a, message).None? && FindMessage(b, message) == Some(i)
    ensures FindMessage(a + b, message) == Some(|a| + i)
  {
    FindMessageIs(a, message);
    FindMessageIs(b, message);
    var rows := a + b;
    assert rows[|a| + i] == b[i];
    forall k | 0 <= k < |a| + i
      ensures rows[k].id != message
    {
      if k >= |a| {
        assert rows[k] == b[k - |a|];
      }
    }
    FindMessageAt(rows, message, |a| + i);
  }

  lemma FoundInFront(a: seq<Message>, b: seq<Message>, message: string, i: nat)
    requires FindMessage(a, message) == Some(i)
    ensures FindMessage(a + b, message) == Some(i)
  {
    FindMessageIs(a, message);
    assert forall k :: 0 <= k <= i ==> (a + b)[k] == a[k];
    FindMessageAt(a + b, message, i);
  }

  lemma CutOfConcat(a: seq<Message>, b: seq<Message>, message: string)
    requires message != "" ==> FindMessage(a, message).None? && FindMessage(b, message).Some?
    ensures Cut(a + b, message) == a + Cut(b, message)
  {
    if message != "" {
      var i := FindMessage(b, message).value;
      FoundBehind(a, b, message, i);
      assert (a + b)[..|a| + i + 1] == a + b[..i + 1];
    }
  }

  /** The branch message stands in the parent's own rows, not in what the parent inherited. */
  lemma BranchMessageIsNotInherited(t: Tables, k: nat)
    requires Valid(t) && k < |t.sessions| && ParentOf(t, k).Some?
    ensures FindMessage(Inherited(t, ParentOf(t, k).value), t.sessions[k].parent.value.message).None?
  {
    var j, b := ParentOf(t, k).value, t.sessions[k].parent.value;
    var rows := Inherited(t, j);
    var i :| 0 <= i < |t.messages| && t.messages[i].sessionId == b.session && t.messages[i].id == b.message;
    forall n | 0 <= n < |rows|
      ensures rows[n].id != b.message
    {
      InheritedIsForeign(t, j, rows[n]);
      var o :| 0 <= o < |t.messages| && t.messages[o] == rows[n];
      assert o != i;
    }
    FindMessageIs(rows, b.message);
  }

  lemma LineOfChild(t: Tables, k: nat, j: nat)
    requires Valid(t) && k < |t.sessions| && ParentOf(t, k) == Some(j)
    ensures Line(t, k) == Line(t, j) + [t.sessions[k]]
    ensures Line(t, j) != [] && Line(t, j)[|Line(t, j)| - 1] == t.sessions[j]
  {
  }

  /** The pieces along the line: what its last session inherits, then that session's own rows. */
  ghost predicate ReadsAs(messages: seq<Message>, line: seq<Session>, inherited: seq<Message>, own: seq<Message>) {
    && line != []
    && Pieces(messages, line, |line| - 1) == inherited && Pieces(messages, line, |line|) == inherited + own
  }

  /** One session more at the end of the line: its predecessor is cut at the branch, its own rows follow. */
  lemma PiecesOfChild(
    messages: seq<Message>, line: seq<Session>, child: Session, inherited: seq<Message>, own: seq<Message>)
    requires ReadsAs(messages, line, inherited, own) && child.parent.Some? && own == Own(messages, line[|line| - 1].id)
    ensures ReadsAs(
      messages, line + [child], inherited + Cut(own, child.parent.value.message), Own(messages, child.id))
  {
    PiecesOfPrefix(messages, line, line + [child], |line| - 1);
  }

  lemma {:induction false} LineReads(t: Tables, k: nat)
    requires Valid(t) && k < |t.sessions|
    ensures ReadsAs(t.messages, Line(t, k), Inherited(t, k), Own(t.messages, t.sessions[k].id))
  {
    match ParentOf(t, k)
    case None => RootReads(t, k);
    case Some(j) =>
      LineReads(t, j);
      ChildReads(t, k, j);
  }

  lemma ChildReads(t: Tables, k: nat, j: nat)
    requires Valid(t) && k < |t.sessions| && ParentOf(t, k) == Some(j)
    requires ReadsAs(t.messages, Line(t, j), Inherited(t, j), Own(t.messages, t.sessions[j].id))
    ensures ReadsAs(t.messages, Line(t, k), Inherited(t, k), Own(t.messages, t.sessions[k].id))
  {
    LineOfChild(t, k, j);
    InheritedFromParent(t, k, j);
    PiecesOfChild(t.messages, Line(t, j), t.sessions[k], Inherited(t, j), Own(t.messages, t.sessions[j].id));
  }

  lemma RootStands(t: Tables, k: nat)
    requires Valid(t) && k < |t.sessions| && ParentOf(t, k).None?
    ensures Line(t, k) == [t.sessions[k]] && Inherited(t, k) == []
  {
    match ParentOf(t, k)
    case None =>
      assert Above(t, k) == [];
  }

  lemma RootReads(t: Tables, k: nat)
    requires Valid(t) && k < |t.sessions| && ParentOf(t, k).None?
    ensures ReadsAs(t.messages, Line(t, k), Inherited(t, k), Own(t.messages, t.sessions[k].id))
  {
    var line := [t.sessions[k]];
    RootStands(t, k);
    assert Pieces(t.messages, line, 1) == Pieces(t.messages, line, 0) + Piece(t.messages, line, 0);
  }

  /** Reading the pieces along the line is reading the transcript. */
  lemma PiecesAreTranscript(t: Tables, k: nat)
    requires Valid(t) && k < |t.sessions|
    ensures var line := Line(t, k);
      Pieces(t.messages, line, |line| - 1) == Inherited(t, k) && Pieces(t.messages, line, |line|) == Transcript(t, k)
  {
    LineReads(t, k);
  }

  /** The cut falls into the parent's own rows. */
  lemma InheritedFromParent(t: Tables, k: nat, j: nat)
    requires Valid(t) && k < |t.sessions| && ParentOf(t, k) == Some(j)
    ensures Inherited(t, k)
         == Inherited(t, j) + Cut(Own(t.messages, t.sessions[j].id), t.sessions[k].parent.value.message)
  {
    BranchMessageIsOwn(t, k);
    BranchMessageIsNotInherited(t, k);
    CutOfConcat(Inherited(t, j), Own(t.messages, t.sessions[j].id), t.sessions[k].parent.value.message);
  }

  /** The id of a session at position `from` or later. */
  ghost predicate IdFrom(sessions: seq<Session>, from: nat, id: string) {
    exists i :: from <= i < |sessions| && sessions[i].id == id
  }

  lemma Regroup(above: seq<Session>, s: Session, line: seq<Session>)
    ensures above + [s] + line == above + ([s] + line)
  {
  }

  lemma NewOnTheLine(t: Tables, j: nat, k: nat)
    requires Valid(t) && j < k < |t.sessions|
    ensures !IdFrom(t.sessions, k, t.sessions[j].id) && IdFrom(t.sessions, j, t.sessions[j].id)
    ensures forall id :: IdFrom(t.sessions, k, id) ==> IdFrom(t.sessions, j, id)
  {
  }

  /** The successor of line[n] branched from one of its own messages. */
  predicate Linked(messages: seq<Message>, line: seq<Session>, n: nat)
    requires n < |line|
  {
    n + 1 < |line| ==>
      && line[n + 1].parent.Some? && line[n + 1].parent.value.session == line[n].id
      && FindMessage(Own(messages, line[n].id), line[n + 1].parent.value.message).Some?
  }

  // ---------------------------------------------------------------- the object

  class SessionStore {
    var sessions: seq<Session>
    var messages: seq<Message>

    ghost function State(): Tables
      reads this
    {
      Tables(sessions, messages)
    }

    constructor ()
      ensures State() == Tables([], []) && Valid(State())
    {
      sessions, messages := [], [];
    }

    method CreateSession(r: SessionRequest) returns (answer: Result<Session, string>)
      requires Valid(State())
      modifies this
      ensures (State(), answer) == Create(old(State()), r)
      ensures Valid(State())
    {
      CreateKeepsValid(State(), r);
      if r.parentSession.Some? != r.parentMessage.Some? {
        return Err(BAD_PARENT);
      }
      var s := Requested(r);
      var found := FindSession(sessions, r.id);
      if found.None? {
        if s.parent.Some? && !exists i | 0 <= i < |messages| ::
             messages[i].sessionId == s.parent.value.session && messages[i].id == s.parent.value.message {
          return Err(NO_REFERENCE);
        }
        sessions := sessions + [s];
        return Ok(s);
      }
      answer := if sessions[found.value] == s then Ok(s) else Err(SESSION_CONFLICT);
    }

    method AppendMessage(m: Message) returns (answer: Result<Message, string>)
      requires Valid(State())
      modifies this
      ensures (State(), answer) == Append(old(State()), m)
      ensures Valid(State())
    {
      AppendKeepsValid(State(), m);
      var found := FindMessage(messages, m.id);
      if found.None? {
        if FindSession(sessions, m.sessionId).None? {
          return Err(NO_REFERENCE);
        }
        messages := messages + [m.(sequence := |messages| + 1)];
        return Ok(messages[|messages| - 1]);
      }
      answer := if SameMessage(messages[found.value], m) then Ok(messages[found.value]) else Err(MESSAGE_CONFLICT);
    }

    method ParentIn(k: nat) returns (r: Option<nat>)
      requires Valid(State()) && k < |sessions|
      ensures r == ParentOf(State(), k)
    {
      r := None;
      if sessions[k].parent.Some? && sessions[k].parent.value.session != "" {
        r := FindSession(sessions, sessions[k].parent.value.session);
      }
    }

    /** Climb to the root; the guard against cycles never fires. */
    method ReadLine(start: nat) returns (answer: Result<seq<Session>, string>)
      requires Valid(State()) && start < |sessions|
      ensures answer == Ok(Line(State(), start))
    {
      var seen: set<string> := {sessions[start].id};
      var line := [sessions[start]];
      var k := start;
      var parent := ParentIn(k);
      while parent.Some?
        invariant k < |sessions| && parent == ParentOf(State(), k)
        invariant Above(State(), k) + line == Line(State(), start)
        invariant forall other :: other in seen ==> IdFrom(sessions, k, other)
        decreases k
      {
        var j := parent.value;
        NewOnTheLine(State(), j, k);
        if sessions[j].id in seen {
          return Err("Session lineage cycle");
        }
        seen := seen + {sessions[j].id};
        Regroup(Above(State(), j), sessions[j], line);
        line := [sessions[j]] + line;
        k := j;
        parent := ParentIn(k);
      }
      assert Above(State(), k) + line == line;
      answer := Ok(line);
    }

    method ReadPiece(line: seq<Session>, n: nat) returns (answer: Result<seq<Message>, string>)
      requires n < |line| && Linked(messages, line, n)
      ensures answer == Ok(Piece(messages, line, n))
    {
      var rows := Own(messages, line[n].id);
      var cut := if n + 1 < |line| then line[n + 1].parent.value.message else "";
      if cut == "" {
        return Ok(rows);
      }
      var p := FindMessage(rows, cut);
      if p.None? {
        return Err("Missing branch point");
      }
      answer := Ok(rows[..p.value + 1]);
    }

    /** Every branch point is found. */
    method ReadPieces(line: seq<Session>) returns (answer: Result<seq<Message>, string>)
      requires forall n: nat :: n < |line| ==> Linked(messages, line, n)
      ensures answer == Ok(Pieces(messages, line, |line|))
    {
      var out: seq<Message> := [];
      for n := 0 to |line|
        invariant out == Pieces(messages, line, n)
      {
        var piece := ReadPiece(line, n);
        out := out + piece.value;
      }
      answer := Ok(out);
    }

    /** Neither error can occur, and an unknown id has an empty transcript. */
    method GetMessages(id: string, includeAncestors: bool) returns (answer: Result<seq<Message>, string>)
      requires Valid(State())
      ensures answer == Ok(
        if !includeAncestors then Own(messages, id)
        else match FindSession(sessions, id) case None => [] case Some(k) => Transcript(State(), k))
    {
      if !includeAncestors {
        return Ok(Own(messages, id));
      }
      var start := FindSession(sessions, id);
      if start.None? {
        return Ok([]);
      }
      var line := ReadLine(start.value);
      forall n: nat | n < |line.value|
        ensures Linked(messages, line.value, n)
      {
        LineLinks(State(), start.value, n);
      }
      answer := ReadPieces(line.value);
      PiecesAreTranscript(State(), start.value);
    }
  }

  lemma {:induction false} LineLinks(t: Tables, k: nat, n: nat)
    requires Valid(t) && k < |t.sessions| && n < |Line(t, k)|
    ensures Linked(t.messages, Line(t, k), n)
  {
    if n + 1 < |Line(t, k)| {
      var j := ParentOf(t, k).value;
      if n + 1 < |Line(t, j)| {
        LineLinks(t, j, n);
      } else {
        BranchMessageIsOwn(t, k);
      }
    }
  }

  // ---------------------------------------------------------------- what the statements keep

  lemma FoundInLonger(sessions: seq<Session>, s: Session, n: nat, id: string)
    requires n <= |sessions| && HasSession(sessions, n, id)
    ensures forall m: nat :: n <= m <= |sessions| + 1 ==> HasSession(sessions + [s], m, id)
  {
    var j :| 0 <= j < n && sessions[j].id == id;
    assert (sessions + [s])[j].id == id;
  }

  lemma CreateKeepsValid(t: Tables, r: SessionRequest)
    requires Valid(t)
    ensures Valid(Create(t, r).0)
  {
    var t' := Create(t, r).0;
    if t' != t {
      var n := |t.sessions|;
      forall i | 0 <= i < |t'.messages|
        ensures HasSession(t'.sessions, |t'.sessions|, t'.messages[i].sessionId)
      {
        FoundInLonger(t.sessions, Requested(r), n, t.messages[i].sessionId);
      }
      forall k | 0 <= k < |t'.sessions| && t'.sessions[k].parent.Some?
        ensures var b := t'.sessions[k].parent.value;
          HasMessage(t', b) && HasSession(t'.sessions, k, b.session)
      {
        var b := t'.sessions[k].parent.value;
        if k < n {
          FoundInLonger(t.sessions, Requested(r), k, b.session);
        } else {
          var i :| 0 <= i < |t.messages| && t.messages[i].sessionId == b.session && t.messages[i].id == b.message;
          FoundInLonger(t.sessions, Requested(r), n, t.messages[i].sessionId);
        }
      }
    }
  }

  lemma AppendKeepsValid(t: Tables, m: Message)
    requires Valid(t)
    ensures Valid(Append(t, m).0)
  {
    var t' := Append(t, m).0;
    FindMessageIs(t.messages, m.id);
    if t' != t {
      forall k | 0 <= k < |t'.sessions| && t'.sessions[k].parent.Some?
        ensures HasMessage(t', t'.sessions[k].parent.value)
      {
        var b := t.sessions[k].parent.value;
        var i :| 0 <= i < |t.messages| && t.messages[i].sessionId == b.session && t.messages[i].id == b.message;
        assert t'.messages[i] == t.messages[i];
      }
    }
  }

  /** Every link from `k` to its root names a branch message the reader cuts at. */
  predicate Anchored(t: Tables, k: nat)
    requires Valid(t) && k < |t.sessions|
  {
    match ParentOf(t, k)
    case None => true
    case Some(j) => t.sessions[k].parent.value.message != "" && Anchored(t, j)
  }

  /** What a child inherits is the beginning of its parent's transcript, up to and including the branch message. */
  lemma InheritedEndsAtTheBranch(t: Tables, k: nat)
    requires Valid(t) && k < |t.sessions| && ParentOf(t, k).Some? && t.sessions[k].parent.value.message != ""
    ensures var rows := Inherited(t, k);
      && rows != [] && rows <= Transcript(t, ParentOf(t, k).value)
      && rows[|rows| - 1].id == t.sessions[k].parent.value.message
  {
    var j := ParentOf(t, k).value;
    BranchIsInTranscript(t, k);
    InheritedIsCut(t, k, j);
    CutEndsAt(Transcript(t, j), t.sessions[k].parent.value.message);
  }

  lemma InheritedIsCut(t: Tables, k: nat, j: nat)
    requires Valid(t) && k < |t.sessions| && ParentOf(t, k) == Some(j)
    ensures Inherited(t, k) == Cut(Transcript(t, j), t.sessions[k].parent.value.message)
  {
  }

  lemma CutEndsAt(rows: seq<Message>, message: string)
    requires message != "" && FindMessage(rows, message).Some?
    ensures var cut := Cut(rows, message); cut != [] && cut <= rows && cut[|cut| - 1].id == message
  {
    FindMessageIs(rows, message);
  }

  lemma CutIgnoresLater(rows: seq<Message>, more: seq<Message>, message: string)
    requires message != "" && FindMessage(rows, message).Some?
    ensures Cut(rows + more, message) == Cut(rows, message)
  {
    var i := FindMessage(rows, message).value;
    FoundInFront(rows, more, message, i);
    assert (rows + more)[..i + 1] == rows[..i + 1];
  }

  /** The branch message is in the parent's transcript. */
  lemma BranchIsInTranscript(t: Tables, k: nat)
    requires Valid(t) && k < |t.sessions| && ParentOf(t, k).Some?
    ensures FindMessage(Transcript(t, ParentOf(t, k).value), t.sessions[k].parent.value.message).Some?
  {
    var j, b := ParentOf(t, k).value, t.sessions[k].parent.value;
    BranchMessageIsOwn(t, k);
    BranchMessageIsNotInherited(t, k);
    FoundBehind(
      Inherited(t, j), Own(t.messages, b.session), b.message, FindMessage(Own(t.messages, b.session), b.message).value);
  }

  lemma OwnOfAppended(messages: seq<Message>, row: Message, id: string)
    ensures Own(messages + [row], id) == Own(messages, id) + if row.sessionId == id then [row] else []
  {
    assert (messages + [row])[..|messages|] == messages;
  }

  /** What the child of a session that only grew still inherits. */
  lemma InheritedSurvives(t: Tables, t': Tables, k: nat, more: seq<Message>)
    requires Valid(t) && Valid(t') && t'.sessions == t.sessions && k < |t.sessions| && ParentOf(t, k).Some?
    requires t.sessions[k].parent.value.message != ""
    requires Transcript(t', ParentOf(t, k).value) == Transcript(t, ParentOf(t, k).value) + more
    ensures ParentOf(t', k) == ParentOf(t, k) && Inherited(t', k) == Inherited(t, k)
  {
    BranchIsInTranscript(t, k);
    CutIgnoresLater(Transcript(t, ParentOf(t, k).value), more, t.sessions[k].parent.value.message);
  }

  lemma {:induction false} RowReachesOnlyItsSession(t: Tables, t': Tables, row: Message, k: nat)
    requires Valid(t) && Valid(t') && t'.sessions == t.sessions && t'.messages == t.messages + [row]
    requires k < |t.sessions| && Anchored(t, k)
    ensures Anchored(t', k) && Inherited(t', k) == Inherited(t, k)
    ensures Transcript(t', k) == Transcript(t, k) + if row.sessionId == t.sessions[k].id then [row] else []
  {
    OwnOfAppended(t.messages, row, t.sessions[k].id);
    if ParentOf(t, k).Some? {
      var j := ParentOf(t, k).value;
      RowReachesOnlyItsSession(t, t', row, j);
      InheritedSurvives(t, t', k, if row.sessionId == t.sessions[j].id then [row] else []);
    }
    var own, inherited := Own(t.messages, t.sessions[k].id), Inherited(t, k);
    assert inherited + (own + [row]) == inherited + own + [row];
  }

  /** Appending a message to any session never changes what an anchored session inherited;
      it shows up at the end of the session it was appended to, and nowhere else. */
  lemma AppendReachesOnlyItsSession(t: Tables, m: Message, k: nat)
    requires Valid(t) && k < |t.sessions| && Anchored(t, k)
    requires Append(t, m).0 != t
    ensures var t' := Append(t, m).0;
      && Valid(t') && Anchored(t', k)
      && Inherited(t', k) == Inherited(t, k)
      && Transcript(t', k) == Transcript(t, k) + if m.sessionId == t.sessions[k].id then
        [m.(sequence := |t.messages| + 1)] else []
  {
    AppendKeepsValid(t, m);
    RowReachesOnlyItsSession(t, Append(t, m).0, m.(sequence := |t.messages| + 1), k);
  }

  lemma {:induction false} CreateKeepsTranscripts(t: Tables, r: SessionRequest, k: nat)
    requires Valid(t) && k < |t.sessions|
    ensures var t' := Create(t, r).0;
      Valid(t') && k < |t'.sessions| && Inherited(t', k) == Inherited(t, k) && Transcript(t', k) == Transcript(t, k)
  {
    var t' := Create(t, r).0;
    CreateKeepsValid(t, r);
    assert t'.sessions[k] == t.sessions[k] && t'.sessions[..k] == t.sessions[..k];
    assert ParentOf(t', k) == ParentOf(t, k);
    if ParentOf(t, k).Some? {
      CreateKeepsTranscripts(t, r, ParentOf(t, k).value);
    }
  }

  /** Without an anchor the child follows its parent: a branch at a message with the empty id is never cut. */
  lemma UnanchoredBranchFollowsItsParent(t: Tables, m: Message, k: nat)
    requires Valid(t) && k < |t.sessions| && ParentOf(t, k).Some? && t.sessions[k].parent.value.message == ""
    requires Anchored(t, ParentOf(t, k).value) && m.sessionId == t.sessions[ParentOf(t, k).value].id
      && Append(t, m).0 != t
    ensures Valid(Append(t, m).0)
      && Inherited(Append(t, m).0, k) == Inherited(t, k) + [m.(sequence := |t.messages| + 1)]
  {
    AppendReachesOnlyItsSession(t, m, ParentOf(t, k).value);
  }
}
