/** The reconnecting trade feed and the mints it follows. */
module Feed {
  import opened Prelude

  const STALE_TIMEOUT_MS := 60_000

  datatype Phase = Connecting | Opened | Gone

  /** The far end of one socket: what it has been asked to send. `Gone` is closing or closed. */
  datatype Socket = Socket(phase: Phase, subs: set<string>, launches: bool)

  /** Sockets are named by the generation they were created in. `running` is history: started and not stopped since. */
  datatype Watcher = Watcher(
    ws: Option<nat>, generation: nat, stopped: bool, attempt: nat, timer: bool, watchdog: bool, lastMessageAt: int,
    connected: bool, tokenSubs: set<string>, sockets: map<nat, Socket>, running: bool)

  const IDLE := Watcher(None, 0, false, 0, false, false, 0, false, {}, map[], false)

  // ---------------------------------------------------------------- handlers

  predicate Mine(w: Watcher, g: nat) {
    g == w.generation && !w.stopped
  }

  predicate CanSend(w: Watcher) {
    w.ws.Some? && w.ws.value in w.sockets && w.sockets[w.ws.value].phase == Opened
  }

  function Put(w: Watcher, g: nat, s: Socket): Watcher {
    w.(sockets := w.sockets[g := s])
  }

  function Hangup(w: Watcher, g: nat): Watcher {
    if g in w.sockets then Put(w, g, w.sockets[g].(phase := Gone)) else w
  }

  function Subscribe(w: Watcher, mint: string): Watcher {
    var w1 := w.(tokenSubs := w.tokenSubs + {mint});
    if !CanSend(w1) then w1
    else var s := w1.sockets[w1.ws.value]; Put(w1, w1.ws.value, s.(subs := s.subs + {mint}))
  }

  function Unsubscribe(w: Watcher, mint: string): Watcher {
    var w1 := w.(tokenSubs := w.tokenSubs - {mint});
    if !CanSend(w1) then w1
    else var s := w1.sockets[w1.ws.value]; Put(w1, w1.ws.value, s.(subs := s.subs - {mint}))
  }

  function ScheduleReconnect(w: Watcher): Watcher {
    if w.stopped || w.timer then w else w.(timer := true, attempt := w.attempt + 1)
  }

  /** `ok` is whether the socket could be created. */
  function Connect(w: Watcher, ok: bool): Watcher {
    if w.stopped then w
    else
      var w1 := w.(timer := false, generation := w.generation + 1);
      if !ok then ScheduleReconnect(w1)
      else Put(w1.(ws := Some(w1.generation)), w1.generation, Socket(Connecting, {}, false))
  }

  function Start(w: Watcher, ok: bool): Watcher {
    var w1 := w.(stopped := false, running := true);
    if w1.ws.Some? then w1 else Connect(w1, ok)
  }

  function Stop(w: Watcher): Watcher {
    var w1 := w.(stopped := true, running := false, timer := false, watchdog := false, connected := false, ws := None,
                 generation := w.generation + 1);
    if w.ws.Some? then Hangup(w1, w.ws.value) else w1
  }

  function Replayed(w: Watcher): Watcher {
    if !CanSend(w) then w
    else var s := w.sockets[w.ws.value]; Put(w, w.ws.value, s.(launches := true, subs := s.subs + w.tokenSubs))
  }

  /** Every subscription is replayed on the fresh socket. */
  function OnOpen(w: Watcher, g: nat, now: int): Watcher
    requires g in w.sockets
  {
    var w1 := Put(w, g, w.sockets[g].(phase := Opened));
    if !Mine(w1, g) then w1
    else
      Replayed(w1.(attempt := 0, connected := true, lastMessageAt := now, watchdog := true))
  }

  function OnMessage(w: Watcher, g: nat, now: int): Watcher {
    if Mine(w, g) then w.(lastMessageAt := now) else w
  }

  function OnClose(w: Watcher, g: nat): Watcher {
    if !Mine(w, g) then w
    else ScheduleReconnect(w.(connected := false, watchdog := false, ws := if w.ws == Some(g) then None else w.ws))
  }

  function OnTimer(w: Watcher, ok: bool): Watcher {
    Connect(w.(timer := false), ok)
  }

  function OnWatchdog(w: Watcher, now: int): Watcher {
    if w.stopped || now - w.lastMessageAt <= STALE_TIMEOUT_MS then w
    else
      var w1 := w.(watchdog := false, connected := false);
      ScheduleReconnect(
        if w.ws.Some? then Hangup(w1.(ws := None, generation := w1.generation + 1), w.ws.value) else w1)
  }

  // ---------------------------------------------------------------- the watcher object

  lemma OneMoreSub(subs: set<string>, all: set<string>, left: set<string>, mint: string)
    requires mint in left && left <= all
    ensures subs + (all - (left - {mint})) == subs + (all - left) + {mint}
  {
  }

  class PumpPortalWatcher {
    var ws: Option<nat>
    var generation: nat
    var stopped: bool
    var attempt: nat
    var timer: bool
    var watchdog: bool
    var lastMessageAt: int
    var connected: bool
    var tokenSubs: set<string>
    /** The network's side. */
    var sockets: map<nat, Socket>
    ghost var running: bool

    ghost function State(): Watcher
      reads this
    {
      Watcher(ws, generation, stopped, attempt, timer, watchdog, lastMessageAt, connected, tokenSubs, sockets, running)
    }

    constructor ()
      ensures State() == IDLE
    {
      ws, generation, stopped, attempt, timer, watchdog, lastMessageAt := None, 0, false, 0, false, false, 0;
      connected, tokenSubs, sockets, running := false, {}, map[], false;
    }

    method SubscribeTokenTrade(mint: string)
      modifies this
      ensures State() == Subscribe(old(State()), mint)
    {
      tokenSubs := tokenSubs + {mint};
      SendToken(mint, true);
    }

    method UnsubscribeTokenTrade(mint: string)
      modifies this
      ensures State() == Unsubscribe(old(State()), mint)
    {
      tokenSubs := tokenSubs - {mint};
      SendToken(mint, false);
    }

    /** A command for one mint; dropped unless the socket is open. */
    method SendToken(mint: string, wanted: bool)
      modifies this`sockets
      ensures !CanSend(old(State())) ==> sockets == old(sockets)
      ensures CanSend(old(State())) ==>
        var s := old(sockets)[ws.value];
        sockets == old(sockets)[ws.value := s.(subs := if wanted then s.subs + {mint} else s.subs - {mint})]
    {
      if ws.Some? && ws.value in sockets && sockets[ws.value].phase == Opened {
        var s := sockets[ws.value];
        sockets := sockets[ws.value := s.(subs := if wanted then s.subs + {mint} else s.subs - {mint})];
      }
    }

    method Schedule()
      modifies this`timer, this`attempt
      ensures State() == ScheduleReconnect(old(State()))
    {
      if stopped || timer {
        return;
      }
      attempt := attempt + 1;
      timer := true;
    }

    method ConnectSocket(ok: bool)
      modifies this
      ensures State() == Connect(old(State()), ok)
    {
      if stopped {
        return;
      }
      timer := false;
      generation := generation + 1;
      if !ok {
        Schedule();
        return;
      }
      ws := Some(generation);
      sockets := sockets[generation := Socket(Connecting, {}, false)];
    }

    method StartWatching(ok: bool)
      modifies this
      ensures State() == Start(old(State()), ok)
    {
      stopped, running := false, true;
      if ws.Some? {
        return;
      }
      ConnectSocket(ok);
    }

    method StopWatching()
      modifies this
      ensures State() == Stop(old(State()))
    {
      stopped, timer, watchdog, connected, running := true, false, false, false, false;
      var open := ws;
      ws := None;
      generation := generation + 1;
      if open.Some? {
        CloseSocket(open.value);
      }
    }

    method CloseSocket(g: nat)
      modifies this`sockets
      ensures State() == Hangup(old(State()), g)
    {
      if g in sockets {
        sockets := sockets[g := sockets[g].(phase := Gone)];
      }
    }

    method SocketOpened(g: nat, now: int)
      requires g in sockets
      modifies this
      ensures State() == OnOpen(old(State()), g, now)
    {
      sockets := sockets[g := sockets[g].(phase := Opened)];
      if g != generation || stopped {
        return;
      }
      attempt, connected, lastMessageAt, watchdog := 0, true, now, true;
      Replay();
    }

    /** New launches first, then every mint. */
    method Replay()
      modifies this`sockets
      ensures State() == Replayed(old(State()))
    {
      if ws.None? || ws.value !in sockets || sockets[ws.value].phase != Opened {
        return;
      }
      var k := ws.value;
      sockets := sockets[k := sockets[k].(launches := true)];
      ghost var before := sockets;
      var left := tokenSubs;
      while left != {}
        invariant left <= tokenSubs && sockets.Keys == before.Keys && k in sockets
        invariant forall other :: other in sockets && other != k ==> sockets[other] == before[other]
        invariant sockets[k] == before[k].(subs := before[k].subs + (tokenSubs - left))
        decreases |left|
      {
        var mint :| mint in left;
        OneMoreSub(before[k].subs, tokenSubs, left, mint);
        left := left - {mint};
        var s := sockets[k];
        sockets := sockets[k := s.(subs := s.subs + {mint})];
      }
      assert tokenSubs - {} == tokenSubs;
      assert sockets == before[k := sockets[k]];
    }

    method MessageArrived(g: nat, now: int) returns (mine: bool)
      modifies this`lastMessageAt
      ensures mine == Mine(old(State()), g) && State() == OnMessage(old(State()), g, now)
    {
      mine := g == generation && !stopped;
      if mine {
        lastMessageAt := now;
      }
    }

    method SocketClosed(g: nat)
      modifies this
      ensures State() == OnClose(old(State()), g)
    {
      if g != generation || stopped {
        return;
      }
      connected, watchdog := false, false;
      if ws == Some(g) {
        ws := None;
      }
      Schedule();
    }

    method TimerFired(ok: bool)
      modifies this
      ensures State() == OnTimer(old(State()), ok)
    {
      timer := false;
      ConnectSocket(ok);
    }

    method WatchdogTick(now: int)
      modifies this
      ensures State() == OnWatchdog(old(State()), now)
    {
      if stopped || now - lastMessageAt <= STALE_TIMEOUT_MS {
        return;
      }
      var open := ws;
      watchdog, connected := false, false;
      if open.Some? {
        ws := None;
        generation := generation + 1;
        CloseSocket(open.value);
      }
      Schedule();
    }
  }

  // ---------------------------------------------------------------- the feed around it

  /** `followed` is history: every launch that was taken up, in order. */
  datatype Signals = Signals(
    watcher: Watcher, pinned: set<string>, auto: seq<string>, maxAutoFollow: nat, started: bool, followed: seq<string>)

  function TakenUp(f: Signals, mint: string): Signals {
    f.(auto := f.auto + [mint], followed := f.followed + [mint], watcher := Subscribe(f.watcher, mint))
  }

  /** The oldest followed launch goes; a pinned mint stays subscribed. */
  function Evicted(f: Signals): Signals
    requires f.auto != []
  {
    f.(auto := f.auto[1..], watcher := if f.auto[0] in f.pinned then f.watcher else Unsubscribe(f.watcher, f.auto[0]))
  }

  function AutoFollow(f: Signals, mint: string): Signals {
    if f.maxAutoFollow == 0 || mint in f.pinned || mint in f.auto then f
    else if |f.auto| < f.maxAutoFollow then TakenUp(f, mint)
    else Evicted(TakenUp(f, mint))
  }

  function Watch(f: Signals, mint: string): Signals {
    if mint in f.pinned then f else f.(pinned := f.pinned + {mint}, watcher := Subscribe(f.watcher, mint))
  }

  class SignalsFeed {
    const watcher: PumpPortalWatcher
    const maxAutoFollow: nat
    var autoFollowed: seq<string>
    var pinned: set<string>
    var started: bool
    ghost var followed: seq<string>

    ghost function State(): Signals
      reads this, watcher
    {
      Signals(watcher.State(), pinned, autoFollowed, maxAutoFollow, started, followed)
    }

    /** A negative limit reads as none. */
    constructor (maxAutoFollow: int)
      ensures fresh(watcher)
      ensures State() == Signals(IDLE, {}, [], if maxAutoFollow < 0 then 0 else maxAutoFollow, false, [])
    {
      watcher := new PumpPortalWatcher();
      this.maxAutoFollow := if maxAutoFollow < 0 then 0 else maxAutoFollow;
      autoFollowed, pinned, started, followed := [], {}, false, [];
    }

    method StartFeed(ok: bool)
      modifies this, watcher
      ensures State() == if old(started) then old(State())
                         else old(State()).(started := true, watcher := Start(old(watcher.State()), ok))
    {
      if started {
        return;
      }
      started := true;
      watcher.StartWatching(ok);
    }

    method StopFeed()
      modifies this, watcher
      ensures State() == if !old(started) then old(State())
                         else old(State()).(started := false, watcher := Stop(old(watcher.State())))
    {
      if !started {
        return;
      }
      started := false;
      watcher.StopWatching();
    }

    method WatchMint(mint: string)
      modifies this, watcher
      ensures State() == Watch(old(State()), mint)
    {
      if mint in pinned {
        return;
      }
      pinned := pinned + {mint};
      watcher.SubscribeTokenTrade(mint);
    }

    /** The loop runs at most once: the list was within its budget before. */
    method Launch(mint: string)
      requires |autoFollowed| <= maxAutoFollow
      modifies this, watcher
      ensures State() == AutoFollow(old(State()), mint) && |autoFollowed| <= maxAutoFollow
    {
      if maxAutoFollow == 0 {
        return;
      }
      if mint in pinned || mint in autoFollowed {
        return;
      }
      autoFollowed, followed := autoFollowed + [mint], followed + [mint];
      watcher.SubscribeTokenTrade(mint);
      while |autoFollowed| > maxAutoFollow
        invariant if |autoFollowed| > maxAutoFollow then State() == TakenUp(old(State()), mint)
          && |autoFollowed| == maxAutoFollow + 1
                  else State() == AutoFollow(old(State()), mint)
        decreases |autoFollowed|
      {
        var evicted := autoFollowed[0];
        autoFollowed := autoFollowed[1..];
        if evicted !in pinned {
          watcher.UnsubscribeTokenTrade(evicted);
        }
      }
    }
  }
}
