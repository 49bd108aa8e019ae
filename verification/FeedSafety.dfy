/** What the feed keeps over every sequence of operator calls, socket events and timers. */
module FeedSafety {
  import opened Prelude
  import opened Feed

  datatype Event =
    | StartFeed(ok: bool)
    | StopFeed
    | WatchMint(mint: string)
    | SocketOpened(g: nat, now: int)
    | TradeArrived(g: nat, now: int)
    | LaunchArrived(g: nat, now: int, launched: string)
    | SocketLost(g: nat)  // the far end is gone; the close event is still to come
    | SocketClosed(g: nat)
    | TimerFired(ok: bool)
    | WatchdogTick(now: int)

  predicate WatcherEnabled(w: Watcher, e: Event) {
    match e
    case SocketOpened(g, _) => g in w.sockets && w.sockets[g].phase == Connecting
    case TradeArrived(g, _) => g in w.sockets
    case LaunchArrived(g, _, _) => g in w.sockets
    case SocketLost(g) => g in w.sockets
    case SocketClosed(g) => g in w.sockets && w.sockets[g].phase == Gone
    case TimerFired(_) => w.timer
    case WatchdogTick(_) => w.watchdog
    case _ => true
  }

  predicate Enabled(f: Signals, e: Event) {
    WatcherEnabled(f.watcher, e)
  }

  /** Socket events and timers concern the watcher alone. */
  function WatcherStep(w: Watcher, e: Event): Watcher {
    match e
    case SocketOpened(g, now) => if g in w.sockets then OnOpen(w, g, now) else w
    case TradeArrived(g, now) => OnMessage(w, g, now)
    case LaunchArrived(g, now, _) => OnMessage(w, g, now)
    case SocketLost(g) => Hangup(w, g)
    case SocketClosed(g) => OnClose(w, g)
    case TimerFired(ok) => OnTimer(w, ok)
    case WatchdogTick(now) => OnWatchdog(w, now)
    case _ => w
  }

  function Step(f: Signals, e: Event): Signals {
    match e
    case StartFeed(ok) => if f.started then f else f.(started := true, watcher := Start(f.watcher, ok))
    case StopFeed => if !f.started then f else f.(started := false, watcher := Stop(f.watcher))
    case WatchMint(mint) => Watch(f, mint)
    case LaunchArrived(g, _, launched) =>
      var heard := f.(watcher := WatcherStep(f.watcher, e));
      if Mine(f.watcher, g) then AutoFollow(heard, launched) else heard
    case _ => f.(watcher := WatcherStep(f.watcher, e))
  }

  function Initial(maxAutoFollow: nat): Signals {
    Signals(IDLE, {}, [], maxAutoFollow, false, [])
  }

  ghost predicate Runs(maxAutoFollow: nat, events: seq<Event>, f: Signals)
    decreases |events|
  {
    if events == [] then f == Initial(maxAutoFollow)
    else
      var n := |events| - 1;
      exists before ::
        Runs(maxAutoFollow, events[..n], before) && Enabled(before, events[n]) && f == Step(before, events[n])
  }

  // ---------------------------------------------------------------- the watcher's invariant

  /** While running there is either a socket or a pending reconnect, never both and never neither; otherwise nothing is
      left. */
  predicate OneWayForward(w: Watcher) {
    if w.running then !w.stopped && (w.ws.Some? <==> !w.timer)
    else w.ws.None? && !w.timer && !w.watchdog && !w.connected && (w.stopped || w.sockets == map[])
  }

  /** The only socket that may still be alive is the current one, and it belongs to the current generation. */
  predicate SocketsOk(w: Watcher) {
    && (w.ws.Some? ==> w.ws.value == w.generation && w.generation in w.sockets)
    && (forall g | g in w.sockets :: g <= w.generation)
    && (forall g | g in w.sockets && Some(g) != w.ws :: w.sockets[g].phase == Gone)
  }

  /** Connected means the open event has been handled; the far end then mirrors the subscriptions. */
  predicate MirrorOk(w: Watcher) {
    && w.watchdog == w.connected
    && (w.connected ==> w.ws.Some?)
    && (w.ws.Some? && w.ws.value in w.sockets ==>
      var s := w.sockets[w.ws.value];
      if s.phase == Opened then w.connected && s.launches && s.subs == w.tokenSubs
      else s.phase == Connecting ==> !w.connected && s.subs == {})
  }

  predicate WatcherOk(w: Watcher) {
    OneWayForward(w) && SocketsOk(w) && MirrorOk(w)
  }

  /** Neither the operator's wish nor the subscriptions are touched. */
  predicate SameWish(w: Watcher, w': Watcher) {
    w'.running == w.running && w'.tokenSubs == w.tokenSubs
  }

  lemma SubscribeKeeps(w: Watcher, mint: string)
    requires WatcherOk(w)
    ensures WatcherOk(Subscribe(w, mint)) && WatcherOk(Unsubscribe(w, mint))
  {
  }

  lemma ConnectKeeps(w: Watcher, ok: bool)
    requires WatcherOk(w) && w.running && w.ws.None? && !w.connected
    ensures WatcherOk(Connect(w, ok)) && WatcherOk(Connect(w.(timer := false), ok))
    ensures SameWish(w, Connect(w.(timer := false), ok))
  {
  }

  lemma StartKeeps(w: Watcher, ok: bool)
    requires WatcherOk(w) && !w.running
    ensures WatcherOk(Start(w, ok))
  {
  }

  lemma StopKeeps(w: Watcher)
    requires WatcherOk(w)
    ensures WatcherOk(Stop(w))
  {
  }

  lemma OpenKeeps(w: Watcher, g: nat, now: int)
    requires WatcherOk(w) && g in w.sockets && w.sockets[g].phase == Connecting
    ensures WatcherOk(OnOpen(w, g, now)) && SameWish(w, OnOpen(w, g, now))
  {
  }

  lemma LostKeeps(w: Watcher, g: nat)
    requires WatcherOk(w) && g in w.sockets
    ensures WatcherOk(Hangup(w, g)) && SameWish(w, Hangup(w, g))
  {
  }

  lemma CloseKeeps(w: Watcher, g: nat)
    requires WatcherOk(w) && g in w.sockets && w.sockets[g].phase == Gone
    ensures WatcherOk(OnClose(w, g)) && SameWish(w, OnClose(w, g))
  {
  }

  lemma WatchdogKeeps(w: Watcher, now: int)
    requires WatcherOk(w) && w.watchdog
    ensures WatcherOk(OnWatchdog(w, now)) && SameWish(w, OnWatchdog(w, now))
  {
  }

  // ---------------------------------------------------------------- the feed's invariant

  predicate NoRepeats(s: seq<string>) {
    forall i, j | 0 <= i < j < |s| :: s[i] != s[j]
  }

  /** The followed mints are the newest launches taken up. */
  predicate Newest(auto: seq<string>, followed: seq<string>, budget: nat) {
    && |auto| <= |followed|
    && followed[|followed| - |auto|..] == auto
    && (auto == followed || |auto| >= budget)
  }

  ghost predicate SubsOk(f: Signals) {
    forall mint :: mint in f.watcher.tokenSubs <==> mint in f.pinned || mint in f.auto
  }

  ghost predicate Inv(f: Signals) {
    && WatcherOk(f.watcher)
    && f.started == f.watcher.running
    && SubsOk(f)
    && NoRepeats(f.auto) && |f.auto| <= f.maxAutoFollow
    && Newest(f.auto, f.followed, f.maxAutoFollow)
  }

  lemma EvictOnce(f: Signals)
    requires f.auto != [] && NoRepeats(f.auto) && SubsOk(f) && WatcherOk(f.watcher)
    ensures var g := Evicted(f);
      NoRepeats(g.auto) && SubsOk(g) && WatcherOk(g.watcher) && g.watcher.running == f.watcher.running
  {
    SubscribeKeeps(f.watcher, f.auto[0]);
    assert f.auto == [f.auto[0]] + f.auto[1..];
    assert forall i :: 0 <= i < |f.auto[1..]| ==> f.auto[1..][i] != f.auto[0];
  }

  lemma NewestEvicted(f: Signals)
    requires f.auto != [] && |f.auto| <= |f.followed| && f.followed[|f.followed| - |f.auto|..] == f.auto
    requires |f.auto| == f.maxAutoFollow + 1
    ensures var g := Evicted(f); Newest(g.auto, g.followed, g.maxAutoFollow)
  {
    var n := |f.followed| - |f.auto|;
    assert f.followed[n + 1..] == f.followed[n..][1..];
  }

  lemma TakenUpKeeps(f: Signals, mint: string)
    requires Inv(f) && mint !in f.pinned && mint !in f.auto
    ensures var g := TakenUp(f, mint);
      && WatcherOk(g.watcher) && g.started == g.watcher.running && SubsOk(g) && NoRepeats(g.auto)
      && |g.auto| <= |g.followed| && g.followed[|g.followed| - |g.auto|..] == g.auto
      && (g.auto == g.followed || |g.auto| >= f.maxAutoFollow)
  {
    SubscribeKeeps(f.watcher, mint);
    OneMoreFollowed(f.auto, f.followed, mint);
  }

  lemma OneMoreFollowed(auto: seq<string>, followed: seq<string>, mint: string)
    requires NoRepeats(auto) && mint !in auto && |auto| <= |followed| && followed[|followed| - |auto|..] == auto
    ensures NoRepeats(auto + [mint])
    ensures (followed + [mint])[|followed| - |auto|..] == auto + [mint]
  {
    var more := auto + [mint];
    assert forall i :: 0 <= i < |auto| ==> more[i] == auto[i];
  }

  lemma AutoFollowKeeps(f: Signals, mint: string)
    requires Inv(f)
    ensures Inv(AutoFollow(f, mint)) && AutoFollow(f, mint).maxAutoFollow == f.maxAutoFollow
  {
    if f.maxAutoFollow != 0 && mint !in f.pinned && mint !in f.auto {
      var g := TakenUp(f, mint);
      TakenUpKeeps(f, mint);
      if |f.auto| == f.maxAutoFollow {
        EvictOnce(g);
        NewestEvicted(g);
      }
    }
  }

  lemma WatchKeeps(f: Signals, mint: string)
    requires Inv(f)
    ensures Inv(Watch(f, mint))
  {
    SubscribeKeeps(f.watcher, mint);
  }

  lemma WatcherStepKeeps(w: Watcher, e: Event)
    requires WatcherOk(w) && WatcherEnabled(w, e)
    ensures WatcherOk(WatcherStep(w, e)) && SameWish(w, WatcherStep(w, e))
  {
    match e
    case SocketOpened(g, now) => OpenKeeps(w, g, now);
    case SocketLost(g) => LostKeeps(w, g);
    case SocketClosed(g) => CloseKeeps(w, g);
    case TimerFired(ok) => ConnectKeeps(w, ok);
    case WatchdogTick(now) => WatchdogKeeps(w, now);
    case _ =>
  }

  lemma WatcherKeepsInv(f: Signals, w: Watcher)
    requires Inv(f) && WatcherOk(w) && SameWish(f.watcher, w)
    ensures Inv(f.(watcher := w))
  {
  }

  lemma StartKeepsInv(f: Signals, ok: bool)
    requires Inv(f) && !f.started
    ensures Inv(f.(started := true, watcher := Start(f.watcher, ok)))
  {
    StartKeeps(f.watcher, ok);
  }

  lemma StopKeepsInv(f: Signals)
    requires Inv(f) && f.started
    ensures Inv(f.(started := false, watcher := Stop(f.watcher)))
  {
    StopKeeps(f.watcher);
  }

  lemma HeardKeepsInv(f: Signals, e: Event)
    requires Inv(f) && Enabled(f, e)
    ensures Inv(f.(watcher := WatcherStep(f.watcher, e)))
  {
    WatcherStepKeeps(f.watcher, e);
    WatcherKeepsInv(f, WatcherStep(f.watcher, e));
  }

  predicate Operator(e: Event) {
    e.StartFeed? || e.StopFeed? || e.WatchMint?
  }

  lemma OperatorKeepsInv(f: Signals, e: Event)
    requires Inv(f) && Operator(e)
    ensures Inv(Step(f, e)) && Step(f, e).maxAutoFollow == f.maxAutoFollow
  {
    if e.StartFeed? {
      if !f.started {
        StartKeepsInv(f, e.ok);
      }
    } else if e.StopFeed? {
      if f.started {
        StopKeepsInv(f);
      }
    } else {
      WatchKeeps(f, e.mint);
    }
  }

  lemma LaunchKeepsInv(f: Signals, e: Event)
    requires Inv(f) && Enabled(f, e) && e.LaunchArrived?
    ensures Inv(Step(f, e)) && Step(f, e).maxAutoFollow == f.maxAutoFollow
  {
    HeardKeepsInv(f, e);
    var heard := f.(watcher := WatcherStep(f.watcher, e));
    AutoFollowKeeps(heard, e.launched);
    assert Step(f, e) == if Mine(f.watcher, e.g) then AutoFollow(heard, e.launched) else heard;
  }

  lemma StepKeepsInv(f: Signals, e: Event)
    requires Inv(f) && Enabled(f, e)
    ensures Inv(Step(f, e)) && Step(f, e).maxAutoFollow == f.maxAutoFollow
  {
    if Operator(e) {
      OperatorKeepsInv(f, e);
    } else if e.LaunchArrived? {
      LaunchKeepsInv(f, e);
    } else {
      HeardKeepsInv(f, e);
      assert Step(f, e) == f.(watcher := WatcherStep(f.watcher, e));
    }
  }

  lemma {:induction false} RunKeepsInv(maxAutoFollow: nat, events: seq<Event>, f: Signals)
    requires Runs(maxAutoFollow, events, f)
    ensures Inv(f) && f.maxAutoFollow == maxAutoFollow
  {
    if events != [] {
      var n := |events| - 1;
      var before :| Runs(maxAutoFollow, events[..n], before) && Enabled(before, events[n])
        && f == Step(before, events[n]);
      RunKeepsInv(maxAutoFollow, events[..n], before);
      StepKeepsInv(before, events[n]);
    }
  }

  // ---------------------------------------------------------------- what follows

  predicate Alive(w: Watcher, g: nat) {
    g in w.sockets && w.sockets[g].phase != Gone
  }

  /** While started there is exactly one of a socket and a pending reconnect; stopped, there is neither;
      and never two sockets alive. */
  lemma ExactlyOneWayForward(maxAutoFollow: nat, events: seq<Event>, f: Signals)
    requires Runs(maxAutoFollow, events, f)
    ensures f.started ==> (f.watcher.ws.Some? <==> !f.watcher.timer)
    ensures !f.started ==> f.watcher.ws.None? && !f.watcher.timer && !f.watcher.watchdog
    ensures forall g, h :: Alive(f.watcher, g) && Alive(f.watcher, h) ==> g == h
  {
    RunKeepsInv(maxAutoFollow, events, f);
  }

  /** The subscriptions are the pinned mints and the newest launches followed, never more than the budget of them;
      whenever the current socket is open its far end sends launches and exactly those mints. */
  lemma SubscriptionsAreMirrored(maxAutoFollow: nat, events: seq<Event>, f: Signals)
    requires Runs(maxAutoFollow, events, f)
    ensures forall mint :: mint in f.watcher.tokenSubs <==> mint in f.pinned || mint in f.auto
    ensures |f.auto| <= maxAutoFollow && NoRepeats(f.auto) && Newest(f.auto, f.followed, f.maxAutoFollow)
    ensures CanSend(f.watcher) ==>
      var s := f.watcher.sockets[f.watcher.ws.value];
      s.launches && s.subs == f.watcher.tokenSubs && f.watcher.connected
  {
    RunKeepsInv(maxAutoFollow, events, f);
  }

  /** An open event of the current generation always ends in that mirror. */
  lemma OpenConnects(maxAutoFollow: nat, events: seq<Event>, f: Signals, g: nat, now: int)
    requires Runs(maxAutoFollow, events, f) && Enabled(f, SocketOpened(g, now))
    ensures var w := Step(f, SocketOpened(g, now)).watcher;
      Mine(f.watcher, g) && w.connected && CanSend(w) && w.ws == Some(g) && w.sockets[g].subs == w.tokenSubs
        && w.attempt == 0
  {
    RunKeepsInv(maxAutoFollow, events, f);
    OpenMirrors(f.watcher, g, now);
  }

  lemma OpenMirrors(w: Watcher, g: nat, now: int)
    requires WatcherOk(w) && g in w.sockets && w.sockets[g].phase == Connecting
    ensures var w' := OnOpen(w, g, now);
      Mine(w, g) && w'.connected && CanSend(w') && w'.ws == Some(g) && w'.sockets[g].subs == w'.tokenSubs
        && w'.attempt == 0
  {
    assert Some(g) == w.ws;
  }

  /** Late events of an abandoned socket change nothing. */
  lemma StaleEventsAreInert(maxAutoFollow: nat, events: seq<Event>, f: Signals, e: Event)
    requires Runs(maxAutoFollow, events, f) && Enabled(f, e)
    requires match e
      case SocketOpened(g, _) => !Mine(f.watcher, g)
      case TradeArrived(g, _) => !Mine(f.watcher, g)
      case LaunchArrived(g, _, _) => !Mine(f.watcher, g)
      case SocketClosed(g) => !Mine(f.watcher, g)
      case _ => false
    ensures Step(f, e) == f
  {
    RunKeepsInv(maxAutoFollow, events, f);
  }

  /** Within the dead-air limit the watchdog does nothing; past it the socket is dropped and a reconnect is pending. */
  lemma WatchdogReplacesASilentSocket(maxAutoFollow: nat, events: seq<Event>, f: Signals, now: int)
    requires Runs(maxAutoFollow, events, f) && Enabled(f, WatchdogTick(now))
    ensures var w, w' := f.watcher, Step(f, WatchdogTick(now)).watcher;
      if now - w.lastMessageAt <= STALE_TIMEOUT_MS then w' == w
      else w'.ws.None? && w'.timer && !w'.connected && !w'.watchdog && w'.generation == w.generation + 1
           && w'.tokenSubs == w.tokenSubs
  {
    RunKeepsInv(maxAutoFollow, events, f);
  }
}
