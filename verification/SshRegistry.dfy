/**
  The device registry of packages/n8n-nodes/src/SshServer.ts: which client serves a nickname, and the
  connect() callers waiting for one to appear.
 */
module SshRegistry {
  import opened Common
  import opened Options

  type Nick = string
  type Client = nat

  datatype Outcome = Resolved(client: Client) | TimedOut | ServerClosed

  /** One caller of connect(); its timer is live exactly while `outcome` is None. */
  datatype Waiter = Waiter(nick: Nick, outcome: Option<Outcome>)

  /**
    `open` is whether `server` is set, `nicks` the nickname each connection's closure captured, `timers`
    the live ones, `waiterLog` all callers ever, `ended` and `gone` the clients told to end and closed.
   */
  datatype State = State(open: bool, registry: map<Nick, Client>, waiters: map<Nick, seq<nat>>, timers: set<nat>,
                         waiterLog: seq<Waiter>, nicks: map<Client, Nick>, ended: set<Client>, gone: set<Client>)

  datatype Event =
    | Listen
    | Authenticated(client: Client, nick: Nick)
    | ForwardRequested(client: Client)
    | ConnectCalled(nick: Nick)
    | TimerFires(waiter: nat)
    | ClientCloses(client: Client)
    | CloseCalled

  const EMPTY: State := State(false, map[], map[], {}, [], map[], {}, {})

  // ---------------------------------------------------------------- turns

  /** Settle the waiters in `ws`. */
  function SettleAll(ls: seq<Waiter>, ws: seq<nat>, o: Outcome): (ls': seq<Waiter>)
    requires forall i :: 0 <= i < |ws| ==> ws[i] < |ls|
    ensures |ls'| == |ls|
    ensures forall w :: 0 <= w < |ls| ==> ls'[w] == if w in ws then ls[w].(outcome := Some(o)) else ls[w]
    decreases |ws|
  {
    if ws == [] then ls
    else
      assert ws == [ws[0]] + ws[1..];
      SettleAll(ls[ws[0] := ls[ws[0]].(outcome := Some(o))], ws[1..], o)
  }

  ghost predicate Linked(s: State) {
    && (forall n :: n in s.waiters ==> forall i :: 0 <= i < |s.waiters[n]| ==> s.waiters[n][i] < |s.waiterLog|)
    && (forall w :: w in s.timers ==> w < |s.waiterLog|)
  }

  function ListOf(s: State, n: Nick): seq<nat> { if n in s.waiters then s.waiters[n] else [] }

  /** installEntry: evict another client's entry, store this one, resolve whoever waits for the device. */
  function Install(s: State, n: Nick, c: Client): State
    requires Linked(s)
  {
    var ws := ListOf(s, n);
    s.(ended := if n in s.registry && s.registry[n] != c then s.ended + {s.registry[n]} else s.ended,
       registry := s.registry[n := c],
       waiters := s.waiters - {n},
       timers := s.timers - (set w | w in ws),
       waiterLog := SettleAll(s.waiterLog, ws, Resolved(c)))
  }

  /** connect(): with no entry yet, wait under a timer. */
  function Await(s: State, n: Nick): State {
    if !s.open then s
    else
      var w := |s.waiterLog|;
      if n in s.registry then s.(waiterLog := s.waiterLog + [Waiter(n, Some(Resolved(s.registry[n])))])
      else s.(waiterLog := s.waiterLog + [Waiter(n, None)], timers := s.timers + {w},
              waiters := s.waiters[n := ListOf(s, n) + [w]])
  }

  function Expire(s: State, w: nat): State
    requires w < |s.waiterLog|
  {
    var n := s.waiterLog[w].nick;
    var left := Without(ListOf(s, n), w);
    s.(waiters := if n !in s.waiters then s.waiters else if left == [] then s.waiters - {n} else s.waiters[n := left],
       timers := s.timers - {w},
       waiterLog := s.waiterLog[w := s.waiterLog[w].(outcome := Some(TimedOut))])
  }

  /** The connection's closure holds a nickname that counts as one: the source tests it for truth. */
  predicate Named(s: State, c: Client) { c in s.nicks && s.nicks[c] != "" }

  function Closed(s: State, c: Client): State {
    var gone := s.(gone := s.gone + {c});
    if Named(s, c) && s.nicks[c] in s.registry && s.registry[s.nicks[c]] == c then
      gone.(registry := s.registry - {s.nicks[c]})
    else gone
  }

  /** Every waiter in some list. */
  function Waiting(s: State): set<nat> {
    set n, w | n in s.waiters && w in s.waiters[n] :: w
  }

  /** close(): end every client, reject every waiter. */
  function Shut(s: State): State {
    if !s.open then s
    else
      s.(open := false, registry := map[], waiters := map[],
         ended := s.ended + (set n | n in s.registry :: s.registry[n]),
         timers := s.timers - Waiting(s),
         waiterLog := seq(|s.waiterLog|, i requires 0 <= i < |s.waiterLog| =>
           if i in Waiting(s) then s.waiterLog[i].(outcome := Some(ServerClosed)) else s.waiterLog[i]))
  }

  function Turn(s: State, e: Event): State
    requires Linked(s) && (e.TimerFires? ==> e.waiter < |s.waiterLog|)
  {
    match e
    case Listen => s.(open := true)
    case Authenticated(c, n) => s.(nicks := s.nicks[c := n])
    case ForwardRequested(c) => if Named(s, c) then Install(s, s.nicks[c], c) else s
    case ConnectCalled(n) => Await(s, n)
    case TimerFires(w) => Expire(s, w)
    case ClientCloses(c) => Closed(s, c)
    case CloseCalled => Shut(s)
  }

  /** A connection authenticates once, and does nothing after it has closed; a timer fires while it is live. */
  predicate Enabled(s: State, e: Event) {
    match e
    case Authenticated(c, n) => c !in s.nicks && c !in s.gone
    case ForwardRequested(c) => c !in s.gone
    case TimerFires(w) => w in s.timers
    case _ => true
  }

  // ---------------------------------------------------------------- what every turn keeps

  /** Waiter `w` is listed under its own nickname, and only there. */
  ghost predicate Listed(s: State, w: nat)
    requires w < |s.waiterLog|
  {
    w in ListOf(s, s.waiterLog[w].nick)
  }

  ghost predicate ListOk(s: State, n: Nick)
    requires n in s.waiters
  {
    && s.waiters[n] != [] && NoRepeats(s.waiters[n]) && n !in s.registry && s.open
    && (forall w :: w in s.waiters[n] ==> w < |s.waiterLog| && s.waiterLog[w].nick == n)
  }

  /** A waiter is unsettled exactly while it is listed, and exactly while its timer is live. */
  ghost predicate WaitersOk(s: State) {
    && (forall n :: n in s.waiters ==> ListOk(s, n))
    && (forall w :: 0 <= w < |s.waiterLog| ==>
          && (s.waiterLog[w].outcome == None <==> Listed(s, w))
          && (s.waiterLog[w].outcome == None <==> w in s.timers))
    && (forall w :: w in s.timers ==> w < |s.waiterLog|)
  }

  /** An entry's client is connected and authenticated under that nickname, which is not empty. */
  ghost predicate EntriesOk(s: State) {
    && (forall n :: n in s.registry ==>
         Named(s, s.registry[n]) && s.nicks[s.registry[n]] == n && s.registry[n] !in s.gone)
  }

  ghost predicate Inv(s: State) { WaitersOk(s) && EntriesOk(s) }

  lemma InvLinked(s: State)
    requires WaitersOk(s)
    ensures Linked(s)
  {
    forall n, i | n in s.waiters && 0 <= i < |s.waiters[n]| ensures s.waiters[n][i] < |s.waiterLog| {
      assert ListOk(s, n) && s.waiters[n][i] in s.waiters[n];
    }
  }

  lemma InstallKeeps(s: State, n: Nick, c: Client)
    requires Inv(s) && Linked(s) && Named(s, c) && s.nicks[c] == n && c !in s.gone
    ensures Inv(Install(s, n, c))
  {
    var s' := Install(s, n, c);
    var ws := ListOf(s, n);
    forall m | m in s'.waiters ensures ListOk(s', m) {
      assert ListOk(s, m);
    }
    forall w | 0 <= w < |s'.waiterLog| ensures
      && (s'.waiterLog[w].outcome == None <==> Listed(s', w))
      && (s'.waiterLog[w].outcome == None <==> w in s'.timers)
    {
      assert s'.waiterLog[w].nick == s.waiterLog[w].nick;
      assert Listed(s, w) <==> s.waiterLog[w].outcome == None;
      if w in ws { assert ListOk(s, n); }
    }
  }

  lemma AwaitKeeps(s: State, n: Nick)
    requires Inv(s)
    ensures Inv(Await(s, n))
  {
    assert n in s.waiters ==> ListOk(s, n);
    if s.open && n !in s.registry {
      WaitKeeps(s, n);
    } else if s.open {
      ServedKeeps(s, n);
    }
  }

  lemma WaitKeeps(s: State, n: Nick)
    requires Inv(s) && s.open && n !in s.registry && (n in s.waiters ==> ListOk(s, n))
    ensures Inv(Await(s, n))
  {
    var s', w := Await(s, n), |s.waiterLog|;
    forall m | m in s'.waiters ensures ListOk(s', m) {
      if m == n { Appended(ListOf(s, n), w); } else { assert ListOk(s, m); }
    }
    forall v | 0 <= v < |s'.waiterLog| ensures s'.waiterLog[v].outcome == None <==> Listed(s', v) {
      if v < w { assert s.waiterLog[v].outcome == None <==> Listed(s, v); }
    }
  }

  lemma Appended(ws: seq<nat>, w: nat)
    requires NoRepeats(ws) && forall v :: v in ws ==> v < w
    ensures NoRepeats(ws + [w])
  {
    assert forall i :: 0 <= i < |ws| ==> ws[i] in ws;
  }

  /** connect() to a device that is there leaves a settled waiter, listed nowhere. */
  lemma ServedKeeps(s: State, n: Nick)
    requires Inv(s) && s.open && n in s.registry
    ensures Inv(Await(s, n))
  {
    var s', w := Await(s, n), |s.waiterLog|;
    forall m | m in s'.waiters ensures ListOk(s', m) { assert ListOk(s, m); }
    forall v | 0 <= v < |s'.waiterLog| ensures s'.waiterLog[v].outcome == None <==> Listed(s', v) {
      if v < w { assert s.waiterLog[v].outcome == None <==> Listed(s, v); }
    }
  }

  lemma ExpireKeeps(s: State, w: nat)
    requires Inv(s) && w in s.timers && w < |s.waiterLog|
    ensures Inv(Expire(s, w))
  {
    var s', n := Expire(s, w), s.waiterLog[w].nick;
    assert Listed(s, w) && ListOk(s, n);
    WithoutFacts(s.waiters[n], w);
    forall m | m in s'.waiters ensures ListOk(s', m) {
      assert ListOk(s, m);
    }
    forall v | 0 <= v < |s'.waiterLog| ensures
      && (s'.waiterLog[v].outcome == None <==> Listed(s', v))
      && (s'.waiterLog[v].outcome == None <==> v in s'.timers)
    {
      assert s.waiterLog[v].outcome == None <==> Listed(s, v);
    }
  }

  lemma WaitingIsUnsettled(s: State, w: nat)
    requires WaitersOk(s) && w < |s.waiterLog|
    ensures w in Waiting(s) <==> s.waiterLog[w].outcome == None
  {
    if w in Waiting(s) {
      var n :| n in s.waiters && w in s.waiters[n];
      assert ListOk(s, n) && Listed(s, w);
    }
    if s.waiterLog[w].outcome == None {
      assert Listed(s, w);
      assert s.waiterLog[w].nick in s.waiters;
    }
  }

  lemma ShutKeeps(s: State)
    requires Inv(s)
    ensures Inv(Shut(s))
  {
    if s.open {
      forall w | 0 <= w < |s.waiterLog| ensures w in Waiting(s) <==> s.waiterLog[w].outcome == None {
        WaitingIsUnsettled(s, w);
      }
    }
  }

  lemma SameWaiters(s: State, s': State)
    requires WaitersOk(s) && s'.waiters == s.waiters && s'.waiterLog == s.waiterLog && s'.timers == s.timers
    requires (s.open ==> s'.open) && forall n :: n in s'.registry ==> n in s.registry
    ensures WaitersOk(s')
  {
    forall n | n in s'.waiters ensures ListOk(s', n) { assert ListOk(s, n); }
    forall w | 0 <= w < |s'.waiterLog| ensures Listed(s', w) <==> Listed(s, w) {}
  }

  lemma TurnKeeps(s: State, e: Event)
    requires Inv(s) && Enabled(s, e)
    ensures Linked(s) && (e.TimerFires? ==> e.waiter < |s.waiterLog|) && Inv(Turn(s, e))
  {
    InvLinked(s);
    match e
    case Listen => SameWaiters(s, Turn(s, e));
    case Authenticated(c, n) => SameWaiters(s, Turn(s, e));
    case ForwardRequested(c) => if Named(s, c) { InstallKeeps(s, s.nicks[c], c); }
    case ConnectCalled(n) => AwaitKeeps(s, n);
    case TimerFires(w) => ExpireKeeps(s, w);
    case ClientCloses(c) => SameWaiters(s, Turn(s, e));
    case CloseCalled => ShutKeeps(s);
  }

  // ---------------------------------------------------------------- every run

  ghost predicate Admits(s: State, e: Event) {
    Linked(s) && Enabled(s, e) && (e.TimerFires? ==> e.waiter < |s.waiterLog|)
  }

  ghost predicate Legal(es: seq<Event>)
    decreases |es|, 0
  {
    es == [] || (Legal(es[..|es| - 1]) && Admits(End(es[..|es| - 1]), es[|es| - 1]))
  }

  /** Where a legal sequence of events leads. */
  ghost function End(es: seq<Event>): State
    requires Legal(es)
    decreases |es|, 1
  {
    if es == [] then EMPTY else Turn(End(es[..|es| - 1]), es[|es| - 1])
  }

  lemma {:induction false} EndKeeps(es: seq<Event>)
    requires Legal(es)
    ensures Inv(End(es))
    decreases |es|
  {
    if es != [] {
      EndKeeps(es[..|es| - 1]);
      TurnKeeps(End(es[..|es| - 1]), es[|es| - 1]);
    }
  }

  predicate EntryXorWaiters(s: State, n: Nick) { !(n in s.registry && n in s.waiters) }

  /** Its timer is live exactly while it is unsettled, and exactly while it is listed. */
  predicate TimerIffUnsettled(s: State, w: nat)
    requires w < |s.waiterLog|
  {
    && (w in s.timers <==> s.waiterLog[w].outcome == None)
    && (w in s.timers <==> w in ListOf(s, s.waiterLog[w].nick))
  }

  /**
    In every run no nickname has both an entry and waiters, and a waiter's timer is live exactly while it is
    unsettled.
   */
  lemma EntryOrWaiters(es: seq<Event>, n: Nick, w: nat)
    requires Legal(es)
    ensures
      var s := End(es);
      EntryXorWaiters(s, n) && (w < |s.waiterLog| ==> TimerIffUnsettled(s, w))
  {
    EndKeeps(es);
    var s := End(es);
    if n in s.waiters { assert ListOk(s, n); }
    if w < |s.waiterLog| { assert s.waiterLog[w].outcome == None <==> Listed(s, w); }
  }

  // ---------------------------------------------------------------- what settles a waiter

  /** The outcome an event gives a waiter for `n` that is still unsettled. */
  function OutcomeGiven(s: State, e: Event, w: nat, n: Nick): Option<Outcome> {
    match e
    case ForwardRequested(c) => if Named(s, c) && s.nicks[c] == n then Some(Resolved(c)) else None
    case TimerFires(v) => if v == w then Some(TimedOut) else None
    case CloseCalled => Some(ServerClosed)
    case _ => None
  }

  /**
    A waiter is settled by the first event that concerns it: a client installed for its nickname, its own
    timer, or shutdown. Once settled it never changes.
   */
  lemma SettledByFirst(s: State, e: Event, w: nat)
    requires Inv(s) && Linked(s) && Enabled(s, e) && (e.TimerFires? ==> e.waiter < |s.waiterLog|) && w < |s.waiterLog|
    ensures
      var ls := Turn(s, e).waiterLog;
      && w < |ls| && ls[w].nick == s.waiterLog[w].nick
      && ls[w].outcome ==
           if s.waiterLog[w].outcome.Some? then s.waiterLog[w].outcome else OutcomeGiven(s, e, w, s.waiterLog[w].nick)
  {
    assert s.waiterLog[w].outcome == None <==> Listed(s, w);
    match e
    case ForwardRequested(c) =>
      if Named(s, c) && s.nicks[c] in s.waiters { assert ListOk(s, s.nicks[c]); }
    case CloseCalled =>
      WaitingIsUnsettled(s, w);
      if Listed(s, w) { assert ListOk(s, s.waiterLog[w].nick); }
    case _ =>
  }

  // ---------------------------------------------------------------- who serves a nickname

  /** In `es`, event `i` installs client `c` for `n`: it forwards, having authenticated as `n`, not empty, before. */
  ghost predicate InstallsAt(es: seq<Event>, i: int, n: Nick, c: Client) {
    0 <= i < |es| && n != "" && es[i] == ForwardRequested(c) && Authenticated(c, n) in es[..i]
  }

  /** The server is listening after `es`. */
  ghost predicate OpenAfter(es: seq<Event>) {
    exists i :: 0 <= i < |es| && es[i] == Listen && forall j :: i < j < |es| ==> es[j] != CloseCalled
  }

  /** Event `j` ends client `c`'s service of `n`: it closes, the server does, or another is installed. */
  ghost predicate EndsAt(es: seq<Event>, j: int, n: Nick, c: Client) {
    && 0 <= j < |es|
    && (es[j] == ClientCloses(c) || (es[j] == CloseCalled && OpenAfter(es[..j]))
        || exists d :: d != c && InstallsAt(es, j, n, d))
  }

  /** `c` was installed for `n`, and nothing since has ended that. */
  ghost predicate Serves(es: seq<Event>, n: Nick, c: Client) {
    exists i :: InstallsAt(es, i, n, c) && forall j :: i < j < |es| ==> !EndsAt(es, j, n, c)
  }

  lemma SamePrefix(es: seq<Event>, j: nat, n: Nick, c: Client)
    requires j < |es| - 1
    ensures InstallsAt(es, j, n, c) == InstallsAt(es[..|es| - 1], j, n, c)
    ensures EndsAt(es, j, n, c) == EndsAt(es[..|es| - 1], j, n, c)
  {
    var front := es[..|es| - 1];
    assert front[..j] == es[..j];
    assert forall d :: InstallsAt(es, j, n, d) == InstallsAt(front, j, n, d);
  }

  lemma ServesBefore(es: seq<Event>, n: Nick, c: Client)
    requires es != [] && Serves(es, n, c) && !InstallsAt(es, |es| - 1, n, c)
    ensures Serves(es[..|es| - 1], n, c) && !EndsAt(es, |es| - 1, n, c)
  {
    var k, front := |es| - 1, es[..|es| - 1];
    var i :| InstallsAt(es, i, n, c) && forall j :: i < j < |es| ==> !EndsAt(es, j, n, c);
    SamePrefix(es, i, n, c);
    forall j | i < j < k ensures !EndsAt(front, j, n, c) { SamePrefix(es, j, n, c); }
  }

  lemma ServesStill(es: seq<Event>, n: Nick, c: Client)
    requires es != [] && Serves(es[..|es| - 1], n, c) && !EndsAt(es, |es| - 1, n, c)
    ensures Serves(es, n, c)
  {
    var k, front := |es| - 1, es[..|es| - 1];
    var i :| InstallsAt(front, i, n, c) && forall j :: i < j < |front| ==> !EndsAt(front, j, n, c);
    SamePrefix(es, i, n, c);
    forall j | i < j < |es| ensures !EndsAt(es, j, n, c) {
      if j < k { SamePrefix(es, j, n, c); }
    }
  }

  lemma ServesNext(es: seq<Event>, n: Nick, c: Client)
    requires es != []
    ensures
      var k := |es| - 1;
      Serves(es, n, c) <==> InstallsAt(es, k, n, c) || (Serves(es[..k], n, c) && !EndsAt(es, k, n, c))
  {
    var k := |es| - 1;
    if Serves(es, n, c) && !InstallsAt(es, k, n, c) { ServesBefore(es, n, c); }
    if Serves(es[..k], n, c) && !EndsAt(es, k, n, c) { ServesStill(es, n, c); }
  }

  lemma {:induction false} NicksAre(es: seq<Event>, c: Client, n: Nick)
    requires Legal(es)
    ensures c in End(es).nicks && End(es).nicks[c] == n <==> Authenticated(c, n) in es
    decreases |es|
  {
    if es != [] {
      var k := |es| - 1;
      NicksAre(es[..k], c, n);
      assert es == es[..k] + [es[k]];
      if es[k].Authenticated? && es[k].client == c && es[k].nick != n {
        assert c !in End(es[..k]).nicks;
      }
    }
  }

  lemma OpenStill(es: seq<Event>)
    requires es != [] && OpenAfter(es[..|es| - 1]) && es[|es| - 1] != CloseCalled
    ensures OpenAfter(es)
  {
    var front := es[..|es| - 1];
    var i :| 0 <= i < |front| && front[i] == Listen && forall j :: i < j < |front| ==> front[j] != CloseCalled;
    assert es[i] == Listen;
  }

  lemma OpenBefore(es: seq<Event>)
    requires es != [] && OpenAfter(es) && es[|es| - 1] != Listen
    ensures OpenAfter(es[..|es| - 1]) && es[|es| - 1] != CloseCalled
  {
    var front := es[..|es| - 1];
    var i :| 0 <= i < |es| && es[i] == Listen && forall j :: i < j < |es| ==> es[j] != CloseCalled;
    assert front[i] == Listen;
  }

  lemma OpenNow(es: seq<Event>)
    requires es != [] && es[|es| - 1] == Listen
    ensures OpenAfter(es)
  {
  }

  lemma {:induction false} OpenIs(es: seq<Event>)
    requires Legal(es)
    ensures End(es).open <==> OpenAfter(es)
    decreases |es|
  {
    if es != [] {
      var k := |es| - 1;
      OpenIs(es[..k]);
      if es[k] == Listen {
        OpenNow(es);
      } else {
        if OpenAfter(es[..k]) && es[k] != CloseCalled { OpenStill(es); }
        if OpenAfter(es) { OpenBefore(es); }
      }
    }
  }

  /**
    The registry is a function of what has happened: in every run a nickname maps to `c` exactly when `c`
    was installed for it and has not since closed, nor the server, nor been replaced. So the late close of
    an evicted client never removes its successor.
   */
  lemma {:induction false} RegistryIsLastInstalled(es: seq<Event>, n: Nick, c: Client)
    requires Legal(es)
    ensures n in End(es).registry && End(es).registry[n] == c <==> Serves(es, n, c)
    decreases |es|
  {
    if es != [] {
      var k := |es| - 1;
      RegistryIsLastInstalled(es[..k], n, c);
      ServesNext(es, n, c);
      RegistryStep(es, k, n, c);
    }
  }

  /**
    What a connect() call gets at once: the client serving the nickname, if there is one; otherwise it waits,
    and a server that is not listening takes no call.
   */
  lemma ConnectAnswered(es: seq<Event>, n: Nick, c: Client)
    requires Legal(es) && Legal(es + [ConnectCalled(n)])
    ensures
      var ls, ls' := End(es).waiterLog, End(es + [ConnectCalled(n)]).waiterLog;
      && (OpenAfter(es) && Serves(es, n, c) ==> ls' == ls + [Waiter(n, Some(Resolved(c)))])
      && (OpenAfter(es) && (forall d :: !Serves(es, n, d)) ==> ls' == ls + [Waiter(n, None)])
      && (!OpenAfter(es) ==> ls' == ls)
  {
    assert (es + [ConnectCalled(n)])[..|es|] == es;
    OpenIs(es);
    RegistryIsLastInstalled(es, n, c);
    if n in End(es).registry { RegistryIsLastInstalled(es, n, End(es).registry[n]); }
  }

  // ---------------------------------------------------------------- who is told to end

  /** Event `j` takes `n` from `c` while `c` serves it, and not because `c` closed. */
  ghost predicate TakenAt(es: seq<Event>, j: int, n: Nick, c: Client) {
    && 0 <= j < |es| && Serves(es[..j], n, c)
    && ((es[j] == CloseCalled && OpenAfter(es[..j])) || exists d :: d != c && InstallsAt(es, j, n, d))
  }

  ghost predicate Taken(es: seq<Event>, c: Client) { exists j, n :: TakenAt(es, j, n, c) }

  ghost predicate TakenBy(es: seq<Event>, j: int, c: Client) { exists n :: TakenAt(es, j, n, c) }

  lemma SameTaken(es: seq<Event>, j: nat, n: Nick, c: Client)
    requires j < |es| - 1
    ensures TakenAt(es, j, n, c) == TakenAt(es[..|es| - 1], j, n, c)
  {
    var front := es[..|es| - 1];
    assert front[..j] == es[..j] && front[j] == es[j];
    assert forall d :: InstallsAt(es, j, n, d) == InstallsAt(front, j, n, d);
  }

  lemma TakenNext(es: seq<Event>, c: Client)
    requires es != []
    ensures Taken(es, c) <==> Taken(es[..|es| - 1], c) || TakenBy(es, |es| - 1, c)
  {
    var k := |es| - 1;
    if Taken(es, c) {
      var j, n :| TakenAt(es, j, n, c);
      if j < k { SameTaken(es, j, n, c); }
    }
    if Taken(es[..k], c) {
      var j, n :| TakenAt(es[..k], j, n, c);
      SameTaken(es, j, n, c);
    }
  }

  /** The turn itself, on the registry it finds. */
  lemma TurnEnds(s: State, e: Event, c: Client)
    requires Inv(s) && Admits(s, e)
    ensures c in Turn(s, e).ended <==> c in s.ended || exists n :: LosesEntry(s, e, n, c)
  {
    if e == CloseCalled && s.open {
      if n :| n in s.registry && s.registry[n] == c { assert LosesEntry(s, e, n, c); }
    } else if e.ForwardRequested? && Named(s, e.client) {
      var n := s.nicks[e.client];
      assert LosesEntry(s, e, n, c) <==> n in s.registry && s.registry[n] == c && c != e.client;
    }
  }

  predicate LosesEntry(s: State, e: Event, n: Nick, c: Client) {
    && n in s.registry && s.registry[n] == c
    && ((e == CloseCalled && s.open)
        || (e.ForwardRequested? && e.client != c && Named(s, e.client) && s.nicks[e.client] == n))
  }

  lemma TakenIsLoss(es: seq<Event>, n: Nick, c: Client)
    requires es != [] && Legal(es)
    ensures
      var k := |es| - 1;
      TakenAt(es, k, n, c) <==> LosesEntry(End(es[..k]), es[k], n, c)
  {
    var k := |es| - 1;
    RegistryIsLastInstalled(es[..k], n, c);
    OpenIs(es[..k]);
    if es[k].ForwardRequested? {
      ForwardInstalls(es, k, n);
      var s, d := End(es[..k]), es[k].client;
      assert InstallsAt(es, k, n, d) <==> Named(s, d) && s.nicks[d] == n;
    }
  }

  /**
    In every run the server has told a client to end if and only if it served some nickname when another
    client was installed for it or the open server closed.
   */
  lemma {:induction false} EndedAreTaken(es: seq<Event>, c: Client)
    requires Legal(es)
    ensures c in End(es).ended <==> Taken(es, c)
    decreases |es|
  {
    if es != [] {
      var k := |es| - 1;
      EndedAreTaken(es[..k], c);
      EndKeeps(es[..k]);
      TurnEnds(End(es[..k]), es[k], c);
      TakenNext(es, c);
      forall n ensures TakenAt(es, k, n, c) <==> LosesEntry(End(es[..k]), es[k], n, c) { TakenIsLoss(es, n, c); }
    }
  }

  /** A device accepted with an empty key id is never routed: nobody's connect() ever reaches it. */
  lemma {:induction false} EmptyNickNeverServed(es: seq<Event>)
    requires Legal(es)
    ensures "" !in End(es).registry && NeverResolved(End(es).waiterLog, "")
    decreases |es|
  {
    EndKeeps(es);
    if es != [] {
      var k := |es| - 1;
      EmptyNickNeverServed(es[..k]);
      EndKeeps(es[..k]);
      TurnNeverResolves(End(es[..k]), es[k]);
    }
  }

  ghost predicate NeverResolved(ls: seq<Waiter>, n: Nick) {
    forall w :: 0 <= w < |ls| && ls[w].nick == n ==> ls[w].outcome.None? || !ls[w].outcome.value.Resolved?
  }

  lemma TurnNeverResolves(s: State, e: Event)
    requires Inv(s) && Admits(s, e) && "" !in s.registry && NeverResolved(s.waiterLog, "")
    ensures NeverResolved(Turn(s, e).waiterLog, "")
  {
    forall w | 0 <= w < |s.waiterLog|
      ensures w < |Turn(s, e).waiterLog|
      ensures Turn(s, e).waiterLog[w].nick == "" ==>
        Turn(s, e).waiterLog[w].outcome.None? || !Turn(s, e).waiterLog[w].outcome.value.Resolved?
    {
      SettledByFirst(s, e, w);
    }
  }

  /** `c`'s entry for `n` after one more event. */
  ghost predicate EntryStep(s: State, s': State, n: Nick, c: Client, installs: bool, ends: bool) {
    n in s'.registry && s'.registry[n] == c <==> installs || (n in s.registry && s.registry[n] == c && !ends)
  }

  lemma TurnEntry(s: State, e: Event, n: Nick, c: Client)
    requires Inv(s) && Admits(s, e)
    ensures
      var installed := if e.ForwardRequested? && Named(s, e.client) && s.nicks[e.client] == n then Some(e.client)
        else None;
      EntryStep(s, Turn(s, e), n, c, installed == Some(c),
                e == ClientCloses(c) || (e == CloseCalled && s.open) || (installed.Some? && installed != Some(c)))
  {
  }

  lemma RegistryStep(es: seq<Event>, k: nat, n: Nick, c: Client)
    requires Legal(es) && |es| == k + 1
    ensures EntryStep(End(es[..k]), End(es), n, c, InstallsAt(es, k, n, c), EndsAt(es, k, n, c))
  {
    var s := End(es[..k]);
    EndKeeps(es[..k]);
    OpenIs(es[..k]);
    TurnEntry(s, es[k], n, c);
    if es[k].ForwardRequested? {
      ForwardInstalls(es, k, n);
      var d := es[k].client;
      assert InstallsAt(es, k, n, d) <==> Named(s, d) && s.nicks[d] == n;
    }
  }

  lemma ForwardInstalls(es: seq<Event>, k: nat, n: Nick)
    requires Legal(es) && |es| == k + 1 && es[k].ForwardRequested?
    ensures
      var s, d := End(es[..k]), es[k].client;
      forall c :: InstallsAt(es, k, n, c) <==> c == d && Named(s, d) && s.nicks[d] == n
  {
    NicksAre(es[..k], es[k].client, n);
  }
}
