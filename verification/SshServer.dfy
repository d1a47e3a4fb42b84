/** The class of packages/n8n-nodes/src/SshServer.ts: its handlers carry out the turns of SshRegistry. */
module SshServerClass {
  import opened Common
  import opened Options
  import opened SshRegistry

  class SshServer {
    var server: bool
    var registry: map<Nick, Client>
    var waiters: map<Nick, seq<nat>>

    // per connection: the captured nickname, and what became of it; per caller: its promise and timer
    var nicks: map<Client, Nick>
    var ended: set<Client>
    var gone: set<Client>
    var timers: set<nat>
    var waiterLog: seq<Waiter>

    ghost function View(): State
      reads this
    {
      State(server, registry, waiters, timers, waiterLog, nicks, ended, gone)
    }

    constructor ()
      ensures View() == EMPTY
    {
      server, registry, waiters, nicks, ended, gone := false, map[], map[], map[], {}, {};
      timers, waiterLog := {}, [];
    }

    method Listen()
      requires Linked(View())
      modifies `server
      ensures View() == Turn(old(View()), SshRegistry.Listen)
    {
      server := true;
    }

    /** handleAuth accepted the connection. */
    method CaptureNick(c: Client, n: Nick)
      requires Linked(View())
      modifies `nicks
      ensures View() == Turn(old(View()), Authenticated(c, n))
    {
      nicks := nicks[c := n];
    }

    /** Settle each of `ws` in turn, clearing its timer. */
    method SettleList(ws: seq<nat>, o: Outcome)
      requires forall i :: 0 <= i < |ws| ==> ws[i] < |waiterLog|
      modifies `timers, `waiterLog
      ensures waiterLog == SettleAll(old(waiterLog), ws, o) && timers == old(timers) - (set w | w in ws)
    {
      var i := 0;
      while i < |ws|
        invariant i <= |ws| && |waiterLog| == |old(waiterLog)|
        invariant timers == old(timers) - (set w | w in ws[..i])
        invariant forall w :: 0 <= w < |waiterLog| ==>
          waiterLog[w] == if w in ws[..i] then old(waiterLog)[w].(outcome := Some(o)) else old(waiterLog)[w]
      {
        assert ws[..i + 1] == ws[..i] + [ws[i]];
        timers := timers - {ws[i]};
        waiterLog := waiterLog[ws[i] := waiterLog[ws[i]].(outcome := Some(o))];
        i := i + 1;
      }
      assert ws[..i] == ws;
    }

    method InstallEntry(n: Nick, c: Client)
      requires Linked(View())
      modifies `registry, `waiters, `timers, `waiterLog, `ended
      ensures View() == Install(old(View()), n, c)
    {
      if n in registry && registry[n] != c {
        ended := ended + {registry[n]};
      }
      registry := registry[n := c];
      if n in waiters {
        var ws := waiters[n];
        waiters := waiters - {n};
        SettleList(ws, Resolved(c));
      }
    }

    /** A 'request' for tcpip-forward. */
    method OnForwardRequest(c: Client)
      requires Linked(View())
      modifies `registry, `waiters, `timers, `waiterLog, `ended
      ensures View() == Turn(old(View()), ForwardRequested(c))
    {
      if c in nicks && nicks[c] != "" { InstallEntry(nicks[c], c); }
    }

    /** connect() up to its wait: an entry at once, or a new waiter. */
    method AwaitDevice(n: Nick) returns (entry: Option<Client>)
      requires Linked(View())
      modifies `waiters, `timers, `waiterLog
      ensures View() == Turn(old(View()), ConnectCalled(n))
      ensures entry == if server && n in registry then Some(registry[n]) else None
    {
      if !server { return None; }
      var w := |waiterLog|;
      if n in registry {
        waiterLog := waiterLog + [Waiter(n, Some(Resolved(registry[n])))];
        return Some(registry[n]);
      }
      waiterLog, timers := waiterLog + [Waiter(n, None)], timers + {w};
      var list := if n in waiters then waiters[n] else [];
      waiters := waiters[n := list + [w]];
      return None;
    }

    method OnTimer(w: nat)
      requires Linked(View()) && w < |waiterLog|
      modifies `waiters, `timers, `waiterLog
      ensures View() == Turn(old(View()), TimerFires(w))
    {
      var n := waiterLog[w].nick;
      timers := timers - {w};
      if n in waiters {
        var list := Without(waiters[n], w);
        if list == [] {
          waiters := waiters - {n};
        } else {
          waiters := waiters[n := list];
        }
      }
      waiterLog := waiterLog[w := waiterLog[w].(outcome := Some(TimedOut))];
    }

    method OnClientClose(c: Client)
      requires Linked(View())
      modifies `registry, `gone
      ensures View() == Turn(old(View()), ClientCloses(c))
    {
      gone := gone + {c};
      if c in nicks && nicks[c] != "" {
        var n := nicks[c];
        if n in registry && registry[n] == c {
          registry := registry - {n};
        }
      }
    }

    /** The loop of close() over the waiter lists. */
    method RejectAll()
      requires Linked(View())
      modifies `timers, `waiterLog
      ensures timers == old(timers) - Waiting(old(View())) && |waiterLog| == |old(waiterLog)|
      ensures forall w :: 0 <= w < |waiterLog| ==>
        waiterLog[w] == if w in Waiting(old(View())) then old(waiterLog)[w].(outcome := Some(ServerClosed))
          else old(waiterLog)[w]
    {
      var rest := waiters.Keys;
      while rest != {}
        invariant rest <= waiters.Keys && |waiterLog| == |old(waiterLog)|
        invariant timers == old(timers) - ListedIn(waiters, waiters.Keys - rest)
        invariant forall w :: 0 <= w < |waiterLog| ==>
          waiterLog[w] == Rejected(old(waiterLog)[w], w in ListedIn(waiters, waiters.Keys - rest))
        decreases rest
      {
        var n :| n in rest;
        SettleList(waiters[n], ServerClosed);
        ListedMore(waiters, waiters.Keys - rest, n);
        assert waiters.Keys - (rest - {n}) == (waiters.Keys - rest) + {n};
        rest := rest - {n};
      }
      assert ListedIn(waiters, waiters.Keys - {}) == Waiting(old(View()));
    }

    method Close()
      requires Linked(View())
      modifies `server, `registry, `waiters, `timers, `waiterLog, `ended
      ensures View() == Turn(old(View()), CloseCalled)
    {
      if !server { return; }
      server := false;
      var clients := set n | n in registry :: registry[n];
      ended := ended + clients;
      registry := map[];
      RejectAll();
      waiters := map[];
      assert waiterLog == Shut(old(View())).waiterLog;
    }
  }

  function Rejected(w: Waiter, listed: bool): Waiter { if listed then w.(outcome := Some(ServerClosed)) else w }

  function ListedIn(waiters: map<Nick, seq<nat>>, ns: set<Nick>): set<nat>
    requires ns <= waiters.Keys
  {
    set n, w | n in ns && w in waiters[n] :: w
  }

  lemma ListedMore(waiters: map<Nick, seq<nat>>, ns: set<Nick>, n: Nick)
    requires ns <= waiters.Keys && n in waiters
    ensures ListedIn(waiters, ns + {n}) == ListedIn(waiters, ns) + (set w | w in waiters[n])
  {
  }
}
