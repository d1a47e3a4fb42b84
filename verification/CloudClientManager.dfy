/** The classes of packages/n8n-nodes-arduino-cloud/src/cloudClientManager.ts; a call is named by its number. */
module CloudClientManagerClass {
  import opened Options
  import opened CloudClients

  class ClientEntry {
    const credential: string
    var client: bool
    var connecting: bool
    var pendingConnect: Option<nat>
    var handlers: map<Key, set<nat>>
    var sdkSubscribed: set<Key>
    var refCount: int
    ghost var connects: nat
    ghost var disconnects: nat
    ghost var granted: multiset<Key>

    ghost function View(): Entry
      reads this
    {
      Entry(credential, client, connecting, pendingConnect, handlers, sdkSubscribed, refCount, connects, disconnects,
        granted)
    }

    constructor (credential: string)
      ensures this.credential == credential && View() == Fresh(credential)
    {
      this.credential := credential;
      client, connecting, pendingConnect, handlers, sdkSubscribed, refCount := false, false, None, map[], {}, 0;
      connects, disconnects, granted := 0, 0, multiset{};
    }

    /** ensureConnected up to its await, by call `o`: what it awaits, and whether it made that promise. */
    method EnsureConnected(o: nat) returns (phase: Phase, clears: bool)
      modifies `connecting, `pendingConnect
      ensures phase == AcquirePhase(old(View())) && clears == AcquireClears(old(View()))
      ensures View().(refCount := refCount + 1) == Acquire(old(View()), o)
    {
      if client { return Settled(true), false; }
      if pendingConnect.Some? { return if connecting then Waiting else Settled(false), false; }
      connecting, pendingConnect := true, Some(o);
      return Waiting, true;
    }

    /** client.connect() settles. */
    method ConnectSettled(ok: bool)
      modifies `client, `connecting, `connects
      ensures View() == old(View()).(connecting := false, client := old(client) || ok,
                                     connects := if ok then old(connects) + 1 else old(connects))
    {
      connecting := false;
      if ok { client, connects := true, connects + 1; }
    }

    method FinallyClause()
      modifies `pendingConnect
      ensures View() == old(View()).(pendingConnect := None)
    {
      pendingConnect := None;
    }

    method AddHandlerFor(k: Key, o: nat)
      modifies `handlers
      ensures View() == AddHandler(old(View()), k, o)
    {
      if k !in handlers { handlers := handlers[k := {}]; }
      handlers := handlers[k := handlers[k] + {o}];
    }

    method RemoveHandler(k: Key, o: nat)
      modifies `handlers
      ensures View() == DropHandler(old(View()), k, o)
    {
      if k in handlers {
        var rest := handlers[k] - {o};
        if rest == {} {
          handlers := handlers - {k};
        } else {
          handlers := handlers[k := rest];
        }
      }
    }

    /** The SDK callback: every handler is called once, whichever of them throw. */
    method Deliver(k: Key, throws: set<nat>) returns (called: seq<nat>, logged: set<nat>)
      ensures multiset(called) == multiset(HandlersOf(View(), k))
      ensures logged == HandlersOf(View(), k) * throws
    {
      called, logged := [], {};
      if k !in handlers { return; }
      var rest := handlers[k];
      while rest != {}
        invariant rest <= handlers[k] && multiset(called) + multiset(rest) == multiset(handlers[k])
        invariant logged == (handlers[k] - rest) * throws
        decreases rest
      {
        var o :| o in rest;
        called := called + [o];
        if o in throws { logged := logged + {o}; }
        rest := rest - {o};
      }
    }
  }

  class CloudClientManager {
    var entries: map<string, ClientEntry>

    ghost predicate Valid()
      reads this
    {
      forall c :: c in entries ==> entries[c].credential == c
    }

    constructor ()
      ensures Valid() && entries == map[]
    {
      entries := map[];
    }

    method GetEntry(credential: string) returns (entry: ClientEntry)
      requires Valid()
      modifies `entries
      ensures Valid() && entries == old(entries)[credential := entry]
      ensures credential in old(entries) ==> entry == old(entries)[credential]
      ensures credential !in old(entries) ==> fresh(entry) && entry.View() == Fresh(credential)
    {
      if credential in entries {
        entry := entries[credential];
      } else {
        entry := new ClientEntry(credential);
        entries := entries[credential := entry];
      }
    }

    /** subscribe up to its first await, by call `o`. */
    method Subscribe(credential: string, o: nat) returns (entry: ClientEntry, phase: Phase, clears: bool)
      requires Valid()
      modifies `entries, (if credential in entries then {entries[credential]} else {})
      ensures Valid() && entries == old(entries)[credential := entry]
      ensures credential in old(entries) ==> entry == old(entries)[credential]
      ensures
        var before := if credential in old(entries) then old(entries[credential].View()) else Fresh(credential);
        entry.View() == Acquire(before, o) && phase == AcquirePhase(before) && clears == AcquireClears(before)
    {
      entry := GetEntry(credential);
      entry.refCount := entry.refCount + 1;
      phase, clears := entry.EnsureConnected(o);
    }

    /** subscribe after `await this.ensureConnected`, to its next await or its end. */
    method Continue(entry: ClientEntry, k: Key, o: nat, ok: bool) returns (phase: Phase)
      modifies entry
      ensures ok ==> entry.View() == Attach(old(entry.View()), k, o)
      ensures ok ==> phase == if k in old(entry.sdkSubscribed) then Live else SdkPending
      ensures !ok ==> entry.View() == old(entry.View()).(refCount := old(entry.refCount) - 1) && phase == Done
    {
      if !ok {
        entry.refCount := entry.refCount - 1;
        return Done;
      }
      entry.AddHandlerFor(k, o);
      if k in entry.sdkSubscribed {
        assert entry.sdkSubscribed + {k} == entry.sdkSubscribed;
        return Live;
      }
      entry.sdkSubscribed := entry.sdkSubscribed + {k};
      return SdkPending;
    }

    /** client.onPropertyValue settles for call `o`. */
    method SdkSettled(entry: ClientEntry, k: Key, o: nat, ok: bool) returns (phase: Phase)
      requires Valid()
      modifies `entries, entry
      ensures Valid()
      ensures ok ==>
        && phase == Live && entries == old(entries)
        && entry.View() == old(entry.View()).(granted := old(entry.granted) + multiset{k})
      ensures !ok ==>
        && phase == Done
        && entry.View() ==
             Release(DropHandler(old(entry.View()).(sdkSubscribed := old(entry.sdkSubscribed) - {k}), k, o))
        && entries == if old(entry.refCount) == 1 then old(entries) - {entry.credential} else old(entries)
    {
      if ok {
        entry.granted := entry.granted + multiset{k};
        return Live;
      }
      entry.sdkSubscribed := entry.sdkSubscribed - {k};
      entry.RemoveHandler(k, o);
      ReleaseReference(entry);
      return Done;
    }

    /** The function subscribe returned. */
    method Unsubscribe(entry: ClientEntry, k: Key, o: nat)
      requires Valid()
      modifies `entries, entry
      ensures Valid() && entry.View() == Release(DropHandler(old(entry.View()), k, o))
      ensures entries == if old(entry.refCount) == 1 then old(entries) - {entry.credential} else old(entries)
    {
      entry.RemoveHandler(k, o);
      ReleaseReference(entry);
    }

    method ReleaseReference(entry: ClientEntry)
      requires Valid()
      modifies `entries, entry
      ensures Valid() && entry.View() == Release(old(entry.View()))
      ensures entries == if old(entry.refCount) == 1 then old(entries) - {entry.credential} else old(entries)
    {
      entry.refCount := entry.refCount - 1;
      if entry.refCount == 0 { TeardownEntry(entry); }
    }

    method TeardownEntry(entry: ClientEntry)
      requires Valid()
      modifies `entries, entry
      ensures Valid() && entries == old(entries) - {entry.credential} && entry.View() == Teardown(old(entry.View()))
    {
      var client := entry.client;
      entry.client, entry.handlers, entry.sdkSubscribed := false, map[], {};
      entries := entries - {entry.credential};
      if client { entry.disconnects := entry.disconnects + 1; }
    }
  }
}
