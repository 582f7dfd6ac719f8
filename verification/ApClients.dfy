/**
 The portal client table: one entry per client of the SoftAP, claimed by a station's MAC or by an
 address, and rewritten in place by joins, leaves, leases and requests.
 */
module ApClients {
  const CLIENTS_MAX := 4   // DEFAULT_AP_MAX_CONNECTIONS

  datatype ClientState = Free | Joined | Left | AddrOnly

  /** `logged` are the activity kinds printed since the entry was claimed or joined; `prints` is the
      history of those prints. */
  datatype Client = Client(mac: nat, state: ClientState, logged: set<nat>, ip: nat, prints: seq<nat>)

  const EMPTY := Client(0, Free, {}, 0, [])

  predicate IsStation(c: Client, mac: nat) {
    (c.state == Joined || c.state == Left) && c.mac == mac
  }

  predicate HasMac(c: Client) {
    c.state == Joined || c.state == Left
  }

  // No two entries of stations share a MAC, no two clients an address, and no kind is printed twice.
  ghost predicate Ok(t: seq<Client>) {
    && (forall i, j :: 0 <= i < j < |t| && HasMac(t[i]) && HasMac(t[j]) ==> t[i].mac != t[j].mac)
    && (forall i, j :: 0 <= i < j < |t| && t[i].state != Free && t[j].state != Free && t[i].ip != 0 ==>
        t[i].ip != t[j].ip)
    && (forall i :: 0 <= i < |t| ==> EntryOk(t[i]))
  }

  ghost predicate EntryOk(c: Client) {
    && (c.state == AddrOnly ==> c.mac == 0)
    && (HasMac(c) ==> c.mac != 0)
    && (forall k <- c.prints :: k in c.logged)
    && (forall j, k :: 0 <= j < k < |c.prints| ==> c.prints[j] != c.prints[k])
  }

  ghost predicate AllJoined(t: seq<Client>) {
    forall i :: 0 <= i < |t| ==> t[i].state == Joined
  }

  // Entry i changed; every other entry is as it was.
  ghost predicate OnlyAt(t: seq<Client>, u: seq<Client>, i: int) {
    |u| == |t| && forall k :: 0 <= k < |t| && k != i ==> u[k] == t[k]
  }

  class ClientTable {
    var clients: array<Client>

    ghost predicate Valid()
      reads this, clients
    {
      clients.Length == CLIENTS_MAX && Ok(clients[..])
    }

    constructor ()
      ensures Valid() && fresh(clients)
    {
      clients := new Client[CLIENTS_MAX](_ => EMPTY);
    }

    // `ap_clients_reset`
    method Reset()
      requires Valid()
      modifies clients
      ensures Valid() && forall k :: 0 <= k < CLIENTS_MAX ==> clients[k] == EMPTY
    {
      for i := 0 to CLIENTS_MAX
        invariant forall k :: 0 <= k < i ==> clients[k] == EMPTY
      {
        clients[i] := EMPTY;
      }
    }

    // The entry that holds this station; else a free one first, then the first with no station on the
    // SoftAP now; -1 if none.
    method Find(mac: nat) returns (own: int, spare: int)
      requires Valid()
      ensures -1 <= own < CLIENTS_MAX && -1 <= spare < CLIENTS_MAX
      ensures own >= 0 ==> IsStation(clients[own], mac)
      ensures own < 0 ==> forall k :: 0 <= k < CLIENTS_MAX ==> !IsStation(clients[k], mac)
      ensures own < 0 && spare >= 0 ==> clients[spare].state != Joined
      ensures own < 0 && spare < 0 ==> AllJoined(clients[..])
      ensures own < 0 && spare >= 0 && clients[spare].state != Free ==> forall k :: 0 <= k < CLIENTS_MAX ==>
          clients[k].state != Free
    {
      own, spare := -1, -1;
      for i := 0 to CLIENTS_MAX
        invariant -1 <= spare < i
        invariant forall k :: 0 <= k < i ==> !IsStation(clients[k], mac)
        invariant spare >= 0 ==> clients[spare].state != Joined
        invariant spare < 0 ==> forall k :: 0 <= k < i ==> clients[k].state == Joined
        invariant spare >= 0 && clients[spare].state != Free ==> forall k :: 0 <= k < i ==> clients[k].state != Free
      {
        var c := clients[i];
        if (c.state == Joined || c.state == Left) && c.mac == mac {
          own := i;
          return;
        }
        if c.state == Free {
          if spare < 0 || clients[spare].state != Free {
            spare := i;
          }
        } else if c.state != Joined && spare < 0 {
          spare := i;
        }
      }
    }

    // `ap_client_by_mac_locked` with a claim: the station's entry, its own or a cleared one.
    method ByMac(mac: nat) returns (i: int, claimed: bool)
      requires Valid() && mac != 0
      modifies clients
      ensures -1 <= i < CLIENTS_MAX && clients.Length == CLIENTS_MAX
      ensures OnlyAt(old(clients[..]), clients[..], i)
      ensures i < 0 ==> AllJoined(old(clients[..])) && !claimed
      ensures i < 0 ==> forall k :: 0 <= k < CLIENTS_MAX ==> !IsStation(old(clients[..])[k], mac)
      ensures i >= 0 && !claimed ==> clients[i] == old(clients[..])[i] && IsStation(clients[i], mac)
      ensures claimed ==> i >= 0 && clients[i] == EMPTY.(mac := mac) && old(clients[..])[i].state != Joined
      ensures claimed ==> forall k :: 0 <= k < CLIENTS_MAX ==> !IsStation(old(clients[..])[k], mac)
      ensures claimed && old(clients[..])[i].state != Free ==> forall k :: 0 <= k < CLIENTS_MAX ==>
          old(clients[..])[k].state != Free
    {
      var own, spare := Find(mac);
      if own >= 0 {
        return own, false;
      }
      if spare < 0 {
        return -1, false;
      }
      clients[spare] := EMPTY.(mac := mac);
      return spare, true;
    }

    // `ap_client_joined`: false when every entry holds another joined station.
    method ClientJoined(mac: nat) returns (ok: bool)
      requires Valid() && mac != 0
      modifies clients
      ensures Valid()
      ensures !ok <==> AllJoined(old(clients[..])) && forall k :: 0 <= k < CLIENTS_MAX ==>
          old(clients[..])[k].mac != mac
      ensures !ok ==> clients[..] == old(clients[..])
      ensures ok ==> exists i :: Took(old(clients[..]), clients[..], i, mac) &&
                       clients[i] == Entry(old(clients[..])[i], mac).(state := Joined, logged := {}, prints := [])
    {
      ghost var was := clients[..];
      var i, claimed := ByMac(mac);
      ok := i >= 0;
      if ok {
        clients[i] := clients[i].(state := Joined, logged := {}, prints := []);
        assert Took(was, clients[..], i, mac);
      } else {
        assert clients[..] == was;
      }
    }

    // `ap_client_left`
    method ClientLeft(mac: nat)
      requires Valid() && mac != 0
      modifies clients
      ensures Valid() && clients.Length == CLIENTS_MAX
      ensures forall k :: 0 <= k < CLIENTS_MAX ==>
        clients[k] == if IsStation(old(clients[..])[k], mac)
            then old(clients[..])[k].(state := Left) else old(clients[..])[k]
    {
      var own, _ := Find(mac);
      if own >= 0 {
        clients[own] := clients[own].(state := Left);
      }
    }

    // The address's earlier holders lose it.
    method TakeAddress(mac: nat, ip: nat)
      requires Valid() && mac != 0 && ip != 0
      modifies clients
      ensures Valid()
      ensures forall k :: 0 <= k < CLIENTS_MAX ==> clients[k] == Released(old(clients[..])[k], mac, ip)
    {
      ghost var was := clients[..];
      for k := 0 to CLIENTS_MAX
        invariant forall j :: 0 <= j < k ==> clients[j] == Released(was[j], mac, ip)
        invariant forall j :: k <= j < CLIENTS_MAX ==> clients[j] == was[j]
      {
        var c := clients[k];
        if c.state != Free && c.ip == ip && c.mac != mac {
          clients[k] := c.(ip := 0);
          if c.state == AddrOnly {
            clients[k] := clients[k].(state := Free);
          }
        }
      }
    }

    // `ap_client_leased`: false when every entry holds another joined station.
    method ClientLeased(mac: nat, ip: nat) returns (ok: bool)
      requires Valid() && mac != 0 && ip != 0
      modifies clients
      ensures Valid()
      ensures !ok <==> AllJoined(old(clients[..])) && forall k :: 0 <= k < CLIENTS_MAX ==>
          old(clients[..])[k].mac != mac
      ensures clients.Length == CLIENTS_MAX
      ensures !ok ==> clients[..] == ReleasedAll(old(clients[..]), mac, ip)
      ensures ok ==> exists i :: Took(ReleasedAll(old(clients[..]), mac, ip), clients[..], i, mac) &&
                       clients[i] == Entry(Released(old(clients[..])[i], mac, ip), mac).(state := Joined, ip := ip)
      ensures forall k :: 0 <= k < CLIENTS_MAX ==>
        (old(clients[..])[k].state == Joined && old(clients[..])[k].mac != mac) ==>
        clients[k] == old(clients[..])[k].(ip := if old(clients[..])[k].ip == ip then 0 else old(clients[..])[k].ip)
    {
      ghost var was := clients[..];
      TakeAddress(mac, ip);
      ghost var mid := clients[..];
      assert mid == ReleasedAll(was, mac, ip);
      var i, claimed := ByMac(mac);
      ok := i >= 0;
      if ok {
        clients[i] := clients[i].(state := Joined, ip := ip);
        LeaseOk(was, mid, clients[..], i, mac, ip, claimed);
        assert Took(mid, clients[..], i, mac);
      }
      assert AllJoined(mid) <==> AllJoined(was);
    }

    // `portal_activity`'s table part: true when it prints the client's first request of a kind.
    method Activity(kind: nat, ip: nat) returns (first: bool)
      requires Valid() && ip != 0
      modifies clients
      ensures Valid()
      ensures first ==> exists i :: Prints(old(clients[..]), clients[..], i, kind, ip)
      ensures !first ==> clients[..] == old(clients[..])
      ensures first <==>
        && (forall i :: 0 <= i < CLIENTS_MAX && old(clients[..])[i].state != Free && old(clients[..])[i].ip == ip ==>
              kind !in old(clients[..])[i].logged)
        && (exists i :: 0 <= i < CLIENTS_MAX && (old(clients[..])[i].state == Free || old(clients[..])[i].ip == ip))
    {
      ghost var was := clients[..];
      var at, spare := FindAddress(ip);
      var c: Client;
      if at >= 0 {
        c := clients[at];
      } else if spare >= 0 {
        at := spare;
        c := EMPTY.(state := AddrOnly, ip := ip);
      } else {
        assert clients[..] == was;
        return false;
      }
      if kind in c.logged {
        assert clients[..] == was;
        return false;
      }
      clients[at] := c.(logged := c.logged + {kind}, prints := c.prints + [kind]);
      assert Prints(was, clients[..], at, kind, ip);
      return true;
    }

    // The client with this address, and the first free entry before it.
    method FindAddress(ip: nat) returns (at: int, spare: int)
      requires Valid() && ip != 0
      ensures -1 <= at < CLIENTS_MAX && -1 <= spare < CLIENTS_MAX
      ensures at >= 0 ==> clients[at].state != Free && clients[at].ip == ip
      ensures at < 0 ==> forall k :: 0 <= k < CLIENTS_MAX && clients[k].state != Free ==> clients[k].ip != ip
      ensures spare >= 0 ==> clients[spare].state == Free
      ensures at < 0 && spare < 0 ==> forall k :: 0 <= k < CLIENTS_MAX ==> clients[k].state != Free
    {
      at, spare := -1, -1;
      for k := 0 to CLIENTS_MAX
        invariant -1 <= spare < k
        invariant spare >= 0 ==> clients[spare].state == Free
        invariant forall j :: 0 <= j < k && clients[j].state != Free ==> clients[j].ip != ip
        invariant spare < 0 ==> forall j :: 0 <= j < k ==> clients[j].state != Free
      {
        if clients[k].state == Free {
          if spare < 0 {
            spare := k;
          }
        } else if clients[k].ip == ip {
          at := k;
          return;
        }
      }
    }
  }

  function Released(c: Client, mac: nat, ip: nat): Client {
    if c.state != Free && c.ip == ip && c.mac != mac
    then c.(ip := 0, state := if c.state == AddrOnly then Free else c.state)
    else c
  }

  function ReleasedAll(t: seq<Client>, mac: nat, ip: nat): seq<Client> {
    seq(|t|, k requires 0 <= k < |t| => Released(t[k], mac, ip))
  }

  // The entry a station takes over: its own, or a cleared one.
  function Entry(c: Client, mac: nat): Client {
    if IsStation(c, mac) then c else EMPTY.(mac := mac)
  }

  // Only entry i changed: the station's own or, when it has none, a free one if there is one; it held
  // no other joined station.
  ghost predicate Took(t: seq<Client>, u: seq<Client>, i: int, mac: nat) {
    && 0 <= i < |t| && OnlyAt(t, u, i)
    && (t[i].state == Joined ==> t[i].mac == mac)
    && (IsStation(t[i], mac) ||
        ((forall k :: 0 <= k < |t| ==> !IsStation(t[k], mac)) &&
         (t[i].state != Free ==> forall k :: 0 <= k < |t| ==> t[k].state != Free)))
  }

  // Only entry i changed: the client's, or a free one for a new client; it had not printed this kind.
  ghost predicate Prints(t: seq<Client>, u: seq<Client>, i: int, kind: nat, ip: nat) {
    && 0 <= i < |t| && OnlyAt(t, u, i)
    && (if t[i].state == Free then forall k :: 0 <= k < |t| && t[k].state != Free ==> t[k].ip != ip else t[i].ip == ip)
    && var c := if t[i].state == Free then EMPTY.(state := AddrOnly, ip := ip) else t[i];
       kind !in c.logged && u[i] == c.(logged := c.logged + {kind}, prints := c.prints + [kind])
  }

  // A client keeps its address unless another one, a station by MAC, is leased it; it then keeps all else, but
  // that an entry known by the address alone is free again.
  lemma ReleasedKeeps(c: Client, mac: nat, ip: nat)
    requires mac != 0 && EntryOk(c)
    ensures var r := Released(c, mac, ip);
      && (c.ip != ip || IsStation(c, mac) ==> r == c)
      && (HasMac(c) && c.mac != mac && c.ip == ip ==> r == c.(ip := 0))
      && (c.state == AddrOnly && c.ip == ip ==> r.state == Free)
  {
  }

  lemma LeaseOk(was: seq<Client>, mid: seq<Client>, now: seq<Client>, i: int, mac: nat, ip: nat, claimed: bool)
    requires Ok(was) && |was| == |mid| == |now| && 0 <= i < |was| && mac != 0 && ip != 0
    requires forall k :: 0 <= k < |was| ==> mid[k] == Released(was[k], mac, ip)
    requires forall k :: 0 <= k < |was| && k != i ==> now[k] == mid[k]
    requires !claimed ==> IsStation(mid[i], mac) && now[i] == mid[i].(state := Joined, ip := ip)
    requires claimed ==> mid[i].state != Joined && now[i] == EMPTY.(mac := mac, state := Joined, ip := ip) &&
                         forall k :: 0 <= k < |was| ==> !IsStation(mid[k], mac)
    ensures Ok(now)
    ensures was[i].state == Joined ==> was[i].mac == mac
  {
    LeaseMacs(was, mid, now, i, mac, ip, claimed);
    LeaseAddresses(was, mid, now, i, mac, ip);
  }

  // The station's MAC stays its entry's alone ...
  lemma LeaseMacs(was: seq<Client>, mid: seq<Client>, now: seq<Client>, i: int, mac: nat, ip: nat, claimed: bool)
    requires Ok(was) && |was| == |mid| == |now| && 0 <= i < |was| && mac != 0
    requires forall k :: 0 <= k < |was| ==> mid[k] == Released(was[k], mac, ip)
    requires forall k :: 0 <= k < |was| && k != i ==> now[k] == mid[k]
    requires now[i].mac == mac
    requires if claimed then forall k :: 0 <= k < |was| ==> !IsStation(mid[k], mac) else IsStation(mid[i], mac)
    ensures forall j, k :: 0 <= j < k < |now| && HasMac(now[j]) && HasMac(now[k]) ==> now[j].mac != now[k].mac
  {
  }

  // ... and the address too.
  lemma LeaseAddresses(was: seq<Client>, mid: seq<Client>, now: seq<Client>, i: int, mac: nat, ip: nat)
    requires Ok(was) && |was| == |mid| == |now| && 0 <= i < |was| && ip != 0
    requires forall k :: 0 <= k < |was| ==> mid[k] == Released(was[k], mac, ip)
    requires forall k :: 0 <= k < |was| && k != i ==> now[k] == mid[k]
    requires mac != 0 && forall k :: 0 <= k < |was| && k != i ==> !IsStation(mid[k], mac)
    requires now[i].ip == ip
    ensures forall j, k :: 0 <= j < k < |now| && now[j].state != Free && now[k].state != Free && now[j].ip != 0 ==>
        now[j].ip != now[k].ip
  {
    forall k | 0 <= k < |was| && k != i && mid[k].state != Free ensures mid[k].ip != ip {
      assert EntryOk(was[k]);
    }
  }
}
