/** The session object a pass works on, and the first two things a pass does to its status: expiring clients and noticing
    who came, went or returned. */
module SessionStatus {
  import opened Model

  /** A client is expired once its grace has fully elapsed, never while it is marked connected. */
  predicate Expired(now: int, lastSeen: int, timeoutSeconds: int) {
    lastSeen != DEFAULT_TIME && (lastSeen + timeoutSeconds < now || lastSeen + timeoutSeconds == now)
  }

  lemma ExpiredMeans(now: int, lastSeen: int, timeoutSeconds: int)
    ensures Expired(now, lastSeen, timeoutSeconds) <==> lastSeen != DEFAULT_TIME && lastSeen + timeoutSeconds <= now
  {}

  function Unexpired(now: int, timeoutSeconds: int, status: Statuses): Statuses {
    map c | c in status && !Expired(now, status[c].lastSeen, timeoutSeconds) :: status[c]
  }

  /** When a client that was last seen at `lastSeen` counts as last seen, now that the spec says `connected`. */
  function NextSeen(now: int, connected: bool, lastSeen: int): int {
    if connected then DEFAULT_TIME else if lastSeen == DEFAULT_TIME then now else lastSeen
  }

  function Refreshed(now: int, clients: map<string, bool>, status: Statuses): Statuses {
    map c | c in status ::
      if c in clients then status[c].(lastSeen := NextSeen(now, clients[c], status[c].lastSeen)) else status[c]
  }

  function Arrivals(clients: map<string, bool>, status: Statuses): set<string> {
    set c | c in clients && clients[c] && c !in status
  }

  /** What is left of a status before new clients are placed: the clients still in the spec whose grace lasts. */
  function Carried(now: int, timeoutSeconds: int, clients: map<string, bool>, status: Statuses): Statuses {
    map c | c in status && c in clients && !Expired(now, status[c].lastSeen, timeoutSeconds) ::
      status[c].(lastSeen := NextSeen(now, clients[c], status[c].lastSeen))
  }

  /** The connected clients of the spec that a pass must place. */
  function Newcomers(now: int, timeoutSeconds: int, clients: map<string, bool>, status: Statuses): set<string> {
    set c | c in clients && clients[c] && (c in status ==> Expired(now, status[c].lastSeen, timeoutSeconds))
  }

  /** `Carried` and `Newcomers` are what the three steps of a pass leave, in the order the pass takes them. */
  lemma StepsCompose(now: int, timeoutSeconds: int, clients: map<string, bool>, status: Statuses)
    ensures var live := Refreshed(now, clients, Unexpired(now, timeoutSeconds, status));
            && Carried(now, timeoutSeconds, clients, status) == (map c | c in live && c in clients :: live[c])
            && Newcomers(now, timeoutSeconds, clients, status)
               == Arrivals(clients, Unexpired(now, timeoutSeconds, status))
  {
    var kept := Unexpired(now, timeoutSeconds, status);
    assert forall c :: c in kept <==> c in status && !Expired(now, status[c].lastSeen, timeoutSeconds);
  }

  /** The copy of a session that a pass fetches, changes and writes back. */
  class Session {
    const cfg: Config
    const clients: map<string, bool>
    var status: Statuses

    constructor (cfg: Config, clients: map<string, bool>, status: Statuses)
      ensures this.cfg == cfg && this.clients == clients && this.status == status
    {
      this.cfg, this.clients, this.status := cfg, clients, status;
    }

    method CleanExpiredClients(now: int)
      modifies this
      ensures status == Unexpired(now, cfg.timeoutSeconds, old(status))
      ensures forall c :: c in status <==>
                            && c in old(status)
                            && (old(status)[c].lastSeen == DEFAULT_TIME ||
                                now < old(status)[c].lastSeen + cfg.timeoutSeconds)
      ensures forall c :: c in status ==> status[c] == old(status)[c]
    {
      var todo := status.Keys;
      while todo != {}
        invariant todo <= status.Keys
        invariant status == map c | c in old(status) &&
                                    (c in todo || !Expired(now, old(status)[c].lastSeen, cfg.timeoutSeconds)) ::
                                    old(status)[c]
      {
        var c :| c in todo;
        if Expired(now, status[c].lastSeen, cfg.timeoutSeconds) {
          status := status - {c};
        }
        todo := todo - {c};
      }
    }

    /** Marks lost and returned clients and lists the ones that have no status yet. */
    method HandleClientChanges(now: int) returns (newClients: seq<string>)
      modifies this
      ensures status == Refreshed(now, clients, old(status))
      ensures forall c :: c in newClients <==> c in Arrivals(clients, old(status))
      ensures forall i, j :: 0 <= i < j < |newClients| ==> newClients[i] != newClients[j]
    {
      newClients := [];
      var todo := clients.Keys;
      while todo != {}
        invariant todo <= clients.Keys && status.Keys == old(status).Keys
        invariant forall c :: c in todo ==> c !in newClients
        invariant forall c :: c in newClients <==> c in Arrivals(clients, old(status)) && c !in todo
        invariant forall i, j :: 0 <= i < j < |newClients| ==> newClients[i] != newClients[j]
        invariant forall c :: c in status ==>
                                status[c] == if c in clients && c !in todo
                                             then Refreshed(now, clients, old(status))[c] else old(status)[c]
      {
        var c :| c in todo;
        if c in status && !clients[c] && status[c].lastSeen == DEFAULT_TIME {
          status := status[c := status[c].(lastSeen := now)];
        } else if c !in status && clients[c] {
          newClients := newClients + [c];
        } else if clients[c] {
          status := status[c := status[c].(lastSeen := DEFAULT_TIME)];
        }
        todo := todo - {c};
      }
    }
  }
}
