/** A collection that is not atomic: it lists the registrations once and deals with them one by one, while the other
    controllers and the environment go on. */
module Overlap {
  import opened Model
  import opened SessionStatus
  import opened Placement
  import opened RegistrationManager
  import opened ReadinessReport
  import opened ClientPods
  import opened SessionPods
  import opened GarbageCollector
  import opened Network
  import opened System
  import opened Steps
  import opened SystemInvariant
  import opened PassLaws
  import opened Grace
  import opened Reclamation

  /** The cluster, and what the collection under way has listed and not yet dealt with. */
  datatype Shared = Shared(s: State, listed: Registrations)

  datatype Move =
    | Other(a: Action)
    | List
    | DealWith(name: string, podGone: bool, done: bool)

  /** One listed registration is dealt with as it was listed, on the pods as they are now. The update of a registration that
      changed since is refused; deletions go by name alone. */
  ghost predicate Deals(cfg: Config, s: State, name: string, registration: Registration, podGone: bool, done: bool,
                        s': State)
  {
    var verdict := Judge(TimesOf(cfg), s.pods.Keys, s.now, name, registration);
    && (podGone ==> verdict == Reap) && (done && verdict == Reap ==> podGone)
    && (done && verdict == Promote ==> name !in s.registrations || s.registrations[name] == registration)
    && s' == s.(pods := if podGone then s.pods - {name} else s.pods,
                registrations :=
                  if !done || verdict == Keep then s.registrations
                  else if verdict == Promote then
                    (if name in s.registrations then s.registrations[name := registration.(kind := ReutilizeTimeout)]
                     else s.registrations)
                  else s.registrations - {name})
  }

  ghost predicate Moves(cfg: Config, o: Shared, m: Move, o': Shared)
    requires ValidConfig(cfg)
  {
    match m
    case Other(a) => !a.Collect? && Next(cfg, o.s, a, o'.s) && o'.listed == o.listed
    case List => o' == Shared(o.s, o.s.registrations)
    case DealWith(name, podGone, done) =>
      && name in o.listed
      && Deals(cfg, o.s, name, o.listed[name], podGone, done, o'.s)
      && o'.listed == if done then o.listed - {name} else map[]
  }

  ghost predicate SharedRun(cfg: Config, states: seq<Shared>, moves: seq<Move>)
    requires ValidConfig(cfg)
  {
    && |states| == |moves| + 1
    && Init(states[0].s) && states[0].listed == map[]
    && forall i :: 0 <= i < |moves| ==> Moves(cfg, states[i], moves[i], states[i + 1])
  }

  // ---- the invariant ----

  /** What is listed belongs to the session as well. */
  ghost predicate SharedInv(cfg: Config, o: Shared) {
    Inv(cfg, o.s) && RegistrationsFit(cfg, o.listed)
  }

  lemma DealingKeepsInv(cfg: Config, s: State, name: string, registration: Registration, podGone: bool, done: bool,
                        s': State)
    requires ValidConfig(cfg) && Inv(cfg, s) && registration.session == cfg.session
    requires Deals(cfg, s, name, registration, podGone, done, s')
    ensures Inv(cfg, s')
  {
    InvMeans(cfg, s);
    InvMeans(cfg, s');
    hide Inv, ClockFit, StatusFit, AnnotationFit, AllPathsFit, PodKnown, ServicesKnown, RulesFit, Judge, ValidConfig;
  }

  lemma MoveKeepsInv(cfg: Config, o: Shared, m: Move, o': Shared)
    requires ValidConfig(cfg) && SharedInv(cfg, o) && Moves(cfg, o, m, o')
    ensures SharedInv(cfg, o')
  {
    hide Inv, Next, Deals, ValidConfig;
    match m
    case Other(a) => StepKeepsInv(cfg, o.s, a, o'.s);
    case List => RegistrationsAreFit(cfg, o.s);
    case DealWith(name, podGone, done) =>
      DealingKeepsInv(cfg, o.s, name, o.listed[name], podGone, done, o'.s);
  }

  lemma RegistrationsAreFit(cfg: Config, s: State)
    requires Inv(cfg, s)
    ensures RegistrationsFit(cfg, s.registrations)
  {
    hide *;
    InvMeans(cfg, s);
  }

  /** Overlapping collections keep the invariant, so all it says of reachable states stays true. */
  lemma {:induction false} SharedRunKeepsInv(cfg: Config, states: seq<Shared>, moves: seq<Move>, i: nat)
    requires ValidConfig(cfg) && SharedRun(cfg, states, moves) && i < |states|
    ensures SharedInv(cfg, states[i])
  {
    hide Moves, Inv, ValidConfig;
    if i == 0 {
      InitInv(cfg, states[0].s);
    } else {
      SharedRunKeepsInv(cfg, states, moves, i - 1);
      MoveKeepsInv(cfg, states[i - 1], moves[i - 1], states[i]);
    }
  }

  // ---- grace of what is listed ----

  /** Everybody recorded on the pod was last seen before the registration that is listed for it. */
  ghost predicate ListedGrace(status: Statuses, listed: Registrations, pod: string) {
    pod in listed ==>
      forall c :: c in status && pod in status[c].pods ==>
                    status[c].lastSeen != DEFAULT_TIME && status[c].lastSeen <= listed[pod].created
  }

  lemma ListingHasGrace(o: Shared, pod: string)
    requires GraceHolds(o.s.status, o.s.registrations)
    ensures ListedGrace(o.s.status, o.s.registrations, pod)
  {}

  lemma WrittenListedGrace(cfg: Config, used: set<string>, given: Inputs, before: View, alloc: Statuses,
                           listed: Registrations, pod: string)
    requires ValidConfig(cfg) && PlacesNewcomers(cfg, used, given, before, alloc)
    requires ListedGrace(before.status, listed, pod) && pod in listed
    ensures ListedGrace(alloc, listed, pod) <==> !HasConnectedUser(alloc, pod)
  {
    hide PlacesNewcomers;
    if !HasConnectedUser(alloc, pod) {
      forall c | c in alloc && pod in alloc[c].pods
        ensures alloc[c].lastSeen != DEFAULT_TIME && alloc[c].lastSeen <= listed[pod].created
      {
        assert alloc[c].lastSeen != DEFAULT_TIME;
        DisconnectedWasRecorded(cfg, used, given, before, alloc, c);
      }
    }
  }

  lemma ReportedListedGrace(reported: Pods, ip: Option<string>, alloc: Statuses, listed: Registrations, pod: string)
    requires StatusRewritable(alloc)
    ensures ListedGrace(Reported(reported, ip, alloc), listed, pod) <==> ListedGrace(alloc, listed, pod)
  {
    ReportedKeeps(reported, ip, alloc);
    hide Reported, StatusRewritable, Allocated, Users;
    var after := Reported(reported, ip, alloc);
    if ListedGrace(after, listed, pod) && pod in listed {
      forall c | c in alloc && pod in alloc[c].pods
        ensures alloc[c].lastSeen != DEFAULT_TIME && alloc[c].lastSeen <= listed[pod].created
      {
        assert pod in after[c].pods;
      }
    }
  }

  /** A client-pod pass in the middle of a collection keeps the listed pod safe to delete exactly when it does not write a
      status in which somebody is connected to it. Whether it deregisters the pod makes no difference any more. */
  lemma PassDuringCollection(cfg: Config, s: State, a: Action, s': State, listed: Registrations, pod: string)
    requires ValidConfig(cfg) && Next(cfg, s, a, s') && a.ReconcileClients?
    requires pod in listed && ListedGrace(s.status, listed, pod)
    ensures ListedGrace(s'.status, listed, pod) <==> (a.effects.wrote ==> !HasConnectedUser(s'.status, pod))
  {
    hide *;
    ClientPassMeans(cfg, s, a, s');
    ComputedIs(cfg, s, a);
    if a.effects.wrote {
      ViewsAre(s, a.ip, a.others);
      WrittenListedGrace(cfg, s.used, GivenTo(s, a.ip, a.others), ViewOf(s), a.effects.alloc, listed, pod);
      ReportedListedGrace(ListedPods(cfg, s.pods), a.ip, a.effects.alloc, listed, pod);
      ReportedUsers(ListedPods(cfg, s.pods), a.ip, a.effects.alloc);
    }
  }

  /** The move does not record anybody connected to the pod. */
  ghost predicate LeavesUnused(m: Move, o': Shared, pod: string) {
    m.Other? && m.a.ReconcileClients? && m.a.effects.wrote ==> !HasConnectedUser(o'.s.status, pod)
  }

  lemma StatusUnmoved(cfg: Config, s: State, a: Action, s': State)
    requires ValidConfig(cfg) && Next(cfg, s, a, s') && !a.ReconcileClients?
    ensures s'.status == s.status
  {
    hide SessionPodPass, GcPass, NetworkPass, ValidConfig;
  }

  lemma MoveKeepsListedGrace(cfg: Config, o: Shared, m: Move, o': Shared, pod: string)
    requires ValidConfig(cfg) && Moves(cfg, o, m, o') && !m.List? && LeavesUnused(m, o', pod)
    requires ListedGrace(o.s.status, o.listed, pod)
    ensures ListedGrace(o'.s.status, o'.listed, pod)
    ensures pod in o'.listed ==> pod in o.listed && o'.listed[pod] == o.listed[pod]
  {
    hide Next, ValidConfig, HasConnectedUser, Judge;
    if m.Other? {
      if m.a.ReconcileClients? {
        if pod in o.listed {
          PassDuringCollection(cfg, o.s, m.a, o'.s, o.listed, pod);
        }
      } else {
        StatusUnmoved(cfg, o.s, m.a, o'.s);
      }
    }
  }

  // ---- without overlap ----

  lemma JudgeLooksAtOnePod(cfg: Config, pods: set<string>, others: set<string>, now: int, name: string,
                           registration: Registration)
    requires name in pods <==> name in others
    ensures Judge(TimesOf(cfg), pods, now, name, registration) == Judge(TimesOf(cfg), others, now, name, registration)
  {}

  function Rest(registrations: Registrations, settled: set<string>): Registrations {
    map n | n in registrations && n !in settled :: registrations[n]
  }

  lemma RestShrinks(registrations: Registrations, settled: set<string>, name: string)
    ensures Rest(registrations, settled + {name}) == Rest(registrations, settled) - {name}
    ensures Rest(registrations, {}) == registrations
    ensures Rest(registrations, settled).Keys == registrations.Keys - settled
    ensures forall n :: n in Rest(registrations, settled) ==> Rest(registrations, settled)[n] == registrations[n]
  {}

  /** How far an undisturbed collection has come: a pass in the sense of one step, with the rest still listed unless a
      failure stopped it. */
  ghost predicate Collected(cfg: Config, start: State, settled: set<string>, victims: set<string>, stopped: bool, o: Shared)
    requires ValidConfig(cfg)
  {
    && Next(cfg, start, Collect(settled, victims), o.s)
    && (if stopped then o.listed == map[]
        else victims <= settled && o.listed == Rest(start.registrations, settled))
  }

  /** Dealing with the listed registrations one by one, with nothing in between, is one collection; and a finished one if
      all are dealt with and nothing failed. */
  lemma {:induction false} UndisturbedIsOneCollection(cfg: Config, states: seq<Shared>, moves: seq<Move>)
    returns (settled: set<string>, victims: set<string>, stopped: bool)
    requires ValidConfig(cfg) && |states| == |moves| + 1
    requires states[0].listed == states[0].s.registrations
    requires forall i :: 0 <= i < |moves| ==> moves[i].DealWith? && Moves(cfg, states[i], moves[i], states[i + 1])
    ensures Collected(cfg, states[0].s, settled, victims, stopped, states[|moves|])
    ensures stopped <==> exists i :: 0 <= i < |moves| && !moves[i].done
    ensures !stopped && states[|moves|].listed == map[] ==> settled == states[0].s.registrations.Keys
    decreases |moves|
  {
    hide *;
    if moves == [] {
      settled, victims, stopped := {}, {}, false;
      NothingCollected(cfg, states[0]);
    } else {
      var last := |moves| - 1;
      var settled0, victims0, stopped0 := UndisturbedIsOneCollection(cfg, states[..|moves|], moves[..last]);
      NoMoveWhenStopped(cfg, states[0].s, settled0, victims0, stopped0, states[last], moves[last], states[|moves|]);
      settled, victims := OneMoreCollected(cfg, states[0].s, settled0, victims0, states[last], moves[last], states[|moves|]);
      stopped := !moves[last].done;
      assert stopped0 <==> exists i :: 0 <= i < last && !moves[i].done;
    }
    NothingLeft(cfg, states[0].s, settled, victims, stopped, states[|moves|]);
  }

  lemma NoMoveWhenStopped(cfg: Config, start: State, settled: set<string>, victims: set<string>, stopped: bool, o: Shared,
                          m: Move, o': Shared)
    requires ValidConfig(cfg) && Collected(cfg, start, settled, victims, stopped, o)
    requires m.DealWith? && Moves(cfg, o, m, o')
    ensures !stopped
  {
    hide ValidConfig, Next, Deals;
  }

  /** Nothing left means that everything was settled. */
  lemma NothingLeft(cfg: Config, start: State, settled: set<string>, victims: set<string>, stopped: bool, o: Shared)
    requires ValidConfig(cfg) && Collected(cfg, start, settled, victims, stopped, o)
    ensures !stopped && o.listed == map[] ==> settled == start.registrations.Keys
  {
    hide ValidConfig, Settled, Reapable, TimesOf, Rest;
    RestShrinks(start.registrations, settled, "");
    assert settled <= start.registrations.Keys;
    if !stopped && o.listed == map[] {
      forall n | n in start.registrations ensures n in settled {
        assert n !in o.listed;
      }
    }
  }

  lemma NothingCollected(cfg: Config, o: Shared)
    requires ValidConfig(cfg) && o.listed == o.s.registrations
    ensures Collected(cfg, o.s, {}, {}, false, o)
  {
    hide ValidConfig, GcPass, TimesOf, Rest;
    NothingSettled(TimesOf(cfg), o.s.now, o.s.registrations, o.s.pods);
    RestShrinks(o.s.registrations, {}, "");
  }

  lemma OneMoreCollected(cfg: Config, start: State, settled: set<string>, victims: set<string>, o: Shared, m: Move,
                         o': Shared)
    returns (settled': set<string>, victims': set<string>)
    requires ValidConfig(cfg) && Collected(cfg, start, settled, victims, false, o)
    requires m.DealWith? && Moves(cfg, o, m, o')
    ensures Collected(cfg, start, settled', victims', !m.done, o')
  {
    hide ValidConfig, GcPass, Judge, TimesOf, Rest;
    var name, times := m.name, TimesOf(cfg);
    RestShrinks(start.registrations, settled, name);
    OneMoreSettled(times, start.now, start.registrations, start.pods, settled, victims, o.s.registrations, o.s.pods, name);
    JudgeLooksAtOnePod(cfg, start.pods.Keys, o.s.pods.Keys, start.now, name, start.registrations[name]);
    victims' := if m.podGone then victims + {name} else victims;
    settled' := if m.done then settled + {name} else settled;
  }
}
