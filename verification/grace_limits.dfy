/** Where grace ends. The session controller manages registrations before it writes the status and ignores their failures, so
    a registration can stand on a pod whose stored status has a connected client, and then costs that client its pod. */
module GraceLimits {
  import opened Model
  import opened RegistrationManager
  import opened ReadinessReport
  import opened ClientPods
  import opened SessionPods
  import opened GarbageCollector
  import opened Network
  import opened System
  import opened Steps
  import opened SystemInvariant
  import opened PassLaws
  import opened Reclamation

  ghost predicate WritesStatus(a: Action) {
    a.ReconcileClients? && a.effects.wrote
  }

  lemma StatusStays(cfg: Config, s: State, a: Action, s': State)
    requires ValidConfig(cfg) && Next(cfg, s, a, s') && !WritesStatus(a)
    ensures s'.status == s.status
  {
    if a.ReconcileClients? {
      ClientPassMeans(cfg, s, a, s');
      hide Next;
    } else {
      hide SessionPodPass, GcPass, NetworkPass;
    }
  }

  lemma {:induction false} StatusStaysFor(cfg: Config, states: seq<State>, actions: seq<Action>, i: nat, j: nat)
    requires ValidConfig(cfg) && Run(cfg, states, actions) && i <= j < |states|
    requires forall m :: i <= m < j ==> !WritesStatus(actions[m])
    ensures states[j].status == states[i].status
    decreases j
  {
    hide Next, WritesStatus;
    if i < j {
      StatusStaysFor(cfg, states, actions, i, j - 1);
      StatusStays(cfg, states[j - 1], actions[j - 1], states[j]);
    }
  }

  lemma CollectionsWriteNoStatus(s: State, a: Action, pod: string)
    requires Settles(s, a, pod)
    ensures !WritesStatus(a)
  {}

  /** A registered pod loses its grace whoever is connected to it: unless the session controller writes a status or touches
      the registration, two collections past the deadline delete it under a client recorded as connected. */
  lemma BusyPodIsReaped(cfg: Config, states: seq<State>, actions: seq<Action>, i: nat, j: nat, k: nat, pod: string)
    requires ValidConfig(cfg) && Run(cfg, states, actions) && i <= j < k < |actions| && k + 1 < |states|
    requires pod in states[i].registrations && HasConnectedUser(states[i].status, pod)
    requires forall m :: i <= m < k ==>
                           LeftAlone(states[m], actions[m], states[m + 1], pod) && !WritesStatus(actions[m])
    requires Overdue(cfg, states[j].now, states[j].registrations, pod)
    requires Settles(states[j], actions[j], pod) && Settles(states[k], actions[k], pod)
    ensures pod !in states[k + 1].pods && HasConnectedUser(states[k + 1].status, pod)
  {
    hide *;
    CollectionsWriteNoStatus(states[k], actions[k], pod);
    RegisteredIs(states[i].registrations, states[i].pods, pod);
    AbandonedIsReaped(cfg, states, actions, i, j, k, pod);
    StatusStaysFor(cfg, states, actions, i, k + 1);
  }

  /** First way: a written pass leaves a registration on a busy pod. */
  lemma LeftRegistrationIsReaped(cfg: Config, states: seq<State>, actions: seq<Action>, i: nat, j: nat, k: nat,
                                 pod: string)
    requires ValidConfig(cfg) && Run(cfg, states, actions) && i < j < k < |actions| && k + 1 < |states|
    requires WritesStatus(actions[i]) && pod in BusyPods(actions[i].effects.alloc)
    requires pod in states[i].registrations && pod !in actions[i].effects.busy
    requires forall m :: i < m < k ==>
                           LeftAlone(states[m], actions[m], states[m + 1], pod) && !WritesStatus(actions[m])
    requires Overdue(cfg, states[j].now, states[j].registrations, pod)
    requires Settles(states[j], actions[j], pod) && Settles(states[k], actions[k], pod)
    ensures pod !in states[k + 1].pods && HasConnectedUser(states[k + 1].status, pod)
  {
    RunStep(cfg, states, actions, i);
    LeftRegistered(cfg, states[i], actions[i], states[i + 1], pod);
    hide *;
    BusyPodIsReaped(cfg, states, actions, i + 1, j, k, pod);
  }

  /** Second way: a pass registers a pod that became idle and then leaves the status in which it is busy. */
  lemma UnwrittenRegistrationIsReaped(cfg: Config, states: seq<State>, actions: seq<Action>, i: nat, j: nat, k: nat,
                                      pod: string)
    requires ValidConfig(cfg) && Run(cfg, states, actions) && i < j < k < |actions| && k + 1 < |states|
    requires actions[i].ReconcileClients? && !actions[i].effects.wrote
    requires pod in actions[i].effects.idle - states[i].registrations.Keys && pod in BusyPods(states[i].status)
    requires forall m :: i < m < k ==>
                           LeftAlone(states[m], actions[m], states[m + 1], pod) && !WritesStatus(actions[m])
    requires Overdue(cfg, states[j].now, states[j].registrations, pod)
    requires Settles(states[j], actions[j], pod) && Settles(states[k], actions[k], pod)
    ensures pod !in states[k + 1].pods && HasConnectedUser(states[k + 1].status, pod)
  {
    RunStep(cfg, states, actions, i);
    NewlyRegistered(cfg, states[i], actions[i], states[i + 1], pod);
    hide *;
    BusyPodIsReaped(cfg, states, actions, i + 1, j, k, pod);
  }

  lemma LeftRegistered(cfg: Config, s: State, a: Action, s': State, pod: string)
    requires ValidConfig(cfg) && Next(cfg, s, a, s') && WritesStatus(a)
    requires pod in BusyPods(a.effects.alloc) && pod in s.registrations && pod !in a.effects.busy
    ensures pod in s'.registrations && HasConnectedUser(s'.status, pod)
  {
    ClientPassMeans(cfg, s, a, s');
    ComputedIs(cfg, s, a);
    ReportedUsers(ListedPods(cfg, s.pods), a.ip, a.effects.alloc);
    hide Next, Reported, ComputedBy, StatusRewritable, PlacesNewcomers, IdlePods, WithSpawned, Allocated, ListedPods,
         HasConnectedUser;
  }

  lemma NewlyRegistered(cfg: Config, s: State, a: Action, s': State, pod: string)
    requires ValidConfig(cfg) && Next(cfg, s, a, s') && a.ReconcileClients? && !a.effects.wrote
    requires pod in a.effects.idle && pod in BusyPods(s.status)
    ensures pod in s'.registrations && HasConnectedUser(s'.status, pod)
  {
    ClientPassMeans(cfg, s, a, s');
    hide Next, Reported, ComputedBy, StatusRewritable, PlacesNewcomers, WithSpawned, Allocated, ListedPods,
         HasConnectedUser;
  }
}
