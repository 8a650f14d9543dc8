/** What the garbage collector does to one registration over a run, and what the two controllers reclaim together. */
module Reclamation {
  import opened Model
  import opened RegistrationManager
  import opened ReadinessReport
  import opened ClientPods
  import opened SessionPods
  import opened GarbageCollector
  import opened Network
  import opened System
  import opened Steps
  import opened SystemInvariant
  import opened PassLaws

  // ---- one registration ----

  /** Nobody but the garbage collector opens or closes the registration of that name or brings its pod back. */
  ghost predicate LeftAlone(s: State, a: Action, s': State, pod: string) {
    !a.Collect? ==> (pod in s'.registrations <==> pod in s.registrations) && (pod in s'.pods ==> pod in s.pods)
  }

  ghost predicate NotLost(s: State, a: Action, s': State, pod: string) {
    !a.Collect? && pod in s.pods ==> pod in s'.pods
  }

  /** A collection that gets to the registration of that name, if there is one. */
  predicate Settles(s: State, a: Action, pod: string) {
    a.Collect? && (pod in s.registrations ==> pod in a.settled)
  }

  predicate RegisteredOrGone(registrations: Registrations, pods: Pods, pod: string) {
    pod in registrations || pod !in pods
  }

  predicate Overdue(cfg: Config, now: int, registrations: Registrations, pod: string) {
    pod in registrations ==> registrations[pod].created + cfg.timeoutSeconds + cfg.reutilizeTimeoutSeconds < now
  }

  /** What is left of an overdue registration once a collection has dealt with it: it is in its second stage, or it is gone
      and its pod with it. */
  predicate Doomed(cfg: Config, now: int, registrations: Registrations, pods: Pods, pod: string) {
    && RegisteredOrGone(registrations, pods, pod)
    && Overdue(cfg, now, registrations, pod)
    && (pod in registrations ==> registrations[pod].kind == ReutilizeTimeout)
  }

  /** Steps that are no collection keep every registration they do not open or close, and time does not go back. */
  lemma OthersKeepRegistration(cfg: Config, s: State, a: Action, s': State, pod: string)
    requires ValidConfig(cfg) && Next(cfg, s, a, s') && !a.Collect?
    ensures s'.now >= s.now
    ensures pod in s.registrations && pod in s'.registrations ==> s'.registrations[pod] == s.registrations[pod]
  {
    hide *;
    match a
    case ReconcileClients(_, _, _) =>
      ClientPassMeans(cfg, s, a, s');
      KeptRegistration(s.registrations, a.effects.idle, a.effects.busy, cfg.session, s.now, pod);
    case ReconcileSession(_, _, _) =>
      SessionPassMeans(cfg, s, a, s');
      KeptRegistration(s.registrations, a.idle, a.busy, cfg.session, s.now, pod);
    case Publish(_, _, _) => PublishMeans(cfg, s, a, s');
    case _ => EnvironmentMeans(cfg, s, a, s');
  }

  lemma KeptRegistration(before: Registrations, idle: set<string>, busy: set<string>, session: string, now: int,
                         pod: string)
    ensures var after := RegistrationsAfter(before, idle, busy, session, now);
            pod in before && pod in after ==> after[pod] == before[pod]
  {}

  /** What a collection, finished or stopped, can do to one registration and its pod. */
  lemma CollectionOfOne(cfg: Config, s: State, a: Action, s': State, pod: string)
    requires ValidConfig(cfg) && Inv(cfg, s) && Next(cfg, s, a, s') && a.Collect?
    ensures s'.now == s.now && s'.status == s.status
    ensures pod !in s.registrations ==> pod !in s'.registrations && (pod in s'.pods <==> pod in s.pods)
    ensures pod in s'.registrations ==>
              && pod in s.registrations && s'.registrations[pod].created == s.registrations[pod].created
              && (s.registrations[pod].kind == ReutilizeTimeout ==> s'.registrations[pod].kind == ReutilizeTimeout)
    ensures pod in s.registrations && pod !in s'.registrations ==> pod !in s'.pods
    ensures Settles(s, a, pod) && Overdue(cfg, s.now, s.registrations, pod) ==>
              && (pod in s'.registrations ==> s'.registrations[pod].kind == ReutilizeTimeout)
              && (pod in s.registrations && s.registrations[pod].kind == ReutilizeTimeout ==>
                    pod !in s'.registrations && pod !in s'.pods)
    ensures pod in s'.pods ==> pod in s.pods
  {
    hide *;
    InvMeans(cfg, s);
    CollectMeans(cfg, s, a, s');
    ConfigTimes(cfg);
    OverdueMeans(cfg, s, pod);
    PassOnOne(TimesOf(cfg), s.now, s.registrations, s.pods, a.settled, a.victims, s'.registrations, s'.pods, pod);
    SettlesMeans(s, a, pod);
  }

  lemma OverdueMeans(cfg: Config, s: State, pod: string)
    requires RegistrationsFit(cfg, s.registrations)
    ensures pod in s.registrations ==> s.registrations[pod].session == cfg.session
    ensures Overdue(cfg, s.now, s.registrations, pod) && pod in s.registrations ==>
              s.registrations[pod].created + cfg.timeoutSeconds + cfg.reutilizeTimeoutSeconds < s.now
  {}

  lemma SettlesMeans(s: State, a: Action, pod: string)
    ensures Settles(s, a, pod) ==> a.Collect? && (pod in s.registrations ==> pod in a.settled)
  {}

  lemma ConfigTimes(cfg: Config)
    requires ValidConfig(cfg)
    ensures cfg.session in TimesOf(cfg) && cfg.reutilizeTimeoutSeconds >= 0
    ensures TimesOf(cfg)[cfg.session] == Times(cfg.timeoutSeconds, cfg.reutilizeTimeoutSeconds)
  {}

  lemma StepOfOne(cfg: Config, s: State, a: Action, s': State, pod: string)
    requires ValidConfig(cfg) && Inv(cfg, s) && Next(cfg, s, a, s') && LeftAlone(s, a, s', pod)
    requires RegisteredOrGone(s.registrations, s.pods, pod)
    ensures RegisteredOrGone(s'.registrations, s'.pods, pod)
    ensures Overdue(cfg, s.now, s.registrations, pod) ==> Overdue(cfg, s'.now, s'.registrations, pod)
    ensures Doomed(cfg, s.now, s.registrations, s.pods, pod) ==> Doomed(cfg, s'.now, s'.registrations, s'.pods, pod)
    ensures Overdue(cfg, s.now, s.registrations, pod) && Settles(s, a, pod) ==>
              Doomed(cfg, s'.now, s'.registrations, s'.pods, pod)
  {
    if a.Collect? {
      CollectionOfOne(cfg, s, a, s', pod);
    } else {
      OthersKeepRegistration(cfg, s, a, s', pod);
    }
    hide Next, Inv;
  }

  lemma {:induction false} StaysRegisteredOrGone(cfg: Config, states: seq<State>, actions: seq<Action>, i: nat, j: nat,
                                                 pod: string)
    requires ValidConfig(cfg) && Run(cfg, states, actions) && i <= j < |states|
    requires forall m :: i <= m < j ==> LeftAlone(states[m], actions[m], states[m + 1], pod)
    requires RegisteredOrGone(states[i].registrations, states[i].pods, pod)
    ensures RegisteredOrGone(states[j].registrations, states[j].pods, pod)
    decreases j
  {
    hide Next, Inv, LeftAlone, RegisteredOrGone;
    if i < j {
      StaysRegisteredOrGone(cfg, states, actions, i, j - 1, pod);
      RunKeepsInv(cfg, states, actions, j - 1);
      StepOfOne(cfg, states[j - 1], actions[j - 1], states[j], pod);
    }
  }

  lemma {:induction false} StaysDoomed(cfg: Config, states: seq<State>, actions: seq<Action>, i: nat, j: nat, pod: string)
    requires ValidConfig(cfg) && Run(cfg, states, actions) && i <= j < |states|
    requires forall m :: i <= m < j ==> LeftAlone(states[m], actions[m], states[m + 1], pod)
    requires Doomed(cfg, states[i].now, states[i].registrations, states[i].pods, pod)
    ensures Doomed(cfg, states[j].now, states[j].registrations, states[j].pods, pod)
    decreases j
  {
    hide Next, Inv, LeftAlone, RegisteredOrGone, Overdue;
    if i < j {
      StaysDoomed(cfg, states, actions, i, j - 1, pod);
      RunKeepsInv(cfg, states, actions, j - 1);
      StepOfOne(cfg, states[j - 1], actions[j - 1], states[j], pod);
    }
  }

  /** The bound on a registration in a run: if from state `i` on, where the name is registered or its pod gone, nobody but
      the garbage collector touches it, then after two collections past its deadline that get to it, with anything else
      in between, neither the registration nor the pod is left. */
  lemma AbandonedIsReaped(cfg: Config, states: seq<State>, actions: seq<Action>, i: nat, j: nat, k: nat, pod: string)
    requires ValidConfig(cfg) && Run(cfg, states, actions) && i <= j < k < |actions| && k + 1 < |states|
    requires RegisteredOrGone(states[i].registrations, states[i].pods, pod)
    requires forall m :: i <= m < k ==> LeftAlone(states[m], actions[m], states[m + 1], pod)
    requires Overdue(cfg, states[j].now, states[j].registrations, pod)
    requires Settles(states[j], actions[j], pod) && Settles(states[k], actions[k], pod)
    ensures pod !in states[k + 1].registrations && pod !in states[k + 1].pods
  {
    hide Next, Inv, LeftAlone, RegisteredOrGone, Overdue, Settles;
    StaysRegisteredOrGone(cfg, states, actions, i, j, pod);
    RunKeepsInv(cfg, states, actions, j);
    StepOfOne(cfg, states[j], actions[j], states[j + 1], pod);
    StaysDoomed(cfg, states, actions, j + 1, k, pod);
    RunKeepsInv(cfg, states, actions, k);
    SecondSettles(cfg, states[k], actions[k], states[k + 1], pod);
  }

  lemma SecondSettles(cfg: Config, s: State, a: Action, s': State, pod: string)
    requires ValidConfig(cfg) && Inv(cfg, s) && Next(cfg, s, a, s') && Settles(s, a, pod)
    requires Doomed(cfg, s.now, s.registrations, s.pods, pod)
    ensures pod !in s'.registrations && pod !in s'.pods
  {
    CollectionOfOne(cfg, s, a, s', pod);
    hide Next, Inv;
  }

  // ---- both controllers ----

  lemma {:induction false} UnregisteredStays(cfg: Config, states: seq<State>, actions: seq<Action>, i: nat, j: nat,
                                             pod: string)
    requires ValidConfig(cfg) && Run(cfg, states, actions) && i <= j < |states|
    requires forall m :: i <= m < j ==>
                           LeftAlone(states[m], actions[m], states[m + 1], pod) &&
                           NotLost(states[m], actions[m], states[m + 1], pod)
    requires pod in states[i].pods && pod !in states[i].registrations
    ensures pod in states[j].pods && pod !in states[j].registrations
    decreases j
  {
    hide Next, Inv;
    if i < j {
      UnregisteredStays(cfg, states, actions, i, j - 1, pod);
      RunKeepsInv(cfg, states, actions, j - 1);
      if actions[j - 1].Collect? {
        CollectionOfOne(cfg, states[j - 1], actions[j - 1], states[j], pod);
      }
    }
  }

  /** The pods nobody is connected to after a client-pod pass that went through are reclaimed, and no others: once their
      periods are over and two collections got to them, exactly the client pods with a connected client are left. In
      between anything may happen but that somebody else registers, deregisters, respawns or loses the pod. */
  lemma IdlePodsAreReclaimed(cfg: Config, states: seq<State>, actions: seq<Action>, i: nat, j: nat, k: nat, pod: string)
    requires ValidConfig(cfg) && Run(cfg, states, actions) && i < j < k < |actions| && k + 1 < |states|
    requires Stored(cfg, states[i], actions[i], states[i + 1]) && Completed(cfg, ViewOf(states[i]), actions[i].effects)
    requires pod in ListedPods(cfg, states[i + 1].pods)
    requires forall m :: i < m < k ==>
                           LeftAlone(states[m], actions[m], states[m + 1], pod) &&
                           NotLost(states[m], actions[m], states[m + 1], pod)
    requires Overdue(cfg, states[j].now, states[j].registrations, pod)
    requires Settles(states[j], actions[j], pod) && Settles(states[k], actions[k], pod)
    ensures pod in states[k + 1].pods <==> HasConnectedUser(states[i + 1].status, pod)
  {
    RunStep(cfg, states, actions, i);
    hide *;
    RegisteredIffIdle(cfg, states[i], actions[i], states[i + 1], pod);
    ListedAreInCluster(cfg, states[i + 1].pods, pod);
    if pod in states[i + 1].registrations {
      RegisteredIs(states[i + 1].registrations, states[i + 1].pods, pod);
      AbandonedIsReaped(cfg, states, actions, i + 1, j, k, pod);
    } else {
      UnregisteredStays(cfg, states, actions, i + 1, k, pod);
      RunStep(cfg, states, actions, k);
      RunKeepsInv(cfg, states, actions, k);
      SettlesMeans(states[k], actions[k], pod);
      CollectionOfOne(cfg, states[k], actions[k], states[k + 1], pod);
    }
  }

  lemma RegisteredIs(registrations: Registrations, pods: Pods, pod: string)
    requires pod in registrations
    ensures RegisteredOrGone(registrations, pods, pod)
  {}

  lemma ListedAreInCluster(cfg: Config, pods: Pods, pod: string)
    requires pod in ListedPods(cfg, pods)
    ensures pod in pods
  {}
}
