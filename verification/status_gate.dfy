/** The status is written and its hash annotated in two steps, and the hash decides whether the next pass writes at all:
    when a successful pass has stored the status it computed. */
module StatusGate {
  import opened Model
  import opened ReadinessReport
  import opened ClientPods
  import opened SessionPods
  import opened GarbageCollector
  import opened Network
  import opened System
  import opened Steps
  import opened SystemInvariant

  /** The annotated hash, if there is one, is that of the stored clients. */
  ghost predicate AnnotationCurrent(s: State) {
    s.annotation.Some? ==> s.annotation.value.clients == s.status
  }

  /** A pass that went through stores what it computed unless the annotation already has that hash and the store holds
      another status. */
  lemma FinishedPassStores(cfg: Config, s: State, a: Action, s': State)
    requires ValidConfig(cfg) && Next(cfg, s, a, s') && a.ReconcileClients? && Completed(cfg, ViewOf(s), a.effects)
    ensures StatusRewritable(a.effects.alloc)
    ensures Stored(cfg, s, a, s') <==>
            s.annotation != Some(ComputedBy(cfg, s, a)) || s.status == ComputedBy(cfg, s, a).clients
  {
    hide *;
    ClientPassMeans(cfg, s, a, s');
    CompletedMeans(cfg, s, a.effects);
    StoredIs(cfg, s, a, s');
  }

  lemma CurrentAnnotationStores(cfg: Config, s: State, a: Action, s': State)
    requires ValidConfig(cfg) && Next(cfg, s, a, s') && a.ReconcileClients? && Completed(cfg, ViewOf(s), a.effects)
    requires AnnotationCurrent(s)
    ensures Stored(cfg, s, a, s')
  {
    FinishedPassStores(cfg, s, a, s');
    hide Next, Stored, StatusRewritable, ComputedBy, Completed;
  }

  /** The only way to an outdated annotation is a status that was written and whose hash was not annotated after it. */
  lemma StepKeepsCurrent(cfg: Config, s: State, a: Action, s': State)
    requires ValidConfig(cfg) && Next(cfg, s, a, s') && AnnotationCurrent(s)
    ensures AnnotationCurrent(s') <==>
            (a.ReconcileClients? && a.effects.wrote && !a.effects.annotated && s.annotation.Some? ==>
               s'.status == s.status)
  {
    if a.ReconcileClients? {
      ClientPassMeans(cfg, s, a, s');
      hide Next, StatusRewritable, ComputedBy;
    } else {
      hide SessionPodPass, GcPass, NetworkPass;
    }
  }

  lemma {:induction false} RunKeepsCurrent(cfg: Config, states: seq<State>, actions: seq<Action>, i: nat)
    requires ValidConfig(cfg) && Run(cfg, states, actions) && i < |states|
    requires forall k :: 0 <= k < i && k < |actions| && actions[k].ReconcileClients? && actions[k].effects.wrote ==>
                           actions[k].effects.annotated
    ensures AnnotationCurrent(states[i])
  {
    hide Next;
    if i > 0 {
      RunKeepsCurrent(cfg, states, actions, i - 1);
      StepKeepsCurrent(cfg, states[i - 1], actions[i - 1], states[i]);
    }
  }
}
