/** A whole reconcile of a session: its own pods first, then those of its clients, with one list of registrations for
    both. */
module SessionController {
  import opened Names
  import opened Model
  import opened SessionStatus
  import opened Placement
  import opened Allocator
  import opened ReadinessReport
  import opened Cluster
  import opened Conditions
  import opened ClientPods
  import opened SessionPods

  /** The first half leaves what the second relies on: session pods are no client pods, whatever happened to them. */
  lemma FirstHalfKeepsFit(cfg: Config, used: set<string>, clients: map<string, bool>, now: int, pods: Pods,
                          before: Registrations, idle: set<string>, busy: set<string>, created: set<string>,
                          pods': Pods, after: Registrations)
    requires ValidConfig(cfg) && PodsFit(cfg, used, pods) && FoundPods(cfg, pods).Keys <= TemplatePodNames(cfg)
    requires SessionPodPass(cfg, clients, now, pods, before, idle, busy, created, pods', after)
    ensures PodsFit(cfg, used, pods')
    ensures forall n :: WellNamed(cfg.session, n) ==> (n in after <==> n in before)
  {
    forall p | p in TemplatePodNames(cfg) ensures !WellNamed(cfg.session, p) {
      var t :| t in cfg.sessionTemplates && p == SessionPodName(cfg.session, t.name);
      SessionPodNameParses(cfg.session, t.name);
    }
    hide WellNamed, TemplatePodNames, ListedFit;
    ListedStay(cfg, pods, created, pods');
  }

  lemma ListedStay(cfg: Config, pods: Pods, created: set<string>, pods': Pods)
    requires pods' == WithRestored(cfg, pods, created)
    ensures ListedPods(cfg, pods') == ListedPods(cfg, pods)
  {
    hide ContainersFor;
  }

  /** Panics exactly when there are session templates and the address is unknown, before anything changed and without
      getting to the client pods. Otherwise it is a pass over the session's pods, if it has any templates for them, and
      then, unless that failed, a pass over the client pods. `render` stands for the part of the hash that does not depend
      on the clients. */
  method Reconcile(api: ApiServer, cfg: Config, clients: map<string, bool>, now: int, later: int, ip: Option<string>,
                   render: (map<string, PodStatus>, seq<Condition>) -> string, mint: (string, string) -> string,
                   report: Report, ghost used: set<string>)
    returns (panicked: bool, ok: bool, ghost reached: bool, ghost middle: View, ghost idle: set<string>,
             ghost busy: set<string>, ghost created: set<string>, ghost effects: Effects, ghost others: string)
    requires ValidConfig(cfg) && StatusFit(cfg, used, api.status) && PodsFit(cfg, used, api.pods)
    requires FoundPods(cfg, api.pods).Keys <= TemplatePodNames(cfg)
    requires forall p :: p in TemplatePodNames(cfg) && p in api.pods ==> p in FoundPods(cfg, api.pods)
    requires forall n :: n in api.registrations ==> api.registrations[n].session == cfg.session
    requires FreshMint(cfg, mint, Pairings(Newcomers(later, cfg.timeoutSeconds, clients, api.status),
                                           Templates(cfg).Keys), used)
    modifies api, report
    ensures panicked <==> cfg.sessionTemplates != [] && ip.None?
    ensures panicked ==> !ok && !reached && unchanged(api) && unchanged(report)
    ensures !panicked ==>
              && middle.status == old(api.status) && middle.annotation == old(api.annotation)
              && (if cfg.sessionTemplates == [] then
                    middle.pods == old(api.pods) && middle.registrations == old(api.registrations)
                  else
                    SessionPodPass(cfg, clients, now, old(api.pods), old(api.registrations), idle, busy, created,
                                   middle.pods, middle.registrations))
    ensures var after := View(api.status, api.annotation, api.pods, api.registrations);
            && (!panicked && !reached ==> !ok && after == middle)
            && (!panicked && reached ==> others == render(report.podsStatus, report.conditions))
            && (!panicked && reached && cfg.clientTemplates != [] ==>
                  Pass(cfg, used, Inputs(clients, later, ip, others), middle, effects, after))
            && (!panicked && reached && cfg.clientTemplates == [] ==>
                  && after.(annotation := middle.annotation) == middle
                  && (ok ==> after.annotation == Some(Digest(after.status, others)))
                  && (!ok ==> after.annotation == middle.annotation))
  {
    hide *;
    panicked, ok, reached, idle, busy, created, others := false, false, false, {}, {}, {}, "";
    effects := Effects(map[], {}, {}, false, false, false, {});
    var registered := set n | n in api.registrations && api.registrations[n].session == cfg.session;
    middle := View(api.status, api.annotation, api.pods, api.registrations);
    if cfg.sessionTemplates != [] {
      ghost var clean;
      panicked, ok, clean, idle, busy, created :=
        ReconcileSessionPods(api, cfg, clients, now, ip, registered, report);
      if panicked {
        return;
      }
      FirstHalfKeepsFit(cfg, used, clients, now, middle.pods, middle.registrations, idle, busy, created, api.pods,
                        api.registrations);
      middle := View(api.status, api.annotation, api.pods, api.registrations);
      if !ok {
        var _ := api.UpdateStatus(api.status);
        return;
      }
    }
    reached := true;
    others := render(report.podsStatus, report.conditions);
    if cfg.clientTemplates != [] {
      ghost var clean;
      ok, effects, clean := ClientPods.Reconcile(api, cfg, clients, registered, later, ip,
                                                 render(report.podsStatus, report.conditions), mint, used);
    } else {
      ghost var skipped, wrote, annotated;
      ok, skipped, wrote, annotated := WriteStatus(api, api.status, render(report.podsStatus, report.conditions));
    }
  }
}
