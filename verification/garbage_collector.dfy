/** The garbage collector: what becomes of every registration and its pod in one pass. */
module GarbageCollector {
  import opened Model
  import opened Cluster

  datatype Times = Times(timeoutSeconds: int, reutilizeTimeoutSeconds: int)

  datatype Verdict = Keep | Drop | Promote | Reap

  predicate RegistrationHasExpired(registration: Registration, times: Times, now: int) {
    if registration.kind == Timeout then registration.created + times.timeoutSeconds < now
    else registration.created + (times.reutilizeTimeoutSeconds + times.timeoutSeconds) < now
  }

  /** What a pass does with a registration: keep it, drop it because its session or pod is gone, move it to the second
      stage, or delete it together with its pod. */
  function Judge(sessions: map<string, Times>, pods: set<string>, now: int, name: string, registration: Registration)
    : Verdict
  {
    if registration.session !in sessions || name !in pods then Drop
    else
      var times := sessions[registration.session];
      if !RegistrationHasExpired(registration, times, now) then Keep
      else if registration.kind == ReutilizeTimeout ||
              (registration.kind == Timeout && times.reutilizeTimeoutSeconds == 0) then Reap
      else Promote
  }

  /** The registrations once those of `settled` are dealt with. */
  function Settled(sessions: map<string, Times>, pods: set<string>, now: int, before: Registrations,
                   settled: set<string>): Registrations
  {
    map n | n in before &&
            !(n in settled && Judge(sessions, pods, now, n, before[n]) in {Drop, Reap}) ::
      if n in settled && Judge(sessions, pods, now, n, before[n]) == Promote
      then before[n].(kind := ReutilizeTimeout) else before[n]
  }

  function Reapable(sessions: map<string, Times>, pods: set<string>, now: int, before: Registrations): set<string> {
    set n | n in before && Judge(sessions, pods, now, n, before[n]) == Reap
  }

  /** A pass that settled these registrations and deleted these pods. Pods go first, so a pass that stops may have
      deleted a pod whose registration stays. */
  ghost predicate GcPass(sessions: map<string, Times>, now: int, before: Registrations, pods: Pods,
                         settled: set<string>, reaped: set<string>, after: Registrations, pods': Pods)
  {
    && settled <= before.Keys
    && settled * Reapable(sessions, pods.Keys, now, before) <= reaped <= Reapable(sessions, pods.Keys, now, before)
    && after == Settled(sessions, pods.Keys, now, before, settled)
    && pods' == pods - reaped
  }

  method HandleExpiredRegistration(api: ApiServer, name: string, registration: Registration, times: Times)
    returns (ok: bool, ghost podGone: bool)
    modifies api`registrations, api`pods
    ensures var reap := registration.kind == ReutilizeTimeout ||
                        (registration.kind == Timeout && times.reutilizeTimeoutSeconds == 0);
            && (podGone ==> reap) && (ok && reap ==> podGone)
            && api.pods == (if podGone then old(api.pods) - {name} else old(api.pods))
            && api.registrations == if !ok then old(api.registrations)
                                    else if reap || name !in old(api.registrations) then
                                      old(api.registrations) - {name}
                                    else old(api.registrations)[
                                           name := old(api.registrations)[name].(kind := ReutilizeTimeout)]
  {
    podGone := false;
    if registration.kind == ReutilizeTimeout ||
       (registration.kind == Timeout && times.reutilizeTimeoutSeconds == 0) {
      ok := api.DeletePod(name);
      if !ok {
        return;
      }
      podGone := true;
      ok := api.DeleteRegistration(name);
    } else {
      ok := api.SetRegistrationType(name, ReutilizeTimeout);
    }
  }

  /** Dealing with one more registration extends the pass; after the pod alone is deleted it is a stopped pass. */
  lemma OneMoreSettled(sessions: map<string, Times>, now: int, before: Registrations, pods: Pods,
                       settled: set<string>, reaped: set<string>, after: Registrations, pods': Pods, name: string)
    requires GcPass(sessions, now, before, pods, settled, reaped, after, pods')
    requires name in before && name !in settled && name !in reaped
    ensures name in after && after[name] == before[name] && (name in pods' <==> name in pods)
    ensures var settled' := settled + {name};
            match Judge(sessions, pods.Keys, now, name, before[name])
            case Keep => GcPass(sessions, now, before, pods, settled', reaped, after, pods')
            case Drop => GcPass(sessions, now, before, pods, settled', reaped, after - {name}, pods')
            case Promote =>
              GcPass(sessions, now, before, pods, settled', reaped,
                     after[name := after[name].(kind := ReutilizeTimeout)], pods')
            case Reap =>
              && GcPass(sessions, now, before, pods, settled, reaped + {name}, after, pods' - {name})
              && GcPass(sessions, now, before, pods, settled', reaped + {name}, after - {name}, pods' - {name})
  {
    hide Judge;
    OneMoreEntry(sessions, now, before, pods.Keys, settled, name);
    assert name in Reapable(sessions, pods.Keys, now, before) <==>
           Judge(sessions, pods.Keys, now, name, before[name]) == Reap;
    hide Settled;
  }

  lemma OneMoreEntry(sessions: map<string, Times>, now: int, before: Registrations, pods: set<string>,
                     settled: set<string>, name: string)
    requires name in before && name !in settled
    ensures var soFar, after := Settled(sessions, pods, now, before, settled),
                                Settled(sessions, pods, now, before, settled + {name});
            && name in soFar && soFar[name] == before[name]
            && after == match Judge(sessions, pods, now, name, before[name])
                        case Keep => soFar
                        case Promote => soFar[name := soFar[name].(kind := ReutilizeTimeout)]
                        case _ => soFar - {name}
  {
    hide Judge;
  }

  lemma NothingSettled(sessions: map<string, Times>, now: int, before: Registrations, pods: Pods)
    ensures GcPass(sessions, now, before, pods, {}, {}, before, pods)
  {
    hide Judge;
  }

  /** Goes through all registrations once, stopping at the first failed write. */
  method Reconcile(api: ApiServer, sessions: map<string, Times>, now: int)
    returns (ok: bool, ghost settled: set<string>, ghost reaped: set<string>)
    modifies api`registrations, api`pods
    ensures GcPass(sessions, now, old(api.registrations), old(api.pods), settled, reaped,
                   api.registrations, api.pods)
    ensures ok ==> settled == old(api.registrations).Keys
  {
    hide GcPass;
    var items := api.registrations;
    ghost var pods := api.pods;
    NothingSettled(sessions, now, items, pods);
    ok, settled, reaped := true, {}, {};
    var todo := items.Keys;
    while todo != {}
      invariant todo <= items.Keys && settled == items.Keys - todo && reaped * todo == {}
      invariant GcPass(sessions, now, items, pods, settled, reaped, api.registrations, api.pods)
    {
      var name :| name in todo;
      var registration := items[name];
      OneMoreSettled(sessions, now, items, pods, settled, reaped, api.registrations, api.pods, name);
      if registration.session !in sessions {
        ok := api.DeleteRegistration(name);
      } else if name !in api.pods {
        ok := api.DeleteRegistration(name);
      } else if RegistrationHasExpired(registration, sessions[registration.session], now) {
        ghost var podGone;
        ok, podGone := HandleExpiredRegistration(api, name, registration, sessions[registration.session]);
        reaped := if podGone then reaped + {name} else reaped;
      }
      if !ok {
        return;
      }
      todo, settled := todo - {name}, settled + {name};
    }
    ok := true;
  }

  // ---- what a pass guarantees ----

  /** Whichever branch deletes a pod, both its grace periods are over. */
  lemma ReapedIsPastDeadline(sessions: map<string, Times>, now: int, before: Registrations, pods: Pods,
                             settled: set<string>, reaped: set<string>, after: Registrations, pods': Pods,
                             name: string)
    requires GcPass(sessions, now, before, pods, settled, reaped, after, pods')
    requires name in pods && name !in pods'
    ensures name in before && before[name].session in sessions
    ensures var times := sessions[before[name].session];
            before[name].created + times.timeoutSeconds + times.reutilizeTimeoutSeconds < now
  {
    assert name in Reapable(sessions, pods.Keys, now, before);
  }

  /** After a pass without failures, every registration left has a live session and a live pod. */
  lemma FinishedPassLeavesLive(sessions: map<string, Times>, now: int, before: Registrations, pods: Pods,
                               reaped: set<string>, after: Registrations, pods': Pods, name: string)
    requires GcPass(sessions, now, before, pods, before.Keys, reaped, after, pods') && name in after
    ensures name in before && after[name].session in sessions && name in pods'
  {
    var verdict := Judge(sessions, pods.Keys, now, name, before[name]);
    assert verdict != Drop && verdict != Reap;
    assert name !in Reapable(sessions, pods.Keys, now, before);
  }

  /** What a pass, finished or stopped, does to one registration and its pod. */
  lemma PassOnOne(sessions: map<string, Times>, now: int, before: Registrations, pods: Pods, settled: set<string>,
                  reaped: set<string>, after: Registrations, pods': Pods, name: string)
    requires GcPass(sessions, now, before, pods, settled, reaped, after, pods')
    ensures name in pods' ==> name in pods
    ensures name !in before ==> name !in after && (name in pods' <==> name in pods)
    ensures name in after ==>
              && name in before && after[name].created == before[name].created
              && (before[name].kind == ReutilizeTimeout ==> after[name].kind == ReutilizeTimeout)
    ensures name in before && before[name].session in sessions && name !in after ==> name !in pods'
    ensures name in settled && before[name].session in sessions ==>
              var times := sessions[before[name].session];
              times.reutilizeTimeoutSeconds >= 0 &&
              before[name].created + times.timeoutSeconds + times.reutilizeTimeoutSeconds < now ==>
                && (name in after ==> after[name].kind == ReutilizeTimeout)
                && (before[name].kind == ReutilizeTimeout ==> name !in after && name !in pods')
  {
    assert name in Reapable(sessions, pods.Keys, now, before) <==>
           name in before && Judge(sessions, pods.Keys, now, name, before[name]) == Reap;
  }

  /** What becomes of a registration with a live session and pod, by its age and type alone. In its first stage it stays as
      it is for the timeout; then it moves to the second stage, or is deleted with its pod if that has no length. From then
      on, and for any other type from the start, it stays until both periods are over. */
  lemma StagesOfOne(sessions: map<string, Times>, now: int, before: Registrations, pods: Pods, settled: set<string>,
                    reaped: set<string>, after: Registrations, pods': Pods, name: string)
    requires GcPass(sessions, now, before, pods, settled, reaped, after, pods') && name in settled
    requires before[name].session in sessions && name in pods
    ensures var was, times := before[name], sessions[before[name].session];
            var first, second := times.timeoutSeconds, times.reutilizeTimeoutSeconds;
            var stays := name in pods' && name in after && after[name] == was;
            var moves := name in pods' && name in after && after[name] == was.(kind := ReutilizeTimeout);
            var goes := name !in pods' && name !in after;
            match was.kind
            case Timeout =>
              if now <= was.created + first then stays else if second == 0 then goes else moves
            case ReutilizeTimeout =>
              if now <= was.created + first + second then stays else goes
            case OtherType =>
              if now <= was.created + first + second then stays else moves
  {
    assert name in Reapable(sessions, pods.Keys, now, before) <==>
           Judge(sessions, pods.Keys, now, name, before[name]) == Reap;
  }

  /** Two passes past the deadline that each deal with a registration leave neither it nor its pod, whatever else changes
      between them, as long as nobody opens, closes or changes that registration or respawns its pod. */
  lemma TwoPassesReap(sessions: map<string, Times>, now1: int, before: Registrations, pods: Pods,
                      settled1: set<string>, reaped1: set<string>, middle: Registrations, pods1: Pods,
                      now2: int, before2: Registrations, pods2: Pods,
                      settled2: set<string>, reaped2: set<string>, after: Registrations, pods3: Pods, name: string)
    requires GcPass(sessions, now1, before, pods, settled1, reaped1, middle, pods1)
    requires GcPass(sessions, now2, before2, pods2, settled2, reaped2, after, pods3)
    requires name in settled1 && (name in before2 ==> name in settled2) && now1 <= now2
    requires name in before2 <==> name in middle
    requires name in before2 ==> before2[name] == middle[name]
    requires name in pods2 ==> name in pods1
    requires name in before && before[name].session in sessions
    requires var times := sessions[before[name].session];
             && times.reutilizeTimeoutSeconds >= 0
             && before[name].created + times.timeoutSeconds + times.reutilizeTimeoutSeconds < now1
    ensures name !in after && name !in pods3
  {
    var verdict := Judge(sessions, pods.Keys, now1, name, before[name]);
    assert verdict != Keep;
    assert verdict == Reap <==> name in Reapable(sessions, pods.Keys, now1, before);
    if verdict == Promote {
      assert middle[name] == before[name].(kind := ReutilizeTimeout);
      assert Judge(sessions, pods2.Keys, now2, name, before2[name]) in {Drop, Reap};
      assert name in pods2 ==> name in Reapable(sessions, pods2.Keys, now2, before2);
    }
  }
}
