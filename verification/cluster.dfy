/** The API server as the controllers see it. Every write may fail, and a failed write has no effect. */
module Cluster {
  import opened Model

  class ApiServer {
    var registrations: Registrations
    var pods: Pods
    var status: Statuses
    var annotation: Option<Digest>
    var gcNamespace: bool

    /** A namespace that is there counts as created. */
    method CreateNamespace() returns (ok: bool)
      modifies this`gcNamespace
      ensures gcNamespace == (old(gcNamespace) || ok)
    {
      ok := *;
      gcNamespace := gcNamespace || ok;
    }

    /** A name that is already registered keeps its registration. */
    method CreateRegistration(name: string, session: string, now: int) returns (ok: bool)
      requires gcNamespace
      modifies this`registrations
      ensures registrations == if ok && name !in old(registrations)
                               then old(registrations)[name := Registration(session, now, Timeout)]
                               else old(registrations)
    {
      ok := *;
      if ok && name !in registrations {
        registrations := registrations[name := Registration(session, now, Timeout)];
      }
    }

    method DeleteRegistration(name: string) returns (ok: bool)
      modifies this`registrations
      ensures registrations == if ok then old(registrations) - {name} else old(registrations)
    {
      ok := *;
      if ok {
        registrations := registrations - {name};
      }
    }

    /** A registration deleted meanwhile stays deleted. */
    method SetRegistrationType(name: string, kind: RegistrationType) returns (ok: bool)
      modifies this`registrations
      ensures registrations == if ok && name in old(registrations)
                               then old(registrations)[name := old(registrations)[name].(kind := kind)]
                               else old(registrations)
    {
      ok := *;
      if ok && name in registrations {
        registrations := registrations[name := registrations[name].(kind := kind)];
      }
    }

    /** A name that is already taken keeps its pod. */
    method CreatePod(name: string, pod: ClusterPod) returns (ok: bool)
      modifies this`pods
      ensures pods == if ok && name !in old(pods) then old(pods)[name := pod] else old(pods)
    {
      ok := *;
      if ok && name !in pods {
        pods := pods[name := pod];
      }
    }

    method DeletePod(name: string) returns (ok: bool)
      modifies this`pods
      ensures pods == if ok then old(pods) - {name} else old(pods)
    {
      ok := *;
      if ok {
        pods := pods - {name};
      }
    }

    method UpdateStatus(newStatus: Statuses) returns (ok: bool)
      modifies this`status
      ensures status == if ok then newStatus else old(status)
    {
      ok := *;
      if ok {
        status := newStatus;
      }
    }

    method Annotate(digest: Digest) returns (ok: bool)
      modifies this`annotation
      ensures annotation == if ok then Some(digest) else old(annotation)
    {
      ok := *;
      if ok {
        annotation := Some(digest);
      }
    }
  }
}
