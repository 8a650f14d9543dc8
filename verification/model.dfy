/** The objects the controllers read and write, and the vocabulary their specifications share. */
module Model {
  import opened Names

  /** Unix seconds of the instant that stands for "connected" in a client's status. */
  const DEFAULT_TIME := -62135593139

  datatype Option<+T> = None | Some(value: T)

  datatype Port = Port(name: string, number: int, protocol: string)
  datatype Container = Container(ports: seq<Port>)
  datatype ClientTemplate = ClientTemplate(name: string, maxClients: int, containers: seq<Container>)
  datatype SessionTemplate = SessionTemplate(name: string, containers: seq<Container>)

  /** The part of a session that never changes during a run. */
  datatype Config = Config(
    session: string,
    clientTemplates: seq<ClientTemplate>,
    sessionTemplates: seq<SessionTemplate>,
    timeoutSeconds: int,
    reutilizeTimeoutSeconds: int)

  datatype PodStatus = PodStatus(ready: bool, paths: seq<string>)
  datatype ClientStatus = ClientStatus(lastSeen: int, ready: bool, pods: map<string, PodStatus>)

  datatype PodKind = ClientPod | SessionPod

  /** The status of a pod's Ready condition; `Missing` when it has none. */
  datatype Readiness = Missing | ReadyTrue | ReadyFalse | ReadyUnknown
  datatype ClusterPod = ClusterPod(owner: string, kind: PodKind, containers: seq<Container>, readiness: Readiness)

  datatype RegistrationType = Timeout | ReutilizeTimeout | OtherType
  datatype Registration = Registration(session: string, created: int, kind: RegistrationType)

  type Statuses = map<string, ClientStatus>

  /** What the status hash is taken of: the clients, and `others` for the rest of the status. Statuses with one hash are
      taken to be equal. */
  datatype Digest = Digest(clients: Statuses, others: string)
  type Pods = map<string, ClusterPod>
  type Registrations = map<string, Registration>

  // ---- configuration ----

  /** Templates by name; of two with one name the later counts. */
  function TemplateMap(items: seq<ClientTemplate>): (m: map<string, ClientTemplate>)
    ensures forall t :: t in m ==> m[t].name == t && m[t] in items
  {
    if items == [] then map[]
    else
      var last := items[|items| - 1];
      TemplateMap(items[..|items| - 1])[last.name := last]
  }

  function Templates(cfg: Config): map<string, ClientTemplate> {
    TemplateMap(cfg.clientTemplates)
  }

  /** What the controllers rely on: composable names, room for a client in every pod, and a positive grace period. */
  predicate ValidConfig(cfg: Config) {
    && ValidSession(cfg.session)
    && (forall t :: t in Templates(cfg) ==> Plain(t) && Templates(cfg)[t].maxClients >= 1)
    && (forall t :: t in cfg.sessionTemplates ==> Plain(t.name))
    && cfg.timeoutSeconds >= 1
    && cfg.reutilizeTimeoutSeconds >= 0
  }

  // ---- ports and paths ----

  /** The ports of all containers, in order. */
  function AllPorts(containers: seq<Container>): seq<Port> {
    if containers == [] then []
    else AllPorts(containers[..|containers| - 1]) + containers[|containers| - 1].ports
  }

  function Paths(pod: string, ports: seq<Port>): seq<string> {
    seq(|ports|, i requires 0 <= i < |ports| => PortPath(pod, ports[i].name))
  }

  function FreshPodStatus(pod: string, containers: seq<Container>): PodStatus {
    PodStatus(false, Paths(pod, AllPorts(containers)))
  }

  // ---- who is on which pod, according to a status ----

  /** Every (client, pod) pair a status records. */
  ghost function Edges(status: Statuses): set<(string, string)> {
    set c, p | c in status && p in status[c].pods :: (c, p)
  }

  ghost function PodNames(edges: set<(string, string)>): set<string> {
    set e | e in edges :: e.1
  }

  /** Names of the pods the clients of a status hold. */
  ghost function Allocated(status: Statuses): set<string> {
    set c, p | c in status && p in status[c].pods :: p
  }

  /** The clients recorded on a pod, connected or not. */
  ghost function Users(status: Statuses, pod: string): set<string> {
    set c | c in status && pod in status[c].pods
  }

  /** The allocated pods of one template. */
  ghost function PodsOf(status: Statuses, template: string): set<string> {
    set p | p in Allocated(status) && TemplateOf(p) == template
  }

  predicate Connected(client: ClientStatus) {
    client.lastSeen == DEFAULT_TIME
  }

  ghost predicate HasConnectedUser(status: Statuses, pod: string) {
    exists c :: c in status && pod in status[c].pods && Connected(status[c])
  }

  /** One pod name for each template and no others; each name parses back to its template. */
  ghost predicate OnePerTemplate(cfg: Config, pods: map<string, PodStatus>) {
    && (forall p :: p in pods ==> WellNamed(cfg.session, p) && TemplateOf(p) in Templates(cfg))
    && (forall p, q :: p in pods && q in pods && TemplateOf(p) == TemplateOf(q) ==> p == q)
    && (forall t :: t in Templates(cfg) ==> exists p :: p in pods && TemplateOf(p) == t)
  }

  ghost predicate WithinCapacity(cfg: Config, status: Statuses) {
    forall p :: p in Allocated(status) && TemplateOf(p) in Templates(cfg) ==>
                  |Users(status, p)| <= Templates(cfg)[TemplateOf(p)].maxClients
  }

  /** The pods of one session and kind, as a field selector lists them. */
  function Listing(pods: Pods, owner: string, kind: PodKind): Pods {
    map p | p in pods && pods[p].owner == owner && pods[p].kind == kind :: pods[p]
  }

  /** Least number of groups of at most `size` that hold `n`. */
  function CeilDiv(n: nat, size: int): nat
    requires size >= 1
  {
    if n == 0 then 0 else if n <= size then 1 else 1 + CeilDiv(n - size, size)
  }

  function Max(a: int, b: int): int {
    if a > b then a else b
  }
}
