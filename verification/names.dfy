/** Composed names and paths: how pod names carry their template, and how services, ingress rules and status paths carry
    their pod. */
module Names {
  import opened Strings

  // ---- pod names ----

  /** Exactly one `-`, as session names are made, and no `/`. */
  predicate ValidSession(session: string) {
    |Split(session, '-')| == 2 && '/' !in session
  }

  /** A template name or a minted suffix: no `-` and no `/`. */
  predicate Plain(s: string) {
    '-' !in s && '/' !in s
  }

  function ClientPodName(session: string, template: string, suffix: string): string {
    session + "-" + template + "-" + suffix
  }

  function SessionPodName(session: string, template: string): string {
    session + "-" + template
  }

  /** The third `-` piece. The empty string stands where indexing the pieces would panic; `WellNamed` excludes it. */
  function TemplateOf(pod: string): string {
    var parts := Split(pod, '-');
    if |parts| > 2 then parts[2] else ""
  }

  /** Names of client pods of `session`. */
  predicate WellNamed(session: string, pod: string) {
    var parts := Split(pod, '-');
    |parts| == 4 && parts[0] + "-" + parts[1] == session && '/' !in pod
  }

  /** What pods of one template are ordered by: the name from its last `-` on. */
  function PodId(pod: string): string
    requires '-' in pod
  {
    pod[LastIndex(pod, '-')..]
  }

  lemma SplitSession(session: string, tail: string)
    requires ValidSession(session)
    ensures var parts := Split(session, '-');
            && parts[0] + "-" + parts[1] == session
            && Split(session + "-" + tail, '-') == parts + Split(tail, '-')
  {
    var parts := Split(session, '-');
    JoinSplit(session, '-');
    assert parts == [parts[0], parts[1]];
    assert Join(parts[1..], '-') == parts[1];
    PiecesHaveNoSeparator(session, '-', 0);
    PiecesHaveNoSeparator(session, '-', 1);
    SplitHead(parts[0], '-', parts[1] + "-" + tail);
    SplitHead(parts[1], '-', tail);
    assert session + "-" + tail == parts[0] + "-" + (parts[1] + "-" + tail);
  }

  lemma LastDash(head: string, tail: string)
    requires '-' !in tail
    ensures LastIndex(head + "-" + tail, '-') == |head|
  {
    var s := head + "-" + tail;
    assert s[|head| + 1..] == tail;
    LastIndexIs(s, '-', |head|);
  }

  lemma SplitClientPodName(session: string, template: string, suffix: string)
    requires ValidSession(session) && Plain(template) && Plain(suffix)
    ensures Split(ClientPodName(session, template, suffix), '-') == Split(session, '-') + [template, suffix]
  {
    SplitSession(session, template + "-" + suffix);
    SplitHead(template, '-', suffix);
    SplitWhole(suffix, '-');
    assert ClientPodName(session, template, suffix) == session + "-" + (template + "-" + suffix);
    assert [template] + [suffix] == [template, suffix];
  }

  lemma IdOfClientPodName(session: string, template: string, suffix: string)
    requires Plain(suffix)
    ensures var pod := ClientPodName(session, template, suffix); '-' in pod && PodId(pod) == "-" + suffix
  {
    var pod := ClientPodName(session, template, suffix);
    var head := session + "-" + template;
    assert pod == head + "-" + suffix;
    LastDash(head, suffix);
    assert pod[|head|] == '-' && pod[|head|..] == "-" + suffix;
  }

  /** A composed client pod name gives back its template and its suffix. */
  lemma ClientPodNameParses(session: string, template: string, suffix: string)
    requires ValidSession(session) && Plain(template) && Plain(suffix)
    ensures var pod := ClientPodName(session, template, suffix);
            && WellNamed(session, pod) && TemplateOf(pod) == template
            && Split(pod, '-')[3] == suffix
            && '-' in pod && PodId(pod) == "-" + suffix
  {
    SplitClientPodName(session, template, suffix);
    SplitSession(session, "");
    IdOfClientPodName(session, template, suffix);
  }

  lemma JoinFour(p: seq<string>, sep: char)
    requires |p| == 4
    ensures Join(p, sep) == p[0] + [sep] + (p[1] + [sep] + (p[2] + [sep] + p[3]))
  {
    var q := p[1..];
    var r := q[1..];
    var t := r[1..];
    assert Join(t, sep) == p[3];
    assert Join(r, sep) == p[2] + [sep] + p[3];
    assert Join(q, sep) == p[1] + [sep] + (p[2] + [sep] + p[3]);
  }

  /** Every client pod name is a composed one. */
  lemma WellNamedComposes(session: string, pod: string)
    requires WellNamed(session, pod)
    ensures var suffix := Split(pod, '-')[3];
            pod == ClientPodName(session, TemplateOf(pod), suffix) && Plain(suffix) && Plain(TemplateOf(pod))
  {
    var p := Split(pod, '-');
    JoinSplit(pod, '-');
    JoinFour(p, '-');
    assert pod == (p[0] + "-" + p[1]) + "-" + p[2] + "-" + p[3];
    PiecesHaveNoSeparator(pod, '-', 2);
    PiecesHaveNoSeparator(pod, '-', 3);
    PieceWithin(pod, '-', 2, '/');
    PieceWithin(pod, '-', 3, '/');
  }

  /** Two distinct pods of one template differ in what the pod order compares. */
  lemma SameTemplateDifferentId(session: string, a: string, b: string)
    requires ValidSession(session) && WellNamed(session, a) && WellNamed(session, b)
    requires TemplateOf(a) == TemplateOf(b) && a != b
    ensures '-' in a && '-' in b && PodId(a) != PodId(b)
  {
    var s, t := Split(a, '-')[3], Split(b, '-')[3];
    WellNamedComposes(session, a);
    WellNamedComposes(session, b);
    ClientPodNameParses(session, TemplateOf(a), s);
    ClientPodNameParses(session, TemplateOf(b), t);
    assert ("-" + s)[1..] == s && ("-" + t)[1..] == t;
  }

  /** A session pod is never named like a client pod, and its name gives back its template. */
  lemma SessionPodNameParses(session: string, template: string)
    requires ValidSession(session) && Plain(template)
    ensures var parts := Split(SessionPodName(session, template), '-');
            |parts| == 3 && parts[2] == template && !WellNamed(session, SessionPodName(session, template))
  {
    SplitSession(session, template);
    SplitWhole(template, '-');
  }

  // ---- service names ----

  function ServiceName(pod: string): string {
    pod + "-svc"
  }

  /** All but the last four characters, whatever they are. */
  function PodOfService(service: string): string
    requires |service| >= 4
  {
    service[..|service| - 4]
  }

  lemma ServiceNameParses(pod: string)
    ensures PodOfService(ServiceName(pod)) == pod
  {}

  // ---- ingress paths ----

  const SESSION_MANAGER_PATH := "/session-manager(/|$)(.*)"
  const PATH_SUFFIX := "(/|$)(.*)"

  /** The path a pod advertises for one of its ports, before any host is known. */
  function PortPath(pod: string, port: string): string {
    "/" + pod + "/" + port
  }

  function RulePath(pod: string, port: string): string {
    PortPath(pod, port) + PATH_SUFFIX
  }

  /** The second `/` piece. */
  function PodOfPath(path: string): string
    requires '/' in path
  {
    HasSecondPiece(path);
    Split(path, '/')[1]
  }

  lemma HasSecondPiece(path: string)
    requires '/' in path
    ensures |Split(path, '/')| >= 2
  {
    var i := Index(path, '/');
    assert path == path[..i] + "/" + path[i + 1..];
    SplitHead(path[..i], '/', path[i + 1..]);
  }

  lemma RulePathParses(pod: string, port: string)
    requires '/' !in pod
    ensures '/' in RulePath(pod, port) && PodOfPath(RulePath(pod, port)) == pod
  {
    var path := RulePath(pod, port);
    assert path == "" + "/" + (pod + "/" + (port + PATH_SUFFIX));
    SplitHead("", '/', pod + "/" + (port + PATH_SUFFIX));
    SplitHead(pod, '/', port + PATH_SUFFIX);
    assert path[0] == '/';
  }

  /** The session manager's own rule is never taken for a pod's. */
  lemma RulePathIsNotSessionManager(pod: string, port: string)
    ensures RulePath(pod, port) != SESSION_MANAGER_PATH
  {
    var front := "/session-manager";
    assert SESSION_MANAGER_PATH == front + PATH_SUFFIX;
    assert '/' !in front[1..];
    var own := PortPath(pod, port);
    assert own[|pod| + 1] == '/' && own[|pod| + 1] in own[1..];
    assert own != front;
    assert RulePath(pod, port)[..|RulePath(pod, port)| - |PATH_SUFFIX|] == own;
    assert SESSION_MANAGER_PATH[..|SESSION_MANAGER_PATH| - |PATH_SUFFIX|] == front;
  }

  // ---- advertised paths ----

  const HTTPS := "https://"

  /** What rewriting demands of a path: a leading `/`, or a `/` after the first eight characters. */
  predicate Rewritable(path: string) {
    path != "" && (path[0] == '/' || (|path| >= |HTTPS| && '/' in path[|HTTPS|..]))
  }

  /** The path without scheme and host. */
  function HostStripped(path: string): string
    requires Rewritable(path)
  {
    if path[0] == '/' then path
    else
      var rest := path[|HTTPS|..];
      rest[Index(rest, '/')..]
  }

  function WithHost(ip: string, path: string): string
    requires Rewritable(path)
  {
    HTTPS + ip + HostStripped(path)
  }

  lemma StrippedStartsWithSlash(path: string)
    requires Rewritable(path)
    ensures HostStripped(path) != "" && HostStripped(path)[0] == '/'
  {}

  /** The original path is recovered from a rewritten one exactly when the address has no `/`. */
  lemma HostRecoverable(ip: string, path: string)
    requires Rewritable(path)
    ensures Rewritable(WithHost(ip, path))
    ensures HostStripped(WithHost(ip, path)) == HostStripped(path) <==> '/' !in ip
  {
    StrippedStartsWithSlash(path);
    var base := HostStripped(path);
    var full := WithHost(ip, path);
    var rest := full[|HTTPS|..];
    assert rest == ip + base;
    assert rest[|ip|] == '/' && rest[..|ip|] == ip && rest[|ip|..] == base;
    assert full[0] == 'h' && rest[|ip|] in rest;
    if '/' !in ip {
      IndexIs(rest, '/', |ip|);
    } else {
      var i := Index(ip, '/');
      assert rest[..i] == ip[..i];
      IndexIs(rest, '/', i);
      assert |HostStripped(full)| > |base|;
    }
  }

  /** A later address replaces an earlier one completely; with the same address nothing changes. */
  lemma RewriteOverwrites(ip1: string, ip2: string, path: string)
    requires Rewritable(path) && '/' !in ip1
    ensures Rewritable(WithHost(ip1, path))
    ensures WithHost(ip2, WithHost(ip1, path)) == WithHost(ip2, path)
  {
    HostRecoverable(ip1, path);
  }
}
