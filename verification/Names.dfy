/** Names given to HAProxy objects, and when they clash. */
module Names {
  import opened Text

  /** sanitizeName: slashes, spaces and colons become dashes. */
  function SanitizeName(name: string): string {
    ReplaceAll(ReplaceAll(ReplaceAll(name, "/", "-"), " ", "-"), ":", "-")
  }

  function SanitizeChar(c: char): char {
    if c == '/' || c == ' ' || c == ':' then '-' else c
  }

  function Pointwise(s: string): (r: string)
    ensures |r| == |s|
  {
    seq(|s|, i requires 0 <= i < |s| => SanitizeChar(s[i]))
  }

  lemma SanitizeIsPointwise(name: string)
    ensures SanitizeName(name) == Pointwise(name)
    ensures var s := SanitizeName(name);
      |s| == |name| && forall i :: 0 <= i < |s| ==> s[i] == if name[i] in {'/', ' ', ':'} then '-' else name[i]
  {
    var a := ReplaceAll(name, "/", "-");
    var b := ReplaceAll(a, " ", "-");
    ReplaceCharIsPointwise(name, '/', '-');
    ReplaceCharIsPointwise(a, ' ', '-');
    ReplaceCharIsPointwise(b, ':', '-');
  }

  predicate Clean(s: string) {
    '/' !in s && ' ' !in s && ':' !in s
  }

  lemma PointwiseParts(a: string, b: string)
    ensures Pointwise(a + b) == Pointwise(a) + Pointwise(b)
    ensures Clean(a) ==> Pointwise(a) == a
  {
    assert Clean(a) ==> forall i :: 0 <= i < |a| ==> a[i] in a;
  }

  /** The key of a namespaced object: "namespace/name". */
  function KeyOf(namespace: string, name: string): string {
    namespace + "/" + name
  }

  /** The name in such a key: what follows the first slash. */
  function NameIn(key: string): string {
    if key == "" then "" else if key[0] == '/' then key[1..] else NameIn(key[1..])
  }

  lemma {:induction false} NameInKey(namespace: string, name: string)
    requires '/' !in namespace
    ensures NameIn(KeyOf(namespace, name)) == name
  {
    var key := KeyOf(namespace, name);
    if namespace == "" {
      assert key == "/" + name;
    } else {
      assert key[1..] == KeyOf(namespace[1..], name);
      NameInKey(namespace[1..], name);
    }
  }

  /** The listener of one service port of the object with this key. */
  function ListenerName(key: string, servicePort: int): string {
    key + "-port-" + Itoa(servicePort)
  }

  /** The server of one pod. */
  function ServerName(namespace: string, pod: string): string {
    namespace + "-" + pod
  }

  lemma SameTail(s: string, m: nat, n: nat)
    requires m < |s| && n < |s| && s[|s| - m - 1] == '-' && s[|s| - n - 1] == '-'
    requires forall i :: |s| - m <= i < |s| ==> IsDigit(s[i])
    requires forall i :: |s| - n <= i < |s| ==> IsDigit(s[i])
    ensures m == n
  {
  }

  lemma SameSuffix(x: string, d: string, y: string, e: string)
    requires x + "-port-" + d == y + "-port-" + e
    requires (forall i :: 0 <= i < |d| ==> IsDigit(d[i])) && (forall i :: 0 <= i < |e| ==> IsDigit(e[i]))
    ensures x == y && d == e
  {
    var s := x + "-port-" + d;
    var t := y + "-port-" + e;
    assert s[|s| - |d| - 1] == '-' && t[|t| - |e| - 1] == '-';
    assert forall i :: |s| - |d| <= i < |s| ==> s[i] == d[i - (|s| - |d|)];
    assert forall i :: |t| - |e| <= i < |t| ==> t[i] == e[i - (|t| - |e|)];
    SameTail(s, |d|, |e|);
    assert d == s[|s| - |d|..] && e == t[|t| - |e|..];
    assert x == s[..|x|] && y == t[..|y|];
  }

  lemma SanitizedListenerName(ns: string, name: string, port: int)
    requires Clean(ns) && Clean(name)
    ensures SanitizeName(ListenerName(KeyOf(ns, name), port)) == ns + "-" + name + "-port-" + Itoa(port)
  {
    var d := Itoa(port);
    SanitizeIsPointwise(ListenerName(KeyOf(ns, name), port));
    PointwiseParts(ns + "/" + name + "-port-", d);
    PointwiseParts(ns + "/" + name, "-port-");
    PointwiseParts(ns + "/", name);
    PointwiseParts(ns, "/");
    assert Clean(d);
    assert Pointwise("/") == "-";
    assert Pointwise("-port-") == "-port-";
    PointwiseParts(d, "");
    PointwiseParts(name, "");
  }

  /** Two listeners share their HAProxy name exactly when the dash-joined namespace and name agree and so does
      the port number. */
  lemma ListenerNamesClash(ns: string, name: string, port: int, ns': string, name': string, port': int)
    requires Clean(ns) && Clean(name) && Clean(ns') && Clean(name') && 0 <= port && 0 <= port'
    ensures SanitizeName(ListenerName(KeyOf(ns, name), port)) == SanitizeName(ListenerName(KeyOf(ns', name'), port'))
      <==> ns + "-" + name == ns' + "-" + name' && port == port'
  {
    SanitizedListenerName(ns, name, port);
    SanitizedListenerName(ns', name', port');
    if SanitizeName(ListenerName(KeyOf(ns, name), port)) == SanitizeName(ListenerName(KeyOf(ns', name'), port')) {
      SameSuffix(ns + "-" + name, Itoa(port), ns' + "-" + name', Itoa(port'));
      ItoaInjective(port, port');
    }
  }

  /** Inside one namespace listener names are distinct for distinct services or ports. */
  lemma ListenerNamesDistinct(ns: string, name: string, port: int, name': string, port': int)
    requires Clean(ns) && Clean(name) && Clean(name') && 0 <= port && 0 <= port'
    ensures SanitizeName(ListenerName(KeyOf(ns, name), port)) == SanitizeName(ListenerName(KeyOf(ns, name'), port'))
      <==> name == name' && port == port'
  {
    ListenerNamesClash(ns, name, port, ns, name', port');
    SamePrefix(ns, name, name');
  }

  lemma SamePrefix(ns: string, name: string, name': string)
    ensures ns + "-" + name == ns + "-" + name' <==> name == name'
  {
    assert name == (ns + "-" + name)[|ns| + 1..];
    assert name' == (ns + "-" + name')[|ns| + 1..];
  }

  /** Across namespaces they do clash. */
  lemma NamesClashAcrossNamespaces(port: int)
    ensures KeyOf("a", "b-c") != KeyOf("a-b", "c")
    ensures 0 <= port ==>
      SanitizeName(ListenerName(KeyOf("a", "b-c"), port)) == SanitizeName(ListenerName(KeyOf("a-b", "c"), port))
  {
    assert KeyOf("a", "b-c")[1] != KeyOf("a-b", "c")[1];
    assert "a" + "-" + "b-c" == "a-b" + "-" + "c";
    if 0 <= port { ListenerNamesClash("a", "b-c", port, "a-b", "c", port); }
  }

  /** Inside one namespace server names are distinct for distinct pods. */
  lemma ServerNamesDistinct(ns: string, pod: string, pod': string)
    requires Clean(ns) && Clean(pod) && Clean(pod')
    ensures SanitizeName(ServerName(ns, pod)) == SanitizeName(ServerName(ns, pod')) <==> pod == pod'
  {
    SanitizeIsPointwise(ServerName(ns, pod));
    SanitizeIsPointwise(ServerName(ns, pod'));
    PointwiseParts(ns + "-", pod);
    PointwiseParts(ns + "-", pod');
    PointwiseParts(ns, "-");
    PointwiseParts(pod, "");
    PointwiseParts(pod', "");
    assert Pointwise("-") == "-";
    SamePrefix(ns, pod, pod');
  }
}
