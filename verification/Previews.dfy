/** Preview host names and routes (crates/executor/src/previews.rs). Hashes are arbitrary hexadecimal strings. */
module Previews {
  import opened Wrappers
  import opened Decimal

  predicate LowerOrDigit(c: char) { 'a' <= c <= 'z' || '0' <= c <= '9' }

  predicate Upper(c: char) { 'A' <= c <= 'Z' }

  /** A DNS label: 1 to 63 octets, lower case letters, digits and inner hyphens. */
  predicate ValidLabel(l: string) {
    && 1 <= |l| <= 63 && l[0] != '-' && l[|l| - 1] != '-'
    && forall i :: 0 <= i < |l| ==> LowerOrDigit(l[i]) || l[i] == '-'
  }

  function Labels(s: string): (labels: seq<string>)
    ensures labels != []
  {
    if s == "" then [""]
    else
      var rest := Labels(s[1..]);
      if s[0] == '.' then [""] + rest else [[s[0]] + rest[0]] + rest[1..]
  }

  predicate ValidName(s: string) { forall i :: 0 <= i < |Labels(s)| ==> ValidLabel(Labels(s)[i]) }

  /** What `PreviewProxy::start` demands of the configured domain. */
  predicate AcceptedDomain(domain: string) { |domain| <= 187 && ValidName(domain) }

  // ----- Deriving the names -----

  function Clean(c: char): char {
    if LowerOrDigit(c) then c else if Upper(c) then (c as int + 32) as char else '-'
  }

  function CleanAll(s: string): string { seq(|s|, i requires 0 <= i < |s| => Clean(s[i])) }

  function TrimLeft(s: string): string { if s != "" && s[0] == '-' then TrimLeft(s[1..]) else s }

  function TrimRight(s: string): string { if s != "" && s[|s| - 1] == '-' then TrimRight(s[..|s| - 1]) else s }

  function Slug(name: string): string {
    TrimRight(TrimLeft(CleanAll(if |name| <= 50 then name else name[..50])))
  }

  predicate Digest(s: string) { |s| == 64 && forall i :: 0 <= i < |s| ==> '0' <= s[i] <= '9' || 'a' <= s[i] <= 'f' }

  /** The thread's own label: its cleaned name, a hyphen, and eight digits of its hash. */
  function ThreadLabel(name: string, digest: string): string
    requires Digest(digest)
  {
    (if Slug(name) == "" then "" else Slug(name) + "-") + digest[..8]
  }

  /** The host of the page, before its port. */
  function PageName(name: string, digest: string, domain: string): string
    requires Digest(digest)
  {
    ThreadLabel(name, digest) + "." + domain
  }

  function ServiceName(port: nat, page: string): string { Print(port) + "." + page }

  function WithPort(host: string, port: nat): string { host + ":" + Print(port) }

  datatype Service = Service(port: nat, url: string, host: string)

  function ServiceAt(port: nat, host: string): Service {
    Service(port, "http://" + ServiceName(port, host), ServiceName(port, host))
  }

  datatype PreviewUrls = PreviewUrls(page: string, services: seq<Service>, host: string)

  /** The ports below the bound in ascending order, each once. */
  function Ascending(ports: set<nat>, bound: nat): seq<nat> {
    if bound == 0 then []
    else Ascending(ports, bound - 1) + if bound - 1 in ports then [bound - 1] else []
  }

  function PreviewsFor(name: string, digest: string, tcpPorts: seq<nat>, domain: string, listener: nat)
    : Option<PreviewUrls>
    requires Digest(digest)
  {
    if tcpPorts == [] then None
    else
      var host := WithPort(PageName(name, digest, domain), listener);
      var ports := Ascending(set p | p in tcpPorts, 0x10000);
      var services := seq(|ports|, i requires 0 <= i < |ports| => ServiceAt(ports[i], host));
      Some(PreviewUrls("http://" + host, services, host))
  }

  // ----- Labels -----

  lemma {:induction false} LabelsJoin(a: string, b: string)
    ensures Labels(a + "." + b) == Labels(a) + Labels(b)
  {
    if a == "" {
      assert "" + "." + b == "." + b;
      assert ("." + b)[1..] == b;
    } else {
      assert (a + "." + b)[1..] == a[1..] + "." + b;
      LabelsJoin(a[1..], b);
    }
  }

  lemma {:induction false} OneLabel(a: string)
    requires forall i :: 0 <= i < |a| ==> a[i] != '.'
    ensures Labels(a) == [a]
  {
    if a != "" {
      OneLabel(a[1..]);
      assert [a[0]] + a[1..] == a;
    }
  }

  lemma {:induction false} TrimLeftPart(s: string)
    ensures |TrimLeft(s)| <= |s| && TrimLeft(s) == s[|s| - |TrimLeft(s)|..]
    ensures TrimLeft(s) != "" ==> TrimLeft(s)[0] != '-'
  {
    if s != "" && s[0] == '-' {
      TrimLeftPart(s[1..]);
    }
  }

  lemma {:induction false} TrimRightPart(s: string)
    ensures |TrimRight(s)| <= |s| && TrimRight(s) == s[..|TrimRight(s)|]
  {
    if s != "" && s[|s| - 1] == '-' {
      TrimRightPart(s[..|s| - 1]);
    }
  }

  predicate SlugChars(s: string) { forall i :: 0 <= i < |s| ==> LowerOrDigit(s[i]) || s[i] == '-' }

  lemma {:induction false} CleanChars(s: string)
    ensures SlugChars(CleanAll(s)) && |CleanAll(s)| == |s|
  {
    forall i | 0 <= i < |s| ensures LowerOrDigit(CleanAll(s)[i]) || CleanAll(s)[i] == '-' {
      CleanChar(s[i]);
    }
  }

  lemma {:induction false} CleanChar(c: char)
    ensures LowerOrDigit(Clean(c)) || Clean(c) == '-'
  {
  }

  lemma {:induction false} TrimmedChars(s: string)
    requires SlugChars(s)
    ensures SlugChars(TrimRight(TrimLeft(s))) && |TrimRight(TrimLeft(s))| <= |s|
    ensures TrimRight(TrimLeft(s)) != "" ==> TrimRight(TrimLeft(s))[0] != '-'
  {
    TrimLeftPart(s);
    TrimRightPart(TrimLeft(s));
  }

  lemma {:induction false} SlugShape(name: string)
    ensures |Slug(name)| <= 50 && SlugChars(Slug(name))
    ensures Slug(name) != "" ==> Slug(name)[0] != '-'
  {
    var cut := if |name| <= 50 then name else name[..50];
    CleanChars(cut);
    TrimmedChars(CleanAll(cut));
  }

  /** The thread's label is valid whatever the thread is called, and has at most 59 octets. */
  lemma {:induction false} ThreadLabelValid(name: string, digest: string)
    requires Digest(digest)
    ensures ValidLabel(ThreadLabel(name, digest)) && |ThreadLabel(name, digest)| <= 59
  {
    SlugShape(name);
    var l := ThreadLabel(name, digest);
    assert l[|l| - 1] == digest[7];
  }

  lemma {:induction false} ValidLabelNoDot(l: string)
    requires ValidLabel(l)
    ensures Labels(l) == [l]
  {
    OneLabel(l);
  }

  lemma {:induction false} PortLabelValid(port: nat)
    requires port < 0x10000
    ensures ValidLabel(Print(port)) && |Print(port)| <= 5
  {
    PortLength(port);
    forall i | 0 <= i < |Print(port)| ensures LowerOrDigit(Print(port)[i]) && Print(port)[i] != '-' {
      PrintedDigits(port, i);
    }
  }

  lemma {:induction false} PrefixedName(first: string, name: string)
    requires ValidLabel(first) && ValidName(name)
    ensures ValidName(first + "." + name)
  {
    LabelsJoin(first, name);
    ValidLabelNoDot(first);
  }

  /**
   Every name derived for an accepted domain consists of valid labels of at most 63 octets and has
   at most 253 octets before its port, whatever the thread's name, hash and ports are.
   */
  lemma {:induction false} NamesAreValid(name: string, digest: string, domain: string, port: nat)
    requires Digest(digest) && AcceptedDomain(domain) && port < 0x10000
    ensures ValidName(PageName(name, digest, domain)) && |PageName(name, digest, domain)| <= 247
    ensures var service := ServiceName(port, PageName(name, digest, domain));
      ValidName(service) && |service| <= 253
  {
    ThreadLabelValid(name, digest);
    PrefixedName(ThreadLabel(name, digest), domain);
    PortLabelValid(port);
    PrefixedName(Print(port), PageName(name, digest, domain));
  }

  // ----- The names, spelled out -----

  const UPPER := "ABCDEFGHIJKLMNOPQRSTUVWXYZ"
  const LOWER := "abcdefghijklmnopqrstuvwxyz"

  /** What a character of the thread's name becomes. */
  ghost predicate BecomesChar(c: char, d: char) {
    || (('a' <= c <= 'z' || '0' <= c <= '9') && d == c)
    || (exists i :: 0 <= i < 26 && c == UPPER[i] && d == LOWER[i])
    || (!('a' <= c <= 'z') && !('A' <= c <= 'Z') && !('0' <= c <= '9') && d == '-')
  }

  lemma {:induction false} Alphabet(i: nat)
    requires i < 26
    ensures UPPER[i] as int == 'A' as int + i && LOWER[i] as int == 'a' as int + i
  {
  }

  lemma {:induction false} CleanExact(c: char)
    ensures BecomesChar(c, Clean(c))
  {
    if Upper(c) {
      var i := c as int - 'A' as int;
      Alphabet(i);
      assert c == UPPER[i] && Clean(c) == LOWER[i];
    }
  }

  /** Trimming keeps the middle, from the first to the last character that is not a hyphen. */
  lemma {:induction false} TrimExact(s: string) returns (a: nat, b: nat)
    ensures a <= b <= |s| && TrimRight(TrimLeft(s)) == s[a..b]
    ensures forall i :: 0 <= i < a || b <= i < |s| ==> s[i] == '-'
    ensures a < b ==> s[a] != '-' && s[b - 1] != '-'
    decreases |s|
  {
    if s == "" {
      a, b := 0, 0;
    } else if s[0] == '-' {
      a, b := TrimExact(s[1..]);
      assert s[1..][a..b] == s[a + 1..b + 1];
      assert forall i :: 1 <= i < |s| ==> s[i] == s[1..][i - 1];
      a, b := a + 1, b + 1;
    } else {
      TrimRightPart(s);
      TrimRightDropped(s);
      a, b := 0, |TrimRight(s)|;
    }
  }

  /** The cleaned name: the first fifty characters, each cleaned, without the hyphens around them. */
  lemma {:induction false} SlugExact(name: string) returns (a: nat, b: nat, clean: string)
    ensures var cut := if |name| > 50 then name[..50] else name;
      && |clean| == |cut| && forall i :: 0 <= i < |cut| ==> BecomesChar(cut[i], clean[i])
    ensures a <= b <= |clean| && Slug(name) == clean[a..b]
    ensures forall i :: 0 <= i < a || b <= i < |clean| ==> clean[i] == '-'
    ensures a < b ==> clean[a] != '-' && clean[b - 1] != '-'
  {
    var cut := if |name| > 50 then name[..50] else name;
    clean := CleanAll(cut);
    forall i | 0 <= i < |cut| ensures BecomesChar(cut[i], clean[i]) { CleanExact(cut[i]); }
    a, b := TrimExact(clean);
  }

  lemma {:induction false} TrimLeftDropped(s: string)
    ensures |TrimLeft(s)| <= |s| && forall i :: 0 <= i < |s| - |TrimLeft(s)| ==> s[i] == '-'
  {
    if s != "" && s[0] == '-' {
      TrimLeftDropped(s[1..]);
      assert forall i :: 1 <= i < |s| ==> s[i] == s[1..][i - 1];
    }
  }

  lemma {:induction false} TrimRightDropped(s: string)
    ensures |TrimRight(s)| <= |s| && forall i :: |TrimRight(s)| <= i < |s| ==> s[i] == '-'
    ensures TrimRight(s) != "" ==> TrimRight(s)[|TrimRight(s)| - 1] != '-'
  {
    if s != "" && s[|s| - 1] == '-' {
      TrimRightDropped(s[..|s| - 1]);
    }
  }

  /** There are previews exactly when there are ports, and the page's host is spelled like this. */
  lemma {:induction false} HostSpelled(name: string, digest: string, tcpPorts: seq<nat>, domain: string, listener: nat)
    requires Digest(digest)
    ensures PreviewsFor(name, digest, tcpPorts, domain, listener).None? <==> |tcpPorts| == 0
    ensures PreviewsFor(name, digest, tcpPorts, domain, listener).Some? ==>
      var prefix := if |Slug(name)| == 0 then "" else Slug(name) + "-";
      PreviewsFor(name, digest, tcpPorts, domain, listener).value.host ==
        prefix + digest[..8] + "." + domain + ":" + Print(listener)
  {
  }

  // ----- The bound is tight -----

  lemma {:induction false} CleanNameKept(name: string)
    requires forall i :: 0 <= i < |name| ==> LowerOrDigit(name[i])
    ensures Slug(name) == if |name| <= 50 then name else name[..50]
  {
    var cut := if |name| <= 50 then name else name[..50];
    assert CleanAll(cut) == cut;
  }

  lemma {:induction false} LongDomain(n: nat) returns (domain: string)
    requires n >= 1
    ensures |domain| == 2 * n - 1 && ValidName(domain)
  {
    if n == 1 {
      domain := "d";
      ValidLabelNoDot(domain);
    } else {
      var rest := LongDomain(n - 1);
      PrefixedName("d", rest);
      domain := "d" + "." + rest;
    }
  }

  /** Some name really has 253 octets, so the domain limit of 187 cannot be raised. */
  lemma {:induction false} LimitIsTight() returns (name: string, digest: string, domain: string, port: nat)
    ensures Digest(digest) && AcceptedDomain(domain) && port < 0x10000 && |domain| == 187
    ensures |ServiceName(port, PageName(name, digest, domain))| == 253
  {
    name := seq(50, _ => 'a');
    digest := seq(64, _ => '0');
    port := 10000;
    domain := LongDomain(94);
    CleanNameKept(name);
    PortLength(port);
    assert |Print(1)| == 1 && |Print(10)| == 2 && |Print(100)| == 3 && |Print(1000)| == 4 && |Print(10000)| == 5;
  }

  // ----- Services -----

  lemma {:induction false} AscendingPorts(ports: set<nat>, bound: nat)
    ensures var s := Ascending(ports, bound);
      && (forall i, j :: 0 <= i < j < |s| ==> s[i] < s[j])
      && (forall p :: p in s <==> p in ports && p < bound)
      && (forall i :: 0 <= i < |s| ==> s[i] < bound)
  {
    if bound > 0 {
      AscendingPorts(ports, bound - 1);
    }
  }

  lemma {:induction false} ServiceNamesDiffer(a: nat, b: nat, page: string)
    requires ServiceName(a, page) == ServiceName(b, page)
    ensures a == b
  {
    var s := ServiceName(a, page);
    assert s[..|s| - |page| - 1] == Print(a);
    assert s[..|s| - |page| - 1] == Print(b);
    PrintInjective(a, b);
  }

  /** Every host is its port before the page's host, and every address leads to its own host. */
  ghost predicate Spelled(p: PreviewUrls) {
    && p.page == "http://" + p.host
    && forall i :: 0 <= i < |p.services| ==>
         && p.services[i].host == Print(p.services[i].port) + "." + p.host
         && p.services[i].url == "http://" + p.services[i].host
  }

  /** There is one service for each configured port, in ascending order, and all hosts differ. */
  lemma {:induction false} OneServicePerPort(name: string, digest: string, tcpPorts: seq<nat>, domain: string,
      listener: nat)
    requires Digest(digest) && tcpPorts != [] && forall i :: 0 <= i < |tcpPorts| ==> tcpPorts[i] < 0x10000
    ensures var p := PreviewsFor(name, digest, tcpPorts, domain, listener).value;
      && (forall port :: port in tcpPorts <==> exists i :: 0 <= i < |p.services| && p.services[i].port == port)
      && (forall i, j :: 0 <= i < j < |p.services| ==> p.services[i].port < p.services[j].port)
      && (forall i :: 0 <= i < |p.services| ==>
            p.services[i].host == WithPort(ServiceName(p.services[i].port, PageName(name, digest, domain)), listener))
      && DistinctHosts(p) && Spelled(p)
  {
    var host := WithPort(PageName(name, digest, domain), listener);
    var ports := Ascending(set q | q in tcpPorts, 0x10000);
    var p := PreviewsFor(name, digest, tcpPorts, domain, listener).value;
    AscendingPorts(set q | q in tcpPorts, 0x10000);
    assert |p.services| == |ports| && forall i :: 0 <= i < |ports| ==> p.services[i] == ServiceAt(ports[i], host);
    forall port ensures port in tcpPorts <==> exists i :: 0 <= i < |p.services| && p.services[i].port == port {
      assert port in tcpPorts <==> port in ports;
      if port in ports {
        var i :| 0 <= i < |ports| && ports[i] == port;
        assert p.services[i].port == port;
      }
    }
    ServicesSpelled(p, ports, PageName(name, digest, domain), listener);
  }

  lemma {:induction false} ServicesSpelled(p: PreviewUrls, ports: seq<nat>, page: string, listener: nat)
    requires p.host == WithPort(page, listener) && p.page == "http://" + p.host
    requires |p.services| == |ports| && forall i :: 0 <= i < |ports| ==> p.services[i] == ServiceAt(ports[i], p.host)
    requires forall i, j :: 0 <= i < j < |ports| ==> ports[i] < ports[j]
    ensures forall i :: 0 <= i < |p.services| ==>
      p.services[i].host == WithPort(ServiceName(p.services[i].port, page), listener)
    ensures DistinctHosts(p) && Spelled(p)
  {
    forall i | 0 <= i < |ports|
      ensures p.services[i].host == WithPort(ServiceName(ports[i], page), listener) && p.services[i].host != p.host
    {
      PortMovesOut(ports[i], page, listener);
      LongerName(ports[i], p.host);
    }
    forall i, j | 0 <= i < j < |ports| ensures p.services[i].host != p.services[j].host {
      if p.services[i].host == p.services[j].host {
        ServiceNamesDiffer(ports[i], ports[j], p.host);
      }
    }
  }

  lemma {:induction false} PortMovesOut(port: nat, page: string, listener: nat)
    ensures ServiceName(port, WithPort(page, listener)) == WithPort(ServiceName(port, page), listener)
  {
    assert Print(port) + "." + (page + ":" + Print(listener)) == Print(port) + "." + page + ":" + Print(listener);
  }

  lemma {:induction false} LongerName(port: nat, host: string)
    ensures ServiceName(port, host) != host
  {
    assert |ServiceName(port, host)| > |host|;
  }

  ghost predicate DistinctHosts(p: PreviewUrls) {
    && (forall i, j :: 0 <= i < j < |p.services| ==> p.services[i].host != p.services[j].host)
    && forall i :: 0 <= i < |p.services| ==> p.services[i].host != p.host
  }

  // ----- Routes -----

  datatype Destination = Page(previews: PreviewUrls) | ToPort(port: nat)

  datatype Route = Route(agent: nat, thread: nat, destination: Destination)

  /** The routes a thread's previews call for. */
  function RoutesOf(agent: nat, thread: nat, p: PreviewUrls, n: nat): map<string, Route>
    requires n <= |p.services|
  {
    if n == 0 then map[p.host := Route(agent, thread, Page(p))]
    else
      var service := p.services[n - 1];
      RoutesOf(agent, thread, p, n - 1)[service.host := Route(agent, thread, ToPort(service.port))]
  }

  function Others(routes: map<string, Route>, thread: nat): map<string, Route> {
    map h | h in routes && routes[h].thread != thread :: routes[h]
  }

  class PreviewRoutes {
    var routes: map<string, Route>

    constructor ()
      ensures routes == map[]
    {
      routes := map[];
    }

    /** A thread's routes are replaced as a whole. */
    method Register(agent: nat, thread: nat, previews: PreviewUrls)
      modifies this
      ensures routes == Others(old(routes), thread) + RoutesOf(agent, thread, previews, |previews.services|)
    {
      routes := map h | h in routes && routes[h].thread != thread :: routes[h];
      routes := routes[previews.host := Route(agent, thread, Page(previews))];
      for i := 0 to |previews.services|
        invariant routes == Others(old(routes), thread) + RoutesOf(agent, thread, previews, i)
      {
        var service := previews.services[i];
        routes := routes[service.host := Route(agent, thread, ToPort(service.port))];
      }
    }

    method Remove(thread: nat)
      modifies this
      ensures routes == Others(old(routes), thread)
      ensures forall h :: h in old(routes) && old(routes)[h].thread != thread ==>
        h in routes && routes[h] == old(routes)[h]
      ensures forall h :: h in routes ==> routes[h].thread != thread
    {
      routes := map h | h in routes && routes[h].thread != thread :: routes[h];
    }

    method RemoveAgent(agent: nat)
      modifies this
      ensures routes == map h | h in old(routes) && old(routes)[h].agent != agent :: old(routes)[h]
    {
      routes := map h | h in routes && routes[h].agent != agent :: routes[h];
    }
  }

  /** The page's host, or the host of one of the first `n` services. */
  ghost predicate HostOf(p: PreviewUrls, n: nat, h: string)
    requires n <= |p.services|
  {
    h == p.host || exists i :: 0 <= i < n && h == p.services[i].host
  }

  lemma {:induction false} RoutesOfExact(agent: nat, thread: nat, p: PreviewUrls, n: nat)
    requires n <= |p.services| && DistinctHosts(p)
    ensures var r := RoutesOf(agent, thread, p, n);
      && (forall h :: h in r ==> r[h].thread == thread && r[h].agent == agent && HostOf(p, n, h))
      && p.host in r && r[p.host].destination == Page(p)
      && forall i :: 0 <= i < n ==>
        p.services[i].host in r && r[p.services[i].host].destination == ToPort(p.services[i].port)
  {
    if n > 0 {
      RoutesOfExact(agent, thread, p, n - 1);
      var before, r := RoutesOf(agent, thread, p, n - 1), RoutesOf(agent, thread, p, n);
      forall h | h in r ensures HostOf(p, n, h) {
        if h in before && h != p.host && h != p.services[n - 1].host {
          var i :| 0 <= i < n - 1 && h == p.services[i].host;
        }
      }
    }
  }

  /**
   After a registration the thread's hosts, and no others, lead to that thread, each service host to
   its own port; routes of other threads stay unless they used one of these hosts.
   */
  lemma {:induction false} RegisterExact(routes: map<string, Route>, agent: nat, thread: nat, p: PreviewUrls)
    requires DistinctHosts(p)
    ensures var after := Others(routes, thread) + RoutesOf(agent, thread, p, |p.services|);
      && (forall h :: h in after && after[h].thread == thread <==> HostOf(p, |p.services|, h))
      && after[p.host] == Route(agent, thread, Page(p))
      && (forall i :: 0 <= i < |p.services| ==>
            after[p.services[i].host] == Route(agent, thread, ToPort(p.services[i].port)))
      && forall h :: h in routes && routes[h].thread != thread && h !in RoutesOf(agent, thread, p, |p.services|) ==>
        h in after && after[h] == routes[h]
  {
    RoutesOfExact(agent, thread, p, |p.services|);
  }

  /** Removing a thread undoes its registration, except for hosts it took over from other threads. */
  lemma {:induction false} RemoveUndoesRegister(routes: map<string, Route>, agent: nat, thread: nat, p: PreviewUrls)
    requires DistinctHosts(p)
    ensures Others(Others(routes, thread) + RoutesOf(agent, thread, p, |p.services|), thread)
         == Others(routes, thread) - RoutesOf(agent, thread, p, |p.services|).Keys
  {
    RoutesOfExact(agent, thread, p, |p.services|);
  }
}
