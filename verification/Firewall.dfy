/**
 The script that closes direct web access from a workstation. It is modelled as the iptables commands
 it runs, in order, on the OUTPUT chain, whose policy is to accept what no rule matches. A failing
 deletion is ignored; an append that iptables refuses ends the script.
 */
module Firewall {
  import opened Wrappers
  import opened Text

  datatype Proto = TCP | UDP
  datatype Action = ACCEPT | DROP

  // The options of a rule; None where the option is absent.
  datatype Rule = Rule(proto: Option<Proto>, dst: Option<string>, dport: Option<string>,
                       onLoopback: bool, established: bool, action: Action)

  datatype Command = Delete(rule: Rule) | Append(rule: Rule)

  datatype ProxyConfig = ProxyConfig(addr: string, clusterCIDRs: seq<string>)

  // A packet is described by the destination and port arguments it satisfies.
  datatype Packet = Packet(proto: Proto, dsts: set<string>, ports: set<string>, loopback: bool, established: bool)

  // A packet goes to one port.
  predicate Coherent(p: Packet) {
    && !("53" in p.ports && "80" in p.ports) && !("53" in p.ports && "443" in p.ports)
    && !("80" in p.ports && "443" in p.ports)
  }

  // ----- the rules

  function PortRule(proto: Proto, port: string, action: Action): Rule {
    Rule(Some(proto), None, Some(port), false, false, action)
  }

  function DstRule(cidr: string): Rule {
    Rule(None, Some(cidr), None, false, false, ACCEPT)
  }

  function ProxyRule(host: string, port: string): Rule {
    Rule(Some(TCP), Some(host), Some(port), false, false, ACCEPT)
  }

  const LOOPBACK := Rule(None, None, None, true, false, ACCEPT)
  const ESTABLISHED := Rule(None, None, None, false, true, ACCEPT)
  const DROP80 := PortRule(TCP, "80", DROP)
  const DROP443 := PortRule(TCP, "443", DROP)

  // The host and port of a proxy address.
  function ParseAddr(addr: string): (r: (string, string))
    ensures ':' !in r.0
    ensures addr == if ':' in addr then r.0 + ":" + r.1 else r.0
    ensures ':' !in addr ==> r.1 == "3128"
  {
    var at := Index(addr, ":");
    if at == -1 then
      assert ':' !in addr by { NoColon(addr); }
      (addr, "3128")
    else
      assert ':' !in addr[..at] by { NoColonBefore(addr, at); }
      assert addr == addr[..at] + addr[at..at + 1] + addr[at + 1..];
      (addr[..at], addr[at + 1..])
  }

  lemma NoColon(s: string)
    requires forall i :: !Occurs(s, ":", i)
    ensures ':' !in s
  {
    forall i | 0 <= i < |s| ensures s[i] != ':' {
      assert !Occurs(s, ":", i) && s[i..i + 1] == [s[i]];
    }
  }

  lemma NoColonBefore(s: string, at: nat)
    requires at <= |s| && forall i | 0 <= i < at :: !Occurs(s, ":", i)
    ensures ':' !in s[..at]
  {
    forall i | 0 <= i < at ensures s[i] != ':' {
      assert !Occurs(s, ":", i) && s[i..i + 1] == [s[i]];
    }
  }

  // ----- the script

  function CidrRules(cidrs: seq<string>): seq<Rule> {
    if cidrs == [] then [] else CidrRules(cidrs[..|cidrs| - 1]) + [DstRule(cidrs[|cidrs| - 1])]
  }

  const DNS_RULES := [PortRule(UDP, "53", ACCEPT), PortRule(TCP, "53", ACCEPT)]
  const DROP_RULES := [DROP80, DROP443]

  function LastAccepts(host: string, port: string): seq<Rule> {
    [ProxyRule(host, port), LOOPBACK, ESTABLISHED]
  }

  function AcceptsFor(cidrs: seq<string>, host: string, port: string): seq<Rule> {
    DNS_RULES + CidrRules(cidrs) + LastAccepts(host, port)
  }

  // What a run appends before its drops.
  function Accepts(cfg: ProxyConfig): seq<Rule> {
    AcceptsFor(cfg.clusterCIDRs, ParseAddr(cfg.addr).0, ParseAddr(cfg.addr).1)
  }

  function Appending(rules: seq<Rule>): seq<Command> {
    seq(|rules|, i requires 0 <= i < |rules| => Append(rules[i]))
  }

  const FLUSH := [Delete(DROP80), Delete(DROP443),
                  Delete(PortRule(TCP, "80", ACCEPT)), Delete(PortRule(TCP, "443", ACCEPT))]

  function Script(cfg: ProxyConfig): seq<Command> {
    FLUSH + Appending(Accepts(cfg) + DROP_RULES)
  }

  // The script in full: four deletions, then name resolution, the clusters in order, the proxy, the loopback
  // and known connections accepted, and web traffic dropped last.
  lemma ScriptInFull(cfg: ProxyConfig)
    ensures Script(cfg) ==
            [Delete(Rule(Some(TCP), None, Some("80"), false, false, DROP)),
             Delete(Rule(Some(TCP), None, Some("443"), false, false, DROP)),
             Delete(Rule(Some(TCP), None, Some("80"), false, false, ACCEPT)),
             Delete(Rule(Some(TCP), None, Some("443"), false, false, ACCEPT)),
             Append(Rule(Some(UDP), None, Some("53"), false, false, ACCEPT)),
             Append(Rule(Some(TCP), None, Some("53"), false, false, ACCEPT))]
            + ClusterCommands(cfg.clusterCIDRs)
            + [Append(Rule(Some(TCP), Some(ParseAddr(cfg.addr).0), Some(ParseAddr(cfg.addr).1), false, false, ACCEPT)),
               Append(Rule(None, None, None, true, false, ACCEPT)),
               Append(Rule(None, None, None, false, true, ACCEPT)),
               Append(Rule(Some(TCP), None, Some("80"), false, false, DROP)),
               Append(Rule(Some(TCP), None, Some("443"), false, false, DROP))]
  {
    var (host, port) := ParseAddr(cfg.addr);
    var cidrs, last := CidrRules(cfg.clusterCIDRs), LastAccepts(host, port);
    AppendingTwo(DNS_RULES + cidrs + last, DROP_RULES);
    AppendingTwo(DNS_RULES + cidrs, last);
    AppendingTwo(DNS_RULES, cidrs);
    CidrRulesAre(cfg.clusterCIDRs);
    Regroup(FLUSH, Appending(DNS_RULES), Appending(cidrs), Appending(last), Appending(DROP_RULES));
    hide CidrRules, ParseAddr, ClusterCommands;
  }

  ghost function ClusterCommands(cidrs: seq<string>): seq<Command> {
    seq(|cidrs|, i requires 0 <= i < |cidrs| => Append(Rule(None, Some(cidrs[i]), None, false, false, ACCEPT)))
  }

  lemma {:induction false} CidrRulesAre(cidrs: seq<string>)
    ensures Appending(CidrRules(cidrs)) == ClusterCommands(cidrs)
  {
    if cidrs != [] {
      CidrRulesAre(cidrs[..|cidrs| - 1]);
      AppendingTwo(CidrRules(cidrs[..|cidrs| - 1]), [DstRule(cidrs[|cidrs| - 1])]);
    }
  }

  lemma Regroup(a: seq<Command>, b: seq<Command>, c: seq<Command>, d: seq<Command>, e: seq<Command>)
    ensures a + (b + c + d + e) == (a + b) + c + (d + e)
  {
  }

  lemma AppendingTwo(a: seq<Rule>, b: seq<Rule>)
    ensures Appending(a + b) == Appending(a) + Appending(b)
  {
  }

  method GenerateIPTablesScript(cfg: ProxyConfig) returns (script: seq<Command>)
    ensures script == Script(cfg)
  {
    var (host, port) := ParseAddr(cfg.addr);
    script := Commands(cfg.clusterCIDRs, host, port);
  }

  method Commands(cidrs: seq<string>, host: string, port: string) returns (script: seq<Command>)
    ensures script == FLUSH + Appending(AcceptsFor(cidrs, host, port) + DROP_RULES)
  {
    var allow := Allow(cidrs, host, port);
    script := Flush();
    script := script + allow;
    script := script + [Append(DROP80), Append(DROP443)];
    AppendingTwo(AcceptsFor(cidrs, host, port), DROP_RULES);
    assert Appending(DROP_RULES) == [Append(DROP80), Append(DROP443)];
    JoinScript(FLUSH, allow, Appending(DROP_RULES));
  }

  method Flush() returns (script: seq<Command>)
    ensures script == FLUSH
  {
    script := [Delete(DROP80), Delete(DROP443)];
    script := script + [Delete(PortRule(TCP, "80", ACCEPT)), Delete(PortRule(TCP, "443", ACCEPT))];
  }

  lemma JoinScript(a: seq<Command>, b: seq<Command>, c: seq<Command>)
    ensures a + b + c == a + (b + c)
  {
  }

  // The accepting part, with one rule for every CIDR.
  method Allow(cidrs: seq<string>, host: string, port: string) returns (script: seq<Command>)
    ensures script == Appending(AcceptsFor(cidrs, host, port))
  {
    script := [Append(PortRule(UDP, "53", ACCEPT)), Append(PortRule(TCP, "53", ACCEPT))];
    for i := 0 to |cidrs|
      invariant script == Appending(DNS_RULES + CidrRules(cidrs[..i]))
    {
      assert cidrs[..i + 1][..i] == cidrs[..i];
      AppendingTwo(DNS_RULES + CidrRules(cidrs[..i]), [DstRule(cidrs[i])]);
      script := script + [Append(DstRule(cidrs[i]))];
      assert DNS_RULES + CidrRules(cidrs[..i + 1]) == DNS_RULES + CidrRules(cidrs[..i]) + [DstRule(cidrs[i])];
    }
    assert cidrs[..|cidrs|] == cidrs;
    AppendingTwo(DNS_RULES + CidrRules(cidrs), LastAccepts(host, port));
    script := script + [Append(ProxyRule(host, port)), Append(LOOPBACK), Append(ESTABLISHED)];
  }

  // ----- what iptables and the shell do

  // The script goes on until an append is refused.
  datatype Shell = Shell(chain: seq<Rule>, running: bool)

  // One run of the script, and the rules that iptables refuses to append, for example because their host or
  // port is none.
  datatype Run = Run(cfg: ProxyConfig, refused: set<Rule>)

  // -D removes the first equal rule; without one it fails, and the script goes on.
  function RemoveFirst(chain: seq<Rule>, rule: Rule): seq<Rule> {
    if chain == [] then []
    else if chain[0] == rule then chain[1..]
    else [chain[0]] + RemoveFirst(chain[1..], rule)
  }

  function Step(sh: Shell, c: Command, refused: set<Rule>): Shell {
    if !sh.running then sh
    else match c
         case Delete(rule) => sh.(chain := RemoveFirst(sh.chain, rule))
         case Append(rule) => if rule in refused then sh.(running := false) else sh.(chain := sh.chain + [rule])
  }

  function Execute(sh: Shell, script: seq<Command>, refused: set<Rule>): Shell {
    if script == [] then sh else Step(Execute(sh, script[..|script| - 1], refused), script[|script| - 1], refused)
  }

  function MatchesRule(r: Rule, p: Packet): bool {
    && (r.proto.Some? ==> r.proto.value == p.proto)
    && (r.dst.Some? ==> r.dst.value in p.dsts)
    && (r.dport.Some? ==> r.dport.value in p.ports)
    && (r.onLoopback ==> p.loopback)
    && (r.established ==> p.established)
  }

  // The first rule that matches decides.
  function Decide(chain: seq<Rule>, p: Packet): Action {
    if chain == [] then ACCEPT
    else if MatchesRule(chain[0], p) then chain[0].action
    else Decide(chain[1..], p)
  }

  // The chain after one run after another, from an empty chain.
  function ChainAfter(runs: seq<Run>): seq<Rule> {
    if runs == [] then []
    else
      var last := runs[|runs| - 1];
      Execute(Shell(ChainAfter(runs[..|runs| - 1]), true), Script(last.cfg), last.refused).chain
  }

  // ----- the shape of the chain: what every run appended, and the drops of the last one

  predicate Allowed(rules: seq<Rule>, refused: set<Rule>) {
    forall i | 0 <= i < |rules| :: rules[i] !in refused
  }

  // The rules before the first that is refused.
  function Before(rules: seq<Rule>, refused: set<Rule>): (r: seq<Rule>)
    ensures r <= rules && Allowed(r, refused)
  {
    if Allowed(rules, refused) then rules else Before(rules[..|rules| - 1], refused)
  }

  function Appended(run: Run): seq<Rule> {
    Before(Accepts(run.cfg), run.refused)
  }

  // The drops that a run gets to.
  function Drops(run: Run): seq<Rule> {
    if Allowed(Accepts(run.cfg), run.refused) then Before(DROP_RULES, run.refused) else []
  }

  predicate Completes(run: Run) {
    Allowed(Accepts(run.cfg), run.refused) && Allowed(DROP_RULES, run.refused)
  }

  function AllAccepts(runs: seq<Run>): seq<Rule> {
    if runs == [] then [] else AllAccepts(runs[..|runs| - 1]) + Appended(runs[|runs| - 1])
  }

  // Rules that accept, none of them one of those the script deletes.
  ghost predicate AcceptOnly(rules: seq<Rule>) {
    forall i | 0 <= i < |rules| :: Kept(rules[i])
  }

  predicate Kept(r: Rule) {
    r.action == ACCEPT && (r.dst.None? && r.dport.Some? ==> r.dport.value == "53")
  }

  lemma KeptIsNotDeleted(rules: seq<Rule>)
    requires AcceptOnly(rules)
    ensures DROP80 !in rules && DROP443 !in rules
    ensures PortRule(TCP, "80", ACCEPT) !in rules && PortRule(TCP, "443", ACCEPT) !in rules
  {
    assert "53"[0] == '5' && "80"[0] == '8' && "443"[0] == '4';
  }

  lemma {:induction false} RemoveAbsent(chain: seq<Rule>, rule: Rule)
    requires rule !in chain
    ensures RemoveFirst(chain, rule) == chain
  {
    if chain != [] {
      RemoveAbsent(chain[1..], rule);
    }
  }

  lemma {:induction false} RemoveAfter(chain: seq<Rule>, rule: Rule, rest: seq<Rule>)
    requires rule !in chain
    ensures RemoveFirst(chain + [rule] + rest, rule) == chain + rest
  {
    var all := chain + [rule] + rest;
    if chain != [] {
      assert all[1..] == chain[1..] + [rule] + rest;
      RemoveAfter(chain[1..], rule, rest);
    }
  }

  lemma {:induction false} ExecuteAppending(chain: seq<Rule>, rules: seq<Rule>, refused: set<Rule>)
    ensures Execute(Shell(chain, true), Appending(rules), refused)
         == Shell(chain + Before(rules, refused), Allowed(rules, refused))
  {
    if rules != [] {
      var n := |rules| - 1;
      ExecuteAppending(chain, rules[..n], refused);
      assert Appending(rules)[..n] == Appending(rules[..n]);
      assert Allowed(rules, refused) <==> Allowed(rules[..n], refused) && rules[n] !in refused;
      if Allowed(rules, refused) {
        assert chain + rules[..n] + [rules[n]] == chain + rules;
      }
    }
  }

  lemma {:induction false} ExecuteThen(sh: Shell, a: seq<Command>, b: seq<Command>, refused: set<Rule>)
    ensures Execute(sh, a + b, refused) == Execute(Execute(sh, a, refused), b, refused)
  {
    if b == [] {
      assert a + b == a;
    } else {
      var init := b[..|b| - 1];
      ExecuteThen(sh, a, init, refused);
      assert (a + b)[..|a + b| - 1] == a + init;
    }
  }

  lemma ExecuteFlush(chain: seq<Rule>, refused: set<Rule>)
    ensures Execute(Shell(chain, true), FLUSH, refused) ==
            Shell(RemoveFirst(RemoveFirst(RemoveFirst(RemoveFirst(chain, DROP80), DROP443),
                    PortRule(TCP, "80", ACCEPT)), PortRule(TCP, "443", ACCEPT)), true)
  {
    var sh, a, b, c, d := Shell(chain, true), FLUSH[0], FLUSH[1], FLUSH[2], FLUSH[3];
    assert FLUSH == [a] + [b] + [c] + [d];
    ExecuteLast(sh, [a] + [b] + [c], d, refused);
    ExecuteLast(sh, [a] + [b], c, refused);
    ExecuteLast(sh, [a], b, refused);
    ExecuteLast(sh, [], a, refused);
    assert [] + [a] == [a];
  }

  lemma ExecuteLast(sh: Shell, script: seq<Command>, c: Command, refused: set<Rule>)
    ensures Execute(sh, script + [c], refused) == Step(Execute(sh, script, refused), c, refused)
  {
    assert (script + [c])[..|script|] == script;
  }

  // The deletions take away the drops of the run before, as far as it got, and nothing else.
  lemma FlushRemovesDrops(accepts: seq<Rule>, drops: seq<Rule>, refused: set<Rule>)
    requires AcceptOnly(accepts) && drops <= DROP_RULES
    ensures Execute(Shell(accepts + drops, true), FLUSH, refused) == Shell(accepts, true)
  {
    KeptIsNotDeleted(accepts);
    ExecuteFlush(accepts + drops, refused);
    RemoveAbsent(accepts, DROP80);
    RemoveAbsent(accepts, DROP443);
    RemoveAbsent(accepts, PortRule(TCP, "80", ACCEPT));
    RemoveAbsent(accepts, PortRule(TCP, "443", ACCEPT));
    RemovesDrops(accepts, drops);
  }

  lemma RemovesDrops(accepts: seq<Rule>, drops: seq<Rule>)
    requires DROP80 !in accepts && DROP443 !in accepts && drops <= DROP_RULES
    ensures RemoveFirst(RemoveFirst(accepts + drops, DROP80), DROP443) == accepts
  {
    if drops == [] {
      assert accepts + drops == accepts;
      RemoveAbsent(accepts, DROP80);
      RemoveAbsent(accepts, DROP443);
    } else {
      var rest := drops[1..];
      assert accepts + drops == accepts + [DROP80] + rest;
      RemoveAfter(accepts, DROP80, rest);
      if rest == [] {
        assert accepts + rest == accepts;
        RemoveAbsent(accepts, DROP443);
      } else {
        assert accepts + rest == accepts + [DROP443] + [] && accepts + [] == accepts;
        RemoveAfter(accepts, DROP443, []);
      }
    }
  }

  lemma AcceptOnlyAppend(a: seq<Rule>, b: seq<Rule>)
    requires AcceptOnly(a) && AcceptOnly(b)
    ensures AcceptOnly(a + b)
  {
  }

  lemma {:induction false} CidrRulesAccept(cidrs: seq<string>)
    ensures AcceptOnly(CidrRules(cidrs))
  {
    if cidrs != [] {
      CidrRulesAccept(cidrs[..|cidrs| - 1]);
    }
  }

  lemma AcceptsAccept(cidrs: seq<string>, host: string, port: string)
    ensures AcceptOnly(AcceptsFor(cidrs, host, port))
  {
    CidrRulesAccept(cidrs);
    AcceptOnlyAppend(DNS_RULES, CidrRules(cidrs));
    AcceptOnlyAppend(DNS_RULES + CidrRules(cidrs), LastAccepts(host, port));
  }

  lemma AppendedAccepts(run: Run)
    ensures AcceptOnly(Appended(run))
  {
    var (host, port) := ParseAddr(run.cfg.addr);
    AcceptsAccept(run.cfg.clusterCIDRs, host, port);
  }

  lemma {:induction false} AllAcceptsAccept(runs: seq<Run>)
    ensures AcceptOnly(AllAccepts(runs))
  {
    if runs != [] {
      AllAcceptsAccept(runs[..|runs| - 1]);
      AppendedAccepts(runs[|runs| - 1]);
      AcceptOnlyAppend(AllAccepts(runs[..|runs| - 1]), Appended(runs[|runs| - 1]));
    }
  }

  lemma AllowedBoth(a: seq<Rule>, b: seq<Rule>, refused: set<Rule>)
    ensures Allowed(a + b, refused) <==> Allowed(a, refused) && Allowed(b, refused)
  {
    assert forall i | 0 <= i < |a| :: (a + b)[i] == a[i];
    assert forall i | 0 <= i < |b| :: (a + b)[|a| + i] == b[i];
  }

  lemma {:induction false} BeforeBoth(a: seq<Rule>, b: seq<Rule>, refused: set<Rule>)
    ensures Before(a + b, refused) == if Allowed(a, refused) then a + Before(b, refused) else Before(a, refused)
    decreases |b|
  {
    AllowedBoth(a, b, refused);
    if b == [] {
      assert a + b == a;
    } else if !Allowed(a + b, refused) {
      assert (a + b)[..|a + b| - 1] == a + b[..|b| - 1];
      BeforeBoth(a, b[..|b| - 1], refused);
    }
  }

  lemma ExecuteScript(chain: seq<Rule>, kept: seq<Rule>, run: Run)
    requires Execute(Shell(chain, true), FLUSH, run.refused) == Shell(kept, true)
    ensures Execute(Shell(chain, true), Script(run.cfg), run.refused).chain == kept + Appended(run) + Drops(run)
  {
    var accepts := Accepts(run.cfg);
    ExecuteThen(Shell(chain, true), FLUSH, Appending(accepts + DROP_RULES), run.refused);
    hide Execute, Accepts, Appending;
    ExecuteAppending(kept, accepts + DROP_RULES, run.refused);
    BeforeBoth(accepts, DROP_RULES, run.refused);
    assert kept + (Appended(run) + Drops(run)) == kept + Appended(run) + Drops(run);
  }

  // However often the script has run and wherever runs were cut short, the chain is everything that was
  // ever accepted, followed by the drops that the last run got to.
  lemma {:induction false} ChainShape(runs: seq<Run>)
    requires runs != []
    ensures ChainAfter(runs) == AllAccepts(runs) + Drops(runs[|runs| - 1])
  {
    var init, last := runs[..|runs| - 1], runs[|runs| - 1];
    AllAcceptsAccept(init);
    if init == [] {
      assert [] + [] == AllAccepts(init);
      FlushRemovesDrops([], [], last.refused);
    } else {
      ChainShape(init);
      FlushRemovesDrops(AllAccepts(init), Drops(init[|init| - 1]), last.refused);
    }
    ExecuteScript(ChainAfter(init), AllAccepts(init), last);
  }

  // ----- what the chain decides

  ghost predicate SomeMatch(rules: seq<Rule>, p: Packet) {
    exists i :: 0 <= i < |rules| && MatchesRule(rules[i], p)
  }

  predicate Dropped(drops: seq<Rule>, p: Packet) {
    p.proto == TCP && ((DROP80 in drops && "80" in p.ports) || (DROP443 in drops && "443" in p.ports))
  }

  lemma DropsDecide(drops: seq<Rule>, p: Packet)
    requires drops <= DROP_RULES
    ensures Decide(drops, p) == DROP <==> Dropped(drops, p)
  {
    DropsDiffer();
    if |drops| == 1 {
      assert drops == [DROP80] && drops[1..] == [];
    } else if |drops| == 2 {
      assert drops == DROP_RULES && drops[1..] == [DROP443] && drops[1..][1..] == [];
      assert Decide([DROP443], p) == if MatchesRule(DROP443, p) then DROP else ACCEPT;
    }
  }

  lemma DropsDiffer()
    ensures DROP80 != DROP443 && DROP80 !in [DROP443] && DROP443 !in [DROP80]
  {
    assert "80"[0] == '8' && "443"[0] == '4';
  }

  lemma {:induction false} AcceptsThenDrops(rules: seq<Rule>, drops: seq<Rule>, p: Packet)
    requires AcceptOnly(rules) && drops <= DROP_RULES
    ensures Decide(rules + drops, p) == DROP <==> !SomeMatch(rules, p) && Dropped(drops, p)
  {
    var chain := rules + drops;
    if rules == [] {
      assert chain == drops;
      DropsDecide(drops, p);
    } else {
      assert chain[1..] == rules[1..] + drops;
      AcceptsThenDrops(rules[1..], drops, p);
      if SomeMatch(rules[1..], p) {
        var i :| 0 <= i < |rules[1..]| && MatchesRule(rules[1..][i], p);
        assert MatchesRule(rules[i + 1], p);
      }
      if i :| 0 <= i < |rules| && MatchesRule(rules[i], p) {
        if i > 0 {
          assert MatchesRule(rules[1..][i - 1], p);
        }
      }
    }
  }

  // Direct web traffic.
  predicate Web(p: Packet) {
    p.proto == TCP && ("80" in p.ports || "443" in p.ports)
  }

  // A run lets the packet through: to a cluster, or to its proxy, by a rule that it got to append.
  ghost predicate AcceptedBy(run: Run, p: Packet) {
    || (exists k :: 0 <= k < |run.cfg.clusterCIDRs|
          && DstRule(run.cfg.clusterCIDRs[k]) in Appended(run) && run.cfg.clusterCIDRs[k] in p.dsts)
    || (var (host, port) := ParseAddr(run.cfg.addr);
        ProxyRule(host, port) in Appended(run) && host in p.dsts && port in p.ports)
  }

  lemma MatchAppend(a: seq<Rule>, b: seq<Rule>, p: Packet)
    ensures SomeMatch(a + b, p) <==> SomeMatch(a, p) || SomeMatch(b, p)
  {
    if i :| 0 <= i < |a| && MatchesRule(a[i], p) {
      assert MatchesRule((a + b)[i], p);
    }
    if i :| 0 <= i < |b| && MatchesRule(b[i], p) {
      assert MatchesRule((a + b)[|a| + i], p);
    }
    if i :| 0 <= i < |a + b| && MatchesRule((a + b)[i], p) {
      assert if i < |a| then MatchesRule(a[i], p) else MatchesRule(b[i - |a|], p);
    }
  }

  lemma {:induction false} CidrMembers(cidrs: seq<string>, r: Rule)
    ensures r in CidrRules(cidrs) <==> exists k :: 0 <= k < |cidrs| && r == DstRule(cidrs[k])
  {
    if cidrs != [] {
      var n := |cidrs| - 1;
      CidrMembers(cidrs[..n], r);
      if k :| 0 <= k < |cidrs| && r == DstRule(cidrs[k]) && k < n {
        assert r == DstRule(cidrs[..n][k]);
      }
    }
  }

  lemma AcceptsMembers(cfg: ProxyConfig, r: Rule)
    ensures r in Accepts(cfg) <==>
            || r in DNS_RULES || (exists k :: 0 <= k < |cfg.clusterCIDRs| && r == DstRule(cfg.clusterCIDRs[k]))
            || r == ProxyRule(ParseAddr(cfg.addr).0, ParseAddr(cfg.addr).1) || r == LOOPBACK || r == ESTABLISHED
  {
    CidrMembers(cfg.clusterCIDRs, r);
  }

  // A matching rule, for web traffic, is about a cluster, the proxy, the loopback or a known connection.
  lemma AppendedMatch(run: Run, p: Packet)
    requires Coherent(p) && Web(p)
    ensures SomeMatch(Appended(run), p) <==>
            || AcceptedBy(run, p)
            || (LOOPBACK in Appended(run) && p.loopback) || (ESTABLISHED in Appended(run) && p.established)
  {
    var rules := Appended(run);
    if i :| 0 <= i < |rules| && MatchesRule(rules[i], p) {
      assert rules[i] in Accepts(run.cfg);
      AcceptsMembers(run.cfg, rules[i]);
      assert rules[i] !in DNS_RULES;
    }
    if AcceptedBy(run, p) || (LOOPBACK in rules && p.loopback) || (ESTABLISHED in rules && p.established) {
      var (host, port) := ParseAddr(run.cfg.addr);
      var r: Rule :| r in rules && MatchesRule(r, p);
    }
  }

  ghost predicate SomeAccepts(runs: seq<Run>, p: Packet) {
    exists k :: 0 <= k < |runs| && AcceptedBy(runs[k], p)
  }

  lemma SomeAcceptsAppend(runs: seq<Run>, run: Run, p: Packet)
    ensures SomeAccepts(runs + [run], p) <==> SomeAccepts(runs, p) || AcceptedBy(run, p)
  {
    var more := runs + [run];
    assert more[|runs|] == run;
    if k :| 0 <= k < |runs| && AcceptedBy(runs[k], p) {
      assert AcceptedBy(more[k], p);
    }
    if k :| 0 <= k < |more| && AcceptedBy(more[k], p) {
      assert k < |runs| ==> AcceptedBy(runs[k], p);
    }
  }

  // The runs so far accept the packet, by their chain and by their configurations.
  ghost predicate AcceptsAgree(runs: seq<Run>, p: Packet) {
    && (SomeAccepts(runs, p) ==> SomeMatch(AllAccepts(runs), p))
    && (SomeMatch(AllAccepts(runs), p) ==> SomeAccepts(runs, p) || p.loopback || p.established)
  }

  lemma AgreeMore(init: seq<Run>, last: Run, p: Packet)
    requires Coherent(p) && Web(p) && AcceptsAgree(init, p)
    ensures AcceptsAgree(init + [last], p)
  {
    var runs := init + [last];
    assert runs[..|runs| - 1] == init;
    assert AllAccepts(runs) == AllAccepts(init) + Appended(last);
    MatchAppend(AllAccepts(init), Appended(last), p);
    AppendedMatch(last, p);
    SomeAcceptsAppend(init, last, p);
  }

  lemma NothingAgrees(p: Packet)
    ensures AcceptsAgree([], p)
  {
  }

  lemma {:induction false} AllAcceptsMatch(runs: seq<Run>, p: Packet)
    requires Coherent(p) && Web(p)
    ensures AcceptsAgree(runs, p)
  {
    hide AcceptsAgree;
    if runs == [] {
      NothingAgrees(p);
    } else {
      var init, last := runs[..|runs| - 1], runs[|runs| - 1];
      AllAcceptsMatch(init, p);
      AgreeMore(init, last, p);
      assert runs == init + [last];
    }
  }

  // A run that gets to its drops has appended the rules for the loopback and for known connections.
  lemma {:induction false} DropsComeLast(runs: seq<Run>, p: Packet)
    requires Coherent(p) && Web(p) && runs != [] && Drops(runs[|runs| - 1]) != [] && (p.loopback || p.established)
    ensures SomeMatch(AllAccepts(runs), p)
  {
    var init, last := runs[..|runs| - 1], runs[|runs| - 1];
    AcceptsMembers(last.cfg, LOOPBACK);
    AcceptsMembers(last.cfg, ESTABLISHED);
    AppendedMatch(last, p);
    MatchAppend(AllAccepts(init), Appended(last), p);
  }

  // After any runs, cut short or not, exactly the direct web traffic is dropped that the drops of the last
  // run are for and that no run so far lets through.
  lemma {:induction false} DropsExactly(runs: seq<Run>, p: Packet)
    requires runs != [] && Coherent(p)
    ensures Decide(ChainAfter(runs), p) == DROP <==>
            && Dropped(Drops(runs[|runs| - 1]), p) && !p.loopback && !p.established
            && !SomeAccepts(runs, p)
  {
    var drops := Drops(runs[|runs| - 1]);
    ChainShape(runs);
    AllAcceptsAccept(runs);
    AcceptsThenDrops(AllAccepts(runs), drops, p);
    if Dropped(drops, p) {
      AllAcceptsMatch(runs, p);
      if p.loopback || p.established {
        DropsComeLast(runs, p);
      }
    }
  }

  // When the last run completes, the traffic dropped is all the direct web traffic not let through.
  lemma {:induction false} CompletedRunDropsExactly(runs: seq<Run>, p: Packet)
    requires runs != [] && Coherent(p) && Completes(runs[|runs| - 1])
    ensures Decide(ChainAfter(runs), p) == DROP <==>
            Web(p) && !p.loopback && !p.established && !SomeAccepts(runs, p)
  {
    DropsExactly(runs, p);
  }

  // A run leaves the web open to everything, with the drops of the run before it gone, exactly when
  // iptables refuses one of its accepting rules, such as that of the proxy, or its first drop.
  lemma {:induction false} OpenExactlyWhenCutShort(runs: seq<Run>)
    requires runs != []
    ensures var last := runs[|runs| - 1];
            (forall p | Coherent(p) :: Decide(ChainAfter(runs), p) == ACCEPT) <==>
              !Allowed(Accepts(last.cfg) + [DROP80], last.refused)
  {
    var last := runs[|runs| - 1];
    var p := Packet(TCP, {}, {"80"}, false, false);
    assert "80"[0] == '8' && "53"[0] == '5' && "443"[0] == '4';
    assert Coherent(p) && !SomeAccepts(runs, p);
    DropsExactly(runs, p);
    BeforeFirstDrop(last);
    forall q | Coherent(q) && Drops(last) == [] ensures Decide(ChainAfter(runs), q) == ACCEPT {
      DropsExactly(runs, q);
    }
  }

  lemma BeforeFirstDrop(run: Run)
    ensures Drops(run) == [] <==> !Allowed(Accepts(run.cfg) + [DROP80], run.refused)
    ensures Drops(run) != [] ==> DROP80 in Drops(run)
  {
    AllowedBoth(Accepts(run.cfg), [DROP80], run.refused);
    hide Accepts;
    BeforeDrops(run.refused);
    assert Allowed([DROP80], run.refused) <==> DROP80 !in run.refused;
  }

  lemma {:induction false} BeforeDrops(refused: set<Rule>)
    ensures Before(DROP_RULES, refused) ==
            if DROP80 in refused then [] else if DROP443 in refused then [DROP80] else DROP_RULES
  {
    assert DROP_RULES[..1] == [DROP80] && [DROP80][..0] == [];
    assert DROP_RULES[0] == DROP80 && DROP_RULES[1] == DROP443;
    assert Allowed(DROP_RULES, refused) <==> DROP80 !in refused && DROP443 !in refused;
    assert Allowed([DROP80], refused) <==> DROP80 !in refused;
  }

  // What the drops of the last run decide, once for a chain of runs and once with a run repeated.
  predicate DroppedUnless(drops: seq<Rule>, p: Packet, accepted: bool) {
    Dropped(drops, p) && !p.loopback && !p.established && !accepted
  }

  lemma {:induction false} RerunDecides(runs: seq<Run>, k: nat, p: Packet)
    requires k < |runs| && Coherent(p)
    ensures Decide(ChainAfter(runs + [runs[k]]), p) == DROP <==> DroppedUnless(Drops(runs[k]), p, SomeAccepts(runs, p))
    ensures Decide(ChainAfter(runs), p) == DROP <==> DroppedUnless(Drops(runs[|runs| - 1]), p, SomeAccepts(runs, p))
  {
    var more := runs + [runs[k]];
    assert more[|more| - 1] == runs[k];
    hide ChainAfter, Decide, Drops, Dropped;
    DropsExactly(runs, p);
    DropsExactly(more, p);
    SomeAcceptsAppend(runs, runs[k], p);
  }

  // Running an earlier configuration again decides every packet as before exactly when this run gets to
  // the same drops as the last one; so it always does where both complete.
  lemma {:induction false} RerunChangesNothingExactlyWhen(runs: seq<Run>, k: nat)
    requires k < |runs|
    ensures (forall p | Coherent(p) :: Decide(ChainAfter(runs + [runs[k]]), p) == Decide(ChainAfter(runs), p)) <==>
              Drops(runs[k]) == Drops(runs[|runs| - 1])
  {
    var a, b := Drops(runs[k]), Drops(runs[|runs| - 1]);
    if a == b {
      hide ChainAfter, Decide, Drops, Dropped;
      forall p | Coherent(p) ensures Decide(ChainAfter(runs + [runs[k]]), p) == Decide(ChainAfter(runs), p) {
        RerunDecides(runs, k, p);
      }
    } else {
      RerunDiffers(runs, k);
      hide ChainAfter, Decide, Drops, Dropped;
    }
  }

  lemma {:induction false} RerunDiffers(runs: seq<Run>, k: nat)
    requires k < |runs| && Drops(runs[k]) != Drops(runs[|runs| - 1])
    ensures exists p :: Coherent(p) && Decide(ChainAfter(runs + [runs[k]]), p) != Decide(ChainAfter(runs), p)
  {
    hide ChainAfter, Decide, Dropped, SomeAccepts, Accepts, Allowed;
    var port := DropsDifferAt(Drops(runs[k]), Drops(runs[|runs| - 1]));
    hide Drops;
    var p := Packet(TCP, {}, {port}, false, false);
    NowhereAccepted(runs, port);
    RerunDecides(runs, k, p);
  }

  lemma {:induction false} NowhereAccepted(runs: seq<Run>, port: string)
    ensures var p := Packet(TCP, {}, {port}, false, false); Coherent(p) && !SomeAccepts(runs, p)
  {
    assert "80"[0] == '8' && "53"[0] == '5' && "443"[0] == '4';
  }

  // Two prefixes of the drops differ on one of the ports.
  lemma DropsDifferAt(a: seq<Rule>, b: seq<Rule>) returns (port: string)
    requires a <= DROP_RULES && b <= DROP_RULES && a != b
    ensures port == "80" || port == "443"
    ensures Dropped(a, Packet(TCP, {}, {port}, false, false)) != Dropped(b, Packet(TCP, {}, {port}, false, false))
  {
    DropsDiffer();
    assert "80"[0] == '8' && "443"[0] == '4';
    port := if a == [] || b == [] then "80" else "443";
    DropsAre(a);
    DropsAre(b);
  }

  lemma DropsAre(drops: seq<Rule>)
    requires drops <= DROP_RULES
    ensures DROP80 in drops <==> |drops| >= 1
    ensures DROP443 in drops <==> |drops| == 2
  {
    DropsDiffer();
    assert DROP_RULES[0] == DROP80 && DROP_RULES[1] == DROP443;
    assert |drops| == 2 ==> drops[1] == DROP443;
    assert forall i | 0 <= i < |drops| :: drops[i] == DROP_RULES[i];
  }

  // A new configuration does not replace the old ones: the outcome is that of the new one alone exactly
  // for the packets that it accepts itself or that none before it accepted.
  lemma {:induction false} NewConfigDecidesExactlyWhen(runs: seq<Run>, run: Run, p: Packet)
    requires Coherent(p) && Web(p) && !p.loopback && !p.established && Completes(run)
    ensures Decide(ChainAfter(runs + [run]), p) == Decide(ChainAfter([run]), p) <==>
            AcceptedBy(run, p) || !SomeAccepts(runs, p)
  {
    CompletedRunDropsExactly(runs + [run], p);
    CompletedRunDropsExactly([run], p);
    SomeAcceptsAppend(runs, run, p);
    SomeAcceptsAppend([], run, p);
    assert [] + [run] == [run];
  }
}
