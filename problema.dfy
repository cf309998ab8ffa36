/**
 * `ProblemaService.resolverProblema`: read the LLM_PRIORITY setting, walk its
 * comma-separated provider names in order, probe each known provider's
 * liveness, and hand the problem to the first one that answers.  Its own
 * failures come back prefixed with "Error al resolver problema: "; the
 * chosen adapter's result, failure included, comes back untouched.
 */
module Problema {
  import opened Wrappers
  import Text
  import Mcp
  import OpenAI
  import Anthropic

  datatype Provider = OpenAIProvider | AnthropicProvider

  const ErrorPrefix := "Error al resolver problema: "
  const NotConfigured := "LLM_PRIORITY no está configurado"
  const AllInactive := "Todos los servicios LLM están inactivos"

  /** `!llmPriority` is false: the setting is present and not the empty string. */
  predicate Configured(setting: Option<string>) {
    setting.Some? && setting.value != ""
  }

  /** `parts.map(p => p.trim())` */
  function TrimAll(parts: seq<string>): (names: seq<string>)
    ensures |names| == |parts|
    ensures forall i :: 0 <= i < |parts| ==> names[i] == Text.Trim(parts[i])
  {
    if parts == [] then [] else [Text.Trim(parts[0])] + TrimAll(parts[1..])
  }

  /** `llmPriority.split(',').map(p => p.trim())` */
  function Priorities(setting: string): seq<string> {
    TrimAll(Text.Split(setting, ','))
  }

  /** A name that is already free of commas and of surrounding whitespace. */
  predicate Clean(name: string) {
    ',' !in name && (name == [] || (!Text.IsWhitespace(name[0]) && !Text.IsWhitespace(name[|name| - 1])))
  }

  /** Writing clean names with commas between them gives those names back. */
  lemma PrioritiesOfJoin(names: seq<string>)
    requires |names| >= 1
    requires forall i :: 0 <= i < |names| ==> Clean(names[i])
    ensures Priorities(Text.Join(names, ',')) == names
  {
    Text.SplitJoin(names, ',');
    TrimAllClean(names);
  }

  lemma {:induction false} TrimAllClean(names: seq<string>)
    requires forall i :: 0 <= i < |names| ==> Clean(names[i])
    ensures TrimAll(names) == names
  {
    if names != [] {
      Text.TrimUnchanged(names[0]);
      TrimAllClean(names[1..]);
    }
  }

  /** Every name the setting yields is comma-free and trimmed, whatever the setting. */
  lemma PrioritiesClean(setting: string)
    ensures forall i :: 0 <= i < |Priorities(setting)| ==> Clean(Priorities(setting)[i])
  {
    TrimAllOfClean(Text.Split(setting, ','));
  }

  lemma {:induction false} TrimAllOfClean(parts: seq<string>)
    requires forall i :: 0 <= i < |parts| ==> ',' !in parts[i]
    ensures forall i :: 0 <= i < |TrimAll(parts)| ==> Clean(TrimAll(parts)[i])
  {
    if parts != [] {
      TrimAllOfClean(parts[1..]);
      TrimClean(parts[0]);
      forall i | 0 <= i < |TrimAll(parts)|
        ensures Clean(TrimAll(parts)[i])
      {
        if i > 0 {
          assert TrimAll(parts)[i] == TrimAll(parts[1..])[i - 1];
        }
      }
    }
  }

  lemma TrimClean(part: string)
    requires ',' !in part
    ensures Clean(Text.Trim(part))
  {
    if ',' in Text.Trim(part) {
      Text.TrimKeeps(part, ',');
    }
  }

  /** `services[priority]` for the two own keys of the `services` object. */
  function Lookup(name: string): (p: Option<Provider>)
    ensures p == Some(OpenAIProvider) <==> name == "openai"
    ensures p == Some(AnthropicProvider) <==> name == "anthropic"
  {
    if name == "openai" then Some(OpenAIProvider)
    else if name == "anthropic" then Some(AnthropicProvider)
    else None
  }

  /** The provider a name denotes, if any, as a sequence of zero or one. */
  function Denotes(name: string): seq<Provider> {
    match Lookup(name)
    case Some(p) => [p]
    case None => []
  }

  /** The providers the names denote, in order; unknown names are skipped. */
  function Known(names: seq<string>): seq<Provider> {
    if names == [] then [] else Denotes(names[0]) + Known(names[1..])
  }

  /** Known distributes over concatenation: the order of the setting is kept. */
  lemma {:induction false} KnownConcat(a: seq<string>, b: seq<string>)
    ensures Known(a + b) == Known(a) + Known(b)
    decreases |a|
  {
    if a == [] {
      assert a + b == b;
    } else {
      assert (a + b)[0] == a[0];
      assert (a + b)[1..] == a[1..] + b;
      KnownConcat(a[1..], b);
    }
  }

  /** The known providers of the first i + 1 names, and of all of them. */
  lemma KnownAt(names: seq<string>, i: nat)
    requires i < |names|
    ensures Known(names[..i + 1]) == Known(names[..i]) + Denotes(names[i])
    ensures Known(names) == Known(names[..i + 1]) + Known(names[i + 1..])
  {
    KnownGrow(names[..i + 1]);
    assert names[..i + 1][..i] == names[..i];
    KnownConcat(names[..i + 1], names[i + 1..]);
    assert names[..i + 1] + names[i + 1..] == names;
  }

  lemma KnownGrow(names: seq<string>)
    requires names != []
    ensures Known(names) == Known(names[..|names| - 1]) + Denotes(names[|names| - 1])
  {
    var init := names[..|names| - 1];
    assert init + [names[|names| - 1]] == names;
    KnownConcat(init, [names[|names| - 1]]);
    KnownSingle(names[|names| - 1]);
  }

  lemma KnownSingle(name: string)
    ensures Known([name]) == Denotes(name)
  {
    assert [name][1..] == [];
  }

  /** A name that denotes no provider (an empty entry, a misspelling) is skipped without
      a trace, wherever it stands. */
  lemma KnownSkips(a: seq<string>, name: string, b: seq<string>)
    requires Lookup(name).None?
    ensures Known(a + [name] + b) == Known(a + b)
  {
    KnownConcat(a + [name], b);
    KnownConcat(a, [name]);
    KnownSingle(name);
    KnownConcat(a, b);
  }

  /** Which providers answer their liveness probe. */
  datatype Liveness = Liveness(openai: bool, anthropic: bool) {
    predicate Alive(p: Provider) {
      match p
      case OpenAIProvider => openai
      case AnthropicProvider => anthropic
    }
  }

  /** The first provider of `ps` that is alive. */
  function FirstAlive(ps: seq<Provider>, live: Liveness): (c: Option<Provider>)
    ensures c.Some? ==> c.value in ps && live.Alive(c.value)
    ensures c.None? ==> forall i :: 0 <= i < |ps| ==> !live.Alive(ps[i])
  {
    if ps == [] then None
    else if live.Alive(ps[0]) then Some(ps[0])
    else FirstAlive(ps[1..], live)
  }

  /** The providers probed: all of `ps` up to and including the first alive one. */
  function Probes(ps: seq<Provider>, live: Liveness): seq<Provider> {
    if ps == [] then []
    else if live.Alive(ps[0]) then [ps[0]]
    else [ps[0]] + Probes(ps[1..], live)
  }

  /** The probes are a prefix of the known providers in which only the last may be alive;
      it is alive exactly when a provider is chosen, and then it is the one chosen. */
  lemma {:induction false} ProbesShape(ps: seq<Provider>, live: Liveness)
    ensures Probes(ps, live) <= ps
    ensures forall i :: 0 <= i < |Probes(ps, live)| - 1 ==> !live.Alive(Probes(ps, live)[i])
    ensures FirstAlive(ps, live).Some? <==> Probes(ps, live) != [] && live.Alive(Probes(ps, live)[|Probes(ps, live)| - 1])
    ensures FirstAlive(ps, live).Some? ==> FirstAlive(ps, live).value == Probes(ps, live)[|Probes(ps, live)| - 1]
    ensures FirstAlive(ps, live).None? ==> Probes(ps, live) == ps
  {
    if ps != [] && !live.Alive(ps[0]) {
      ProbesShape(ps[1..], live);
      assert ps == [ps[0]] + ps[1..];
    }
  }

  /** Probing one more provider after only dead ones. */
  lemma {:induction false} ProbeNext(ps: seq<Provider>, p: Provider, live: Liveness)
    requires FirstAlive(ps, live).None?
    ensures FirstAlive(ps + [p], live) == (if live.Alive(p) then Some(p) else None)
    ensures Probes(ps + [p], live) == ps + [p]
    decreases |ps|
  {
    if ps != [] {
      assert (ps + [p])[1..] == ps[1..] + [p];
      ProbeNext(ps[1..], p, live);
    }
  }

  /** Dead providers at the front are probed one by one and then the rest is walked as
      if they were not there. */
  lemma {:induction false} DeadPrefix(ps: seq<Provider>, rest: seq<Provider>, live: Liveness)
    requires FirstAlive(ps, live).None?
    ensures FirstAlive(ps + rest, live) == FirstAlive(rest, live)
    ensures Probes(ps + rest, live) == ps + Probes(rest, live)
    decreases |ps|
  {
    if ps == [] {
      assert ps + rest == rest;
    } else {
      var tail := ps[1..];
      assert !live.Alive(ps[0]);
      assert FirstAlive(tail, live).None?;
      assert (ps + rest)[0] == ps[0] && (ps + rest)[1..] == tail + rest;
      DeadPrefix(tail, rest, live);
      assert Probes(ps + rest, live) == [ps[0]] + Probes(tail + rest, live);
      assert ps == [ps[0]] + tail;
    }
  }

  /** The providers of a setting in which one name comes up twice. */
  lemma KnownTwice(a: seq<string>, name: string, b: seq<string>, c: seq<string>)
    ensures Known(a + [name] + b + [name] + c)
              == Known(a) + (Denotes(name) + (Known(b) + (Denotes(name) + Known(c))))
  {
    var d := Denotes(name);
    calc {
      Known(a + [name] + b + [name] + c);
      { KnownConcat(a + [name] + b + [name], c); }
      Known(a + [name] + b + [name]) + Known(c);
      { KnownConcat(a + [name] + b, [name]); KnownSingle(name); }
      Known(a + [name] + b) + d + Known(c);
      { KnownConcat(a + [name], b); }
      Known(a + [name]) + Known(b) + d + Known(c);
      { KnownConcat(a, [name]); KnownSingle(name); }
      Known(a) + d + Known(b) + d + Known(c);
      Known(a) + (d + (Known(b) + (d + Known(c))));
    }
  }

  /** Nothing removes duplicates: a name whose provider was found dead is probed again
      when it comes up again in the setting. */
  lemma DuplicatesProbedAgain(a: seq<string>, name: string, b: seq<string>, c: seq<string>,
                              live: Liveness)
    requires Lookup(name).Some? && !live.Alive(Lookup(name).value)
    requires FirstAlive(Known(a), live).None? && FirstAlive(Known(b), live).None?
    ensures Probes(Known(a + [name] + b + [name] + c), live)
              == Known(a) + ([Lookup(name).value] + (Known(b) + ([Lookup(name).value] + Probes(Known(c), live))))
  {
    var p := Lookup(name).value;
    var ka, kb, kc := Known(a), Known(b), Known(c);
    KnownTwice(a, name, b, c);
    assert Denotes(name) == [p];
    assert FirstAlive([p], live).None? by { assert [p][1..] == []; }
    DeadPrefix([p], kc, live);
    DeadPrefix(kb, [p] + kc, live);
    DeadPrefix([p], kb + ([p] + kc), live);
    DeadPrefix(ka, [p] + (kb + ([p] + kc)), live);
  }

  /** Once an alive provider is among the first ones, what comes after does not matter. */
  lemma {:induction false} Prefixed(ps: seq<Provider>, rest: seq<Provider>, live: Liveness)
    requires FirstAlive(ps, live).Some?
    ensures FirstAlive(ps + rest, live) == FirstAlive(ps, live)
    ensures Probes(ps + rest, live) == Probes(ps, live)
  {
    assert ps != [];
    assert (ps + rest)[1..] == ps[1..] + rest;
    if !live.Alive(ps[0]) {
      Prefixed(ps[1..], rest, live);
    }
  }

  /** One iteration of the selection loop, after only dead providers among the first i
      names: the entry at i is skipped, or probed and then either chosen or found dead. */
  lemma ScanStep(names: seq<string>, i: nat, live: Liveness)
    requires i < |names|
    requires FirstAlive(Known(names[..i]), live).None?
    ensures Lookup(names[i]).None? ==> Known(names[..i + 1]) == Known(names[..i])
    ensures Lookup(names[i]).Some? ==>
              var probes := Known(names[..i]) + [Lookup(names[i]).value];
              && Known(names[..i + 1]) == probes
              && (live.Alive(Lookup(names[i]).value) ==>
                    FirstAlive(Known(names), live) == Lookup(names[i])
                    && Probes(Known(names), live) == probes)
              && (!live.Alive(Lookup(names[i]).value) ==> FirstAlive(probes, live).None?)
  {
    KnownAt(names, i);
    if Lookup(names[i]).Some? {
      var p := Lookup(names[i]).value;
      ProbeNext(Known(names[..i]), p, live);
      if live.Alive(p) {
        Prefixed(Known(names[..i]) + [p], Known(names[i + 1..]), live);
      }
    }
  }

  /** The provider a configured setting hands the problem to. */
  function Choice(setting: Option<string>, live: Liveness): Option<Provider> {
    if Configured(setting) then FirstAlive(Known(Priorities(setting.value)), live) else None
  }

  /** The providers `resolverProblema` has sent `ping` to, in order. */
  class ProbeLog {
    var entries: seq<Provider>

    constructor ()
      ensures entries == []
    {
      entries := [];
    }
  }

  class ProblemaService {
    /** `config.llm.priority`, None when the variable is not set. */
    const setting: Option<string>
    const openai: OpenAI.Service
    const anthropic: Anthropic.Service
    const pinged: ProbeLog

    constructor (setting: Option<string>, openai: OpenAI.Service, anthropic: Anthropic.Service)
      ensures this.setting == setting && this.openai == openai && this.anthropic == anthropic
      ensures fresh(pinged) && pinged.entries == []
    {
      this.setting := setting;
      this.openai := openai;
      this.anthropic := anthropic;
      this.pinged := new ProbeLog();
    }

    /** What every probe of each provider reports. */
    function Live(): Liveness {
      Liveness(openai.reachable, anthropic.reachable)
    }

    /** `services[priority].ping()` */
    method Ping(p: Provider) returns (alive: bool)
      modifies pinged
      ensures alive == Live().Alive(p)
      ensures pinged.entries == old(pinged.entries) + [p]
    {
      match p {
        case OpenAIProvider => alive := openai.Ping();
        case AnthropicProvider => alive := anthropic.Ping();
      }
      pinged.entries := pinged.entries + [p];
    }

    /** The `for` loop over the names: probe each known provider in order and stop at the
        first alive one. */
    method Select(names: seq<string>) returns (chosen: Option<Provider>)
      modifies pinged
      ensures chosen == FirstAlive(Known(names), Live())
      ensures pinged.entries == old(pinged.entries) + Probes(Known(names), Live())
    {
      ghost var probes := [];
      for i := 0 to |names|
        invariant probes == Known(names[..i])
        invariant FirstAlive(probes, Live()).None?
        invariant pinged.entries == old(pinged.entries) + probes
      {
        ScanStep(names, i, Live());
        var entry := Lookup(names[i]);
        if entry.Some? {
          var alive := Ping(entry.value);
          probes := probes + [entry.value];
          if alive {
            return Some(entry.value);
          }
        }
      }
      assert names[..|names|] == names;
      ProbesShape(probes, Live());
      chosen := None;
    }

    /** `services[priority].resolverProblemaConLLM(problem)`, returned as it is; the
        other adapter's vendor, and its server when that is a separate one, are left alone. */
    method Delegate(problem: string, p: Provider) returns (r: Result<string>)
      modifies openai.vendor, openai.mcp, anthropic.vendor, anthropic.mcp
      ensures old(openai.vendor.sent) <= openai.vendor.sent
      ensures old(anthropic.vendor.sent) <= anthropic.vendor.sent
      ensures p == OpenAIProvider ==>
                && OpenAI.Resolved(problem, old(openai.vendor.Pending()), openai.vendor.outage,
                                   openai.mcp.answer, openai.mcp.catalog, r,
                                   openai.vendor.sent[|old(openai.vendor.sent)|..],
                                   old(openai.mcp.log), openai.mcp.log)
                && anthropic.vendor.sent == old(anthropic.vendor.sent)
                && (anthropic.mcp != openai.mcp ==> anthropic.mcp.log == old(anthropic.mcp.log))
      ensures p == AnthropicProvider ==>
                && Anthropic.Resolved(problem, old(anthropic.vendor.Pending()), anthropic.vendor.outage,
                                      anthropic.mcp.answer, anthropic.mcp.catalog, r,
                                      anthropic.vendor.sent[|old(anthropic.vendor.sent)|..],
                                      old(anthropic.mcp.log), anthropic.mcp.log)
                && openai.vendor.sent == old(openai.vendor.sent)
                && (openai.mcp != anthropic.mcp ==> openai.mcp.log == old(openai.mcp.log))
    {
      match p {
        case OpenAIProvider =>
          ghost var sent, log := openai.vendor.sent, anthropic.mcp.log;
          r := openai.ResolveWithLLM(problem);
          assert anthropic.mcp != openai.mcp ==> anthropic.mcp.log == log;
          assert openai.vendor.sent[..|sent|] == sent;
        case AnthropicProvider =>
          ghost var sent, log := anthropic.vendor.sent, openai.mcp.log;
          r := anthropic.ResolveWithLLM(problem);
          assert openai.mcp != anthropic.mcp ==> openai.mcp.log == log;
          assert anthropic.vendor.sent[..|sent|] == sent;
      }
    }

    /** `resolverProblema`: the configured order, the first alive provider, and that
        provider's own resolution returned as it is. */
    method Resolve(problem: string) returns (r: Result<string>)
      modifies pinged, openai.vendor, openai.mcp, anthropic.vendor, anthropic.mcp
      ensures !Configured(setting) ==> r == Failure(ErrorPrefix + NotConfigured) && pinged.entries == old(pinged.entries)
      ensures Configured(setting) ==>
                pinged.entries == old(pinged.entries) + Probes(Known(Priorities(setting.value)), Live())
      ensures Configured(setting) && Choice(setting, Live()).None? ==>
                r == Failure(ErrorPrefix + AllInactive)
      ensures old(openai.vendor.sent) <= openai.vendor.sent
      ensures old(anthropic.vendor.sent) <= anthropic.vendor.sent
      ensures Choice(setting, Live()) == Some(OpenAIProvider) ==>
                && OpenAI.Resolved(problem, old(openai.vendor.Pending()), openai.vendor.outage,
                                   openai.mcp.answer, openai.mcp.catalog, r,
                                   openai.vendor.sent[|old(openai.vendor.sent)|..],
                                   old(openai.mcp.log), openai.mcp.log)
                && anthropic.vendor.sent == old(anthropic.vendor.sent)
                && (anthropic.mcp != openai.mcp ==> anthropic.mcp.log == old(anthropic.mcp.log))
      ensures Choice(setting, Live()) == Some(AnthropicProvider) ==>
                && Anthropic.Resolved(problem, old(anthropic.vendor.Pending()), anthropic.vendor.outage,
                                      anthropic.mcp.answer, anthropic.mcp.catalog, r,
                                      anthropic.vendor.sent[|old(anthropic.vendor.sent)|..],
                                      old(anthropic.mcp.log), anthropic.mcp.log)
                && openai.vendor.sent == old(openai.vendor.sent)
                && (openai.mcp != anthropic.mcp ==> openai.mcp.log == old(openai.mcp.log))
      ensures Choice(setting, Live()).None? ==>
                unchanged(openai.vendor, openai.mcp, anthropic.vendor, anthropic.mcp)
    {
      if !Configured(setting) {
        return Failure(ErrorPrefix + NotConfigured);
      }
      var names := Priorities(setting.value);
      var chosen := Select(names);
      assert unchanged(openai.vendor, openai.mcp, anthropic.vendor, anthropic.mcp);
      assert Choice(setting, Live()) == chosen;
      match chosen {
        case None =>
          r := Failure(ErrorPrefix + AllInactive);
        case Some(p) =>
          r := Delegate(problem, p);
      }
    }
  }

  // ---------------------------------------------------------------------------
  // The lookup as written: `services[priority]` on a plain object literal

  /** The property names every object literal inherits from `Object.prototype`. */
  const InheritedNames: set<string> := {
    "constructor", "hasOwnProperty", "isPrototypeOf", "propertyIsEnumerable",
    "toLocaleString", "toString", "valueOf", "__proto__",
    "__defineGetter__", "__defineSetter__", "__lookupGetter__", "__lookupSetter__"
  }

  /** The message of the TypeError thrown by calling `ping` on an inherited member. */
  const PingNotAFunction := "services[priority].ping is not a function"

  /** What `services[priority]` finds: one of the two services, an inherited member
      (a function or `Object.prototype`, both truthy), or nothing. */
  datatype Entry = Service(provider: Provider) | Inherited | Absent

  function LookupAsWritten(name: string): (e: Entry)
    ensures e.Inherited? <==> name in InheritedNames
    ensures e.Service? <==> Lookup(name).Some?
    ensures e.Service? ==> e.provider == Lookup(name).value
  {
    if name in InheritedNames then Inherited
    else match Lookup(name)
      case Some(p) => Service(p)
      case None => Absent
  }

  datatype Selection = Chosen(provider: Provider) | Exhausted | Crashed(message: string)

  /** The loop as written: an inherited member passes the truthiness test and calling its
      `ping` throws, which ends the whole resolution. */
  function SelectAsWritten(names: seq<string>, live: Liveness): Selection {
    if names == [] then Exhausted
    else match LookupAsWritten(names[0])
      case Inherited => Crashed(PingNotAFunction)
      case Service(p) => if live.Alive(p) then Chosen(p) else SelectAsWritten(names[1..], live)
      case Absent => SelectAsWritten(names[1..], live)
  }

  /** Without inherited names the code as written chooses exactly as the corrected lookup. */
  lemma {:induction false} AsWrittenAgrees(names: seq<string>, live: Liveness)
    requires forall i :: 0 <= i < |names| ==> names[i] !in InheritedNames
    ensures SelectAsWritten(names, live) ==
              (match FirstAlive(Known(names), live) case Some(p) => Chosen(p) case None => Exhausted)
  {
    if names != [] {
      AsWrittenAgrees(names[1..], live);
      AsWrittenStep(names, live);
      var rest := Known(names[1..]);
      assert Known(names) == Denotes(names[0]) + rest;
      match Lookup(names[0]) {
        case None =>
          assert Known(names) == rest;
        case Some(p) =>
          assert Known(names)[0] == p && Known(names)[1..] == rest;
      }
    }
  }

  /** One step of the loop as written on a name that is not inherited. */
  lemma AsWrittenStep(names: seq<string>, live: Liveness)
    requires names != [] && names[0] !in InheritedNames
    ensures SelectAsWritten(names, live) ==
              match Lookup(names[0])
              case Some(p) => if live.Alive(p) then Chosen(p) else SelectAsWritten(names[1..], live)
              case None => SelectAsWritten(names[1..], live)
  {
    var e := LookupAsWritten(names[0]);
    assert !e.Inherited?;
  }

  /** The setting of the counterexample parses into its two entries. */
  lemma InheritedNameParses()
    ensures Priorities("toString,openai") == ["toString", "openai"]
  {
    var names := ["toString", "openai"];
    assert Clean(names[0]) && Clean(names[1]);
    assert Text.Join(names, ',') == "toString,openai" by {
      assert names[1..] == ["openai"];
      assert Text.Join(names[1..], ',') == "openai";
    }
    PrioritiesOfJoin(names);
  }

  /** "toString,openai" with OpenAI alive: the corrected lookup skips the unknown name
      and chooses OpenAI, the code as written fails the whole request. */
  lemma InheritedNameCrashes()
    ensures Priorities("toString,openai") == ["toString", "openai"]
    ensures FirstAlive(Known(["toString", "openai"]), Liveness(true, false)) == Some(OpenAIProvider)
    ensures SelectAsWritten(["toString", "openai"], Liveness(true, false)) == Crashed(PingNotAFunction)
  {
    InheritedNameParses();
    assert Known(["toString", "openai"]) == [OpenAIProvider] by {
      assert ["toString", "openai"][1..] == ["openai"];
    }
  }
}
