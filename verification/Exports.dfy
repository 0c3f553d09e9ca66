// Export registry and dispatcher (crates/harnx-a2a-server/src/exports.rs, routes.rs).
//
// Loading one agent is a parameter: a spec resolves to an agent name or fails. The order of an
// export's lookup keys is not modelled; a router is named by the export it serves.
module Exports {
  import opened Options

  datatype Spec = Spec(name: string, alias: Option<string>)

  datatype Export = Export(publicName: string, agent: string, lookupKeys: seq<string>)

  // `resolve` parses, validates and loads an agent; `sanitize` is sanitize_for_tool_name.
  datatype Setup = Setup(resolve: Spec -> Option<string>, sanitize: string -> string)

  datatype Resolution =
    | Resolved(exports: seq<Export>)
    | Unresolvable(spec: Spec)
    | Collision(key: string, existing: string, claimant: string)

  // ----- Resolving -----

  function Deduplicated(keys: seq<string>): (r: seq<string>)
    ensures forall k :: k in r <==> k in keys
    ensures forall i, j :: 0 <= i < j < |r| ==> r[i] != r[j]
  {
    if keys == [] then []
    else
      var front := Deduplicated(keys[..|keys| - 1]);
      assert keys == keys[..|keys| - 1] + [keys[|keys| - 1]];
      if keys[|keys| - 1] in front then front else front + [keys[|keys| - 1]]
  }

  function LookupKeys(agent: string, sanitized: string, spec: Spec): seq<string> {
    Deduplicated([agent, sanitized] + if spec.alias.Some? then [spec.alias.value] else [])
  }

  function ExportOf(agent: string, spec: Spec, setup: Setup): Export {
    var sanitized := setup.sanitize(agent);
    Export(if spec.alias.Some? then spec.alias.value else sanitized, agent, LookupKeys(agent, sanitized, spec))
  }

  predicate AllResolve(specs: seq<Spec>, setup: Setup) {
    forall i :: 0 <= i < |specs| ==> setup.resolve(specs[i]).Some?
  }

  function ExportsOf(specs: seq<Spec>, setup: Setup): (exports: seq<Export>)
    requires AllResolve(specs, setup)
    ensures |exports| == |specs|
  {
    if specs == [] then []
    else
      var last := specs[|specs| - 1];
      ExportsOf(specs[..|specs| - 1], setup) + [ExportOf(setup.resolve(last).value, last, setup)]
  }

  // No two exports answer to the same name.
  ghost predicate Disjoint(exports: seq<Export>) {
    forall i, j :: 0 <= i < j < |exports| ==> Apart(exports[i], exports[j])
  }

  ghost predicate Apart(a: Export, b: Export) {
    forall key :: key in a.lookupKeys ==> key !in b.lookupKeys
  }

  ghost predicate NoRepeats(e: Export) {
    forall i, j :: 0 <= i < j < |e.lookupKeys| ==> e.lookupKeys[i] != e.lookupKeys[j]
  }

  // The last export and an earlier one claim `key`.
  ghost predicate Collides(exports: seq<Export>, key: string, existing: string, claimant: string) {
    exports != [] && var last := exports[|exports| - 1];
    && key in last.lookupKeys && claimant == last.publicName
    && exists i :: 0 <= i < |exports| - 1 && key in exports[i].lookupKeys && existing == exports[i].publicName
  }

  // The registry holds the keys of the exports so far, each with its owner's public name.
  ghost predicate Registers(registry: map<string, string>, exports: seq<Export>) {
    && (forall key :: key in registry ==>
          exists i :: 0 <= i < |exports| && key in exports[i].lookupKeys && registry[key] == exports[i].publicName)
    && (forall i, key :: 0 <= i < |exports| && key in exports[i].lookupKeys ==> key in registry)
  }

  method Register(registry: map<string, string>, e: Export, ghost exports: seq<Export>)
    returns (longer: map<string, string>, clash: Option<string>)
    requires Registers(registry, exports) && NoRepeats(e)
    ensures clash.Some? ==> clash.value in registry && clash.value in e.lookupKeys && longer == registry
    ensures clash.None? ==> forall i :: 0 <= i < |exports| ==> Apart(exports[i], e)
    ensures clash.None? ==> Registers(longer, exports + [e])
  {
    longer := registry;
    for k := 0 to |e.lookupKeys|
      invariant forall key :: key in longer <==> key in registry || key in e.lookupKeys[..k]
      invariant forall key :: key in registry ==> longer[key] == registry[key]
      invariant forall key :: key in longer && key !in registry ==> longer[key] == e.publicName
      invariant forall key :: key in e.lookupKeys[..k] ==> key !in registry
    {
      var key := e.lookupKeys[k];
      if key in longer {
        assert key !in e.lookupKeys[..k];
        return registry, Some(key);
      }
      longer := longer[key := e.publicName];
    }
    assert e.lookupKeys[..|e.lookupKeys|] == e.lookupKeys;
    RegistersOneMore(registry, longer, exports, e);
    return longer, None;
  }

  lemma RegistersOneMore(
    registry: map<string, string>, longer: map<string, string>, exports: seq<Export>, e: Export)
    requires Registers(registry, exports)
    requires forall key :: key in longer <==> key in registry || key in e.lookupKeys
    requires forall key :: key in registry ==> longer[key] == registry[key]
    requires forall key :: key in longer && key !in registry ==> longer[key] == e.publicName
    ensures Registers(longer, exports + [e])
  {
    var all := exports + [e];
    forall key | key in longer
      ensures exists i :: 0 <= i < |all| && key in all[i].lookupKeys && longer[key] == all[i].publicName
    {
      if key in registry {
        var i :| 0 <= i < |exports| && key in exports[i].lookupKeys && registry[key] == exports[i].publicName;
        assert all[i] == exports[i];
      } else {
        assert all[|exports|] == e;
      }
    }
  }

  lemma {:induction false} ExportsOfPrefix(specs: seq<Spec>, setup: Setup, n: nat)
    requires AllResolve(specs, setup) && n <= |specs|
    ensures ExportsOf(specs[..n], setup) == ExportsOf(specs, setup)[..n]
    decreases |specs|
  {
    if n < |specs| {
      assert specs[..|specs| - 1][..n] == specs[..n];
      ExportsOfPrefix(specs[..|specs| - 1], setup, n);
    } else {
      assert specs[..n] == specs;
    }
  }

  // What resolving the first n specs has come to.
  ghost predicate ResolvedSoFar(
    specs: seq<Spec>, setup: Setup, n: nat, exports: seq<Export>, registry: map<string, string>)
    requires n <= |specs|
  {
    && AllResolve(specs[..n], setup) && exports == ExportsOf(specs[..n], setup)
    && Disjoint(exports) && Registers(registry, exports)
  }

  lemma NextExport(specs: seq<Spec>, setup: Setup, n: nat)
    requires n < |specs| && AllResolve(specs[..n], setup) && setup.resolve(specs[n]).Some?
    ensures AllResolve(specs[..n + 1], setup)
    ensures ExportsOf(specs[..n + 1], setup)
         == ExportsOf(specs[..n], setup) + [ExportOf(setup.resolve(specs[n]).value, specs[n], setup)]
  {
    assert specs[..n + 1][..n] == specs[..n] && specs[..n + 1][n] == specs[n];
  }

  lemma DisjointOneMore(exports: seq<Export>, e: Export)
    requires Disjoint(exports) && forall i :: 0 <= i < |exports| ==> Apart(exports[i], e)
    ensures Disjoint(exports + [e])
  {}

  // Resolution succeeds exactly when every spec resolves and no two exports share a key; then it is
  // the list of exports. Otherwise it names the first fault: the first spec that does not resolve, or
  // the first whose export claims a key an earlier one has, and the two public names, if that is first.
  method ResolveExports(specs: seq<Spec>, setup: Setup) returns (result: Resolution)
    ensures result.Resolved? <==> AllResolve(specs, setup) && Disjoint(ExportsOf(specs, setup))
    ensures result.Resolved? ==> result.exports == ExportsOf(specs, setup)
    ensures result.Unresolvable? ==> UnresolvableIn(specs, setup, result.spec)
    ensures result.Collision? ==> CollisionIn(specs, setup, result.key, result.existing, result.claimant)
  {
    var exports: seq<Export> := [];
    var registry: map<string, string> := map[];
    for n := 0 to |specs|
      invariant ResolvedSoFar(specs, setup, n, exports, registry)
    {
      var agent := setup.resolve(specs[n]);
      if agent.None? {
        assert FineUpTo(specs, setup, n);
        return Unresolvable(specs[n]);
      }
      var e := ExportOf(agent.value, specs[n], setup);
      NextExport(specs, setup, n);
      var longer, clash := Register(registry, e, exports);
      if clash.Some? {
        CollisionFound(specs, setup, n, exports, e, registry, clash.value);
        return Collision(clash.value, registry[clash.value], e.publicName);
      }
      DisjointOneMore(exports, e);
      registry := longer;
      exports := exports + [e];
    }
    assert specs[..|specs|] == specs;
    return Resolved(exports);
  }

  ghost predicate FineUpTo(specs: seq<Spec>, setup: Setup, n: nat)
    requires n <= |specs|
  {
    AllResolve(specs[..n], setup) && Disjoint(ExportsOf(specs[..n], setup))
  }

  ghost predicate UnresolvableIn(specs: seq<Spec>, setup: Setup, spec: Spec) {
    exists n :: 0 <= n < |specs| && FineUpTo(specs, setup, n) && spec == specs[n] && setup.resolve(spec).None?
  }

  ghost predicate CollisionIn(specs: seq<Spec>, setup: Setup, key: string, existing: string, claimant: string) {
    exists n :: 0 <= n < |specs| && FineUpTo(specs, setup, n) && AllResolve(specs[..n + 1], setup)
                && Collides(ExportsOf(specs[..n + 1], setup), key, existing, claimant)
  }

  lemma CollisionFound(
    specs: seq<Spec>, setup: Setup, n: nat, exports: seq<Export>, e: Export, registry: map<string, string>,
    key: string)
    requires n < |specs| && FineUpTo(specs, setup, n) && AllResolve(specs[..n + 1], setup)
    requires |exports| == n && ExportsOf(specs[..n + 1], setup) == exports + [e]
    requires Registers(registry, exports) && key in registry && key in e.lookupKeys
    ensures CollisionIn(specs, setup, key, registry[key], e.publicName)
    ensures AllResolve(specs, setup) ==> !Disjoint(ExportsOf(specs, setup))
  {
    var all := exports + [e];
    var i :| 0 <= i < |exports| && key in exports[i].lookupKeys && registry[key] == exports[i].publicName;
    assert all[i] == exports[i] && all[n] == e;
    assert Collides(ExportsOf(specs[..n + 1], setup), key, registry[key], e.publicName);
    if AllResolve(specs, setup) {
      ExportsOfPrefix(specs, setup, n + 1);
      var whole := ExportsOf(specs, setup);
      assert whole[..n + 1] == all;
      assert whole[i] == all[i] && whole[n] == all[n];
      assert !Apart(whole[i], whole[n]);
    }
  }

  // ----- Looking up -----

  // lookup_export: the first export that answers to the name.
  function LookupExport(exports: seq<Export>, name: string): Option<Export> {
    if exports == [] then None
    else if name in exports[0].lookupKeys then Some(exports[0])
    else LookupExport(exports[1..], name)
  }

  lemma {:induction false} LookupFinds(exports: seq<Export>, name: string, i: nat)
    requires Disjoint(exports) && i < |exports| && name in exports[i].lookupKeys
    ensures LookupExport(exports, name) == Some(exports[i])
    decreases |exports|
  {
    if i > 0 {
      assert Apart(exports[0], exports[i]);
      assert Disjoint(exports[1..]) by {
        forall j, k | 0 <= j < k < |exports[1..]|
          ensures Apart(exports[1..][j], exports[1..][k])
        {
          assert Apart(exports[j + 1], exports[k + 1]);
        }
      }
      LookupFinds(exports[1..], name, i - 1);
    }
  }

  lemma {:induction false} LookupMisses(exports: seq<Export>, name: string)
    requires forall i :: 0 <= i < |exports| ==> name !in exports[i].lookupKeys
    ensures LookupExport(exports, name) == None
  {
    if exports != [] {
      LookupMisses(exports[1..], name);
    }
  }

  // The routers of the first n exports: a later export takes over a key it shares.
  ghost predicate Routes(routers: map<string, Export>, exports: seq<Export>, n: nat)
    requires n <= |exports|
  {
    && (forall key :: key in routers ==>
          exists i :: 0 <= i < n && key in exports[i].lookupKeys && routers[key] == exports[i])
    && (forall i, key :: 0 <= i < n && key in exports[i].lookupKeys ==> key in routers)
  }

  // router_with
  method BuildRouters(exports: seq<Export>) returns (routers: map<string, Export>)
    ensures Routes(routers, exports, |exports|)
  {
    routers := map[];
    for n := 0 to |exports|
      invariant Routes(routers, exports, n)
    {
      var keys := exports[n].lookupKeys;
      ghost var before := routers;
      for k := 0 to |keys|
        invariant forall key :: key in routers <==> key in before || key in keys[..k]
        invariant forall key :: key in routers ==>
                    routers[key] == if key in keys[..k] then exports[n] else before[key]
      {
        routers := routers[keys[k] := exports[n]];
      }
      RoutesOneMore(before, routers, exports, n);
    }
  }

  lemma RoutesOneMore(before: map<string, Export>, routers: map<string, Export>, exports: seq<Export>, n: nat)
    requires n < |exports| && Routes(before, exports, n)
    requires forall key :: key in routers <==> key in before || key in exports[n].lookupKeys
    requires forall key :: key in routers ==>
               routers[key] == if key in exports[n].lookupKeys then exports[n] else before[key]
    ensures Routes(routers, exports, n + 1)
  {}

  // Once resolution has succeeded, the dispatcher and the linear lookup agree on every name.
  lemma DispatcherAgreesWithLookup(exports: seq<Export>, routers: map<string, Export>, name: string)
    requires Disjoint(exports) && Routes(routers, exports, |exports|)
    ensures LookupExport(exports, name) == if name in routers then Some(routers[name]) else None
  {
    if name in routers {
      var i :| 0 <= i < |exports| && name in exports[i].lookupKeys && routers[name] == exports[i];
      LookupFinds(exports, name, i);
    } else {
      LookupMisses(exports, name);
    }
  }

  // The keys of an export: its agent's name, that name sanitised, and its alias.
  ghost predicate IsKey(key: string, agent: string, spec: Spec, setup: Setup) {
    key == agent || key == setup.sanitize(agent) || Some(key) == spec.alias
  }

  // An export publishes its alias, or without one its agent's sanitised name, and exactly that, the
  // agent name itself and the sanitised name lead to it.
  lemma PublishedNamesRouteBack(specs: seq<Spec>, setup: Setup, routers: map<string, Export>, i: nat)
    requires AllResolve(specs, setup) && Disjoint(ExportsOf(specs, setup)) && i < |specs|
    requires Routes(routers, ExportsOf(specs, setup), |specs|)
    ensures var e := ExportsOf(specs, setup)[i]; var agent := setup.resolve(specs[i]).value;
      && e.agent == agent
      && e.publicName == (if specs[i].alias.Some? then specs[i].alias.value else setup.sanitize(agent))
      && IsKey(e.publicName, agent, specs[i], setup)
      && forall name :: IsKey(name, agent, specs[i], setup) <==> name in routers && routers[name] == e
  {
    var exports := ExportsOf(specs, setup);
    ExportAt(specs, setup, i);
    forall name: string
      ensures name in exports[i].lookupKeys <==> name in routers && routers[name] == exports[i]
    {
      KeysLeadToTheirOwner(exports, routers, name, i);
    }
    PublishedKeys(exports[i].agent, specs[i], setup);
  }

  lemma ExportAt(specs: seq<Spec>, setup: Setup, i: nat)
    requires AllResolve(specs, setup) && i < |specs|
    ensures ExportsOf(specs, setup)[i] == ExportOf(setup.resolve(specs[i]).value, specs[i], setup)
  {
    ExportsOfPrefix(specs, setup, i + 1);
    assert ExportsOf(specs, setup)[..i + 1][i] == ExportsOf(specs, setup)[i] && specs[..i + 1][i] == specs[i];
  }

  lemma KeysLeadToTheirOwner(exports: seq<Export>, routers: map<string, Export>, name: string, i: nat)
    requires Disjoint(exports) && Routes(routers, exports, |exports|) && i < |exports|
    ensures name in exports[i].lookupKeys <==> name in routers && routers[name] == exports[i]
  {
    if name in exports[i].lookupKeys {
      DispatcherAgreesWithLookup(exports, routers, name);
      LookupFinds(exports, name, i);
    }
  }

  lemma PublishedKeys(agent: string, spec: Spec, setup: Setup)
    ensures var e := ExportOf(agent, spec, setup);
      forall key :: key in e.lookupKeys <==> IsKey(key, agent, spec, setup)
  {}

  // ----- Rewriting the path -----

  // Rust's `path.splitn(n, c)`.
  function SplitN(text: string, c: char, n: nat): (pieces: seq<string>)
    requires n > 0
    decreases n, |text|
  {
    if n == 1 || c !in text then [text]
    else
      var k := IndexOf(text, c);
      [text[..k]] + SplitN(text[k + 1..], c, n - 1)
  }

  function IndexOf(text: string, c: char): (k: nat)
    requires c in text
    ensures k < |text| && text[k] == c && c !in text[..k]
  {
    if text[0] == c then 0 else 1 + IndexOf(text[1..], c)
  }

  function Remainder(path: string): string {
    var pieces := SplitN(path, '/', 4);
    if |pieces| > 3 then pieces[3] else ""
  }

  function Rewritten(path: string, query: Option<string>): string {
    "/" + Remainder(path) + if query.Some? then "?" + query.value else ""
  }

  lemma SplitFirst(head: string, rest: string, c: char, n: nat)
    requires n > 1 && c !in head
    ensures SplitN(head + [c] + rest, c, n) == [head] + SplitN(rest, c, n - 1)
  {
    var text := head + [c] + rest;
    assert text[|head|] == c;
    var k := IndexOf(text, c);
    assert forall i :: 0 <= i < |head| ==> text[i] == head[i];
    forall j | |head| < j <= |text|
      ensures c in text[..j]
    {
      assert text[..j][|head|] == c;
    }
    assert text[..k] == head && text[k + 1..] == rest;
  }

  lemma SplitOne(text: string, c: char, n: nat)
    requires n > 0 && (n == 1 || c !in text)
    ensures SplitN(text, c, n) == [text]
  {}

  lemma SplitNext(head: string, tail: string, c: char, n: nat, pieces: seq<string>)
    requires n > 1 && c !in head && SplitN(tail, c, n - 1) == pieces
    ensures SplitN(head + [c] + tail, c, n) == [head] + pieces
  {
    SplitFirst(head, tail, c, n);
  }

  // Three separators cut off three pieces; n is the 4 of `splitn`.
  lemma Pieces(a: string, b: string, segment: string, rest: string, n: nat)
    requires '/' !in a && '/' !in b && '/' !in segment && n == 4
    ensures SplitN(a + ['/'] + (b + ['/'] + (segment + ['/'] + rest)), '/', n)
         == [a] + ([b] + ([segment] + [rest]))
  {
    SplitOne(rest, '/', n - 3);
    SplitNext(segment, rest, '/', n - 2, [rest]);
    var inner := segment + ['/'] + rest;
    SplitNext(b, inner, '/', n - 1, [segment] + [rest]);
    SplitNext(a, b + ['/'] + inner, '/', n, [b] + ([segment] + [rest]));
  }

  lemma ShortPieces(a: string, b: string, segment: string, n: nat)
    requires '/' !in a && '/' !in b && '/' !in segment && n == 4
    ensures SplitN(a + ['/'] + (b + ['/'] + segment), '/', n) == [a] + ([b] + [segment])
  {
    SplitOne(segment, '/', n - 2);
    SplitNext(b, segment, '/', n - 1, [segment]);
    SplitNext(a, b + ['/'] + segment, '/', n, [b] + [segment]);
  }

  lemma RemainderOf(path: string, pieces: seq<string>, n: nat)
    requires n == 4 && SplitN(path, '/', n) == pieces
    ensures Remainder(path) == if |pieces| > 3 then pieces[3] else ""
  {}

  lemma PathShape(agents: string, segment: string, rest: string)
    ensures ['/'] + agents + ['/'] + segment + ['/'] + rest
         == [] + ['/'] + (agents + ['/'] + (segment + ['/'] + rest))
    ensures ['/'] + agents + ['/'] + segment == [] + ['/'] + (agents + ['/'] + segment)
  {}

  lemma PrefixIsStrippedFrom(agents: string, segment: string, rest: string)
    requires '/' !in agents && '/' !in segment
    ensures Remainder(['/'] + agents + ['/'] + segment + ['/'] + rest) == rest
    ensures Remainder(['/'] + agents + ['/'] + segment) == ""
  {
    Pieces([], agents, segment, rest, 4);
    ShortPieces([], agents, segment, 4);
    PathShape(agents, segment, rest);
    RemainderOf(['/'] + agents + ['/'] + segment + ['/'] + rest, [[]] + ([agents] + ([segment] + [rest])), 4);
    RemainderOf(['/'] + agents + ['/'] + segment, [[]] + ([agents] + [segment]), 4);
  }

  // Below an export, exactly what follows its raw segment is passed on, whatever is in the rest and
  // however the segment is percent-encoded; the query is untouched.
  lemma PrefixIsStripped(segment: string, rest: string, query: Option<string>)
    requires '/' !in segment
    ensures Remainder("/agents/" + segment + "/" + rest) == rest
    ensures Remainder("/agents/" + segment) == ""
    ensures Rewritten("/agents/" + segment + "/" + rest, query)
         == "/" + rest + (if query.Some? then "?" + query.value else "")
  {
    PrefixIsStrippedFrom("agents", segment, rest);
    assert "/agents/" == ['/'] + "agents" + ['/'];
  }
}
