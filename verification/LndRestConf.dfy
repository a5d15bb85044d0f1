// What LNbits needs of lnd.conf for REST: missing lines are inserted, nothing is removed.
module LndRestConf {
  import opened Text
  import opened LndConf

  // A header in any letter case.
  predicate IsAnyHeader(line: string) {
    EqualFold(Trim(line), APPLICATION_OPTIONS)
  }

  function AnyHeaderAt(lines: seq<string>): (i: nat)
    ensures i <= |lines| && (i < |lines| ==> IsAnyHeader(lines[i])) && forall j :: 0 <= j < i ==> !IsAnyHeader(lines[j])
  {
    if lines == [] || IsAnyHeader(lines[0]) then 0 else AnyHeaderAt(lines[1..]) + 1
  }

  const WILDCARDS := ["0.0.0.0:8080", "[::]:8080", ":8080", "*:8080"]

  // A listener on every address makes the gateway listeners superfluous.
  predicate ListensEverywhere(lines: seq<string>) {
    exists v :: v in WILDCARDS && v in Values(lines, REST_LISTEN)
  }

  // The values that a key does not have yet.
  function Missing(wanted: seq<string>, have: seq<string>): seq<string> {
    if wanted == [] then []
    else
      var last := wanted[|wanted| - 1];
      Missing(wanted[..|wanted| - 1], have) + (if last in have then [] else [last])
  }

  function MissingLines(lines: seq<string>, key: string, wanted: seq<string>): seq<string> {
    Lines(key, Missing(wanted, Values(lines, key)))
  }

  function RestBlock(lines: seq<string>, gateways: seq<string>): seq<string> {
    MissingLines(lines, TLS_IP, gateways) + MissingLines(lines, TLS_DOMAIN, [DOCKER_HOST]) +
    (if ListensEverywhere(lines) then [] else MissingLines(lines, REST_LISTEN, Ports(gateways, ":8080")))
  }

  // The file with a header to insert after: its own, or one added at the end.
  function WithHeader(lines: seq<string>): (r: seq<string>)
    ensures AnyHeaderAt(lines) < |r|
  {
    if AnyHeaderAt(lines) < |lines| then lines else lines + [APPLICATION_OPTIONS]
  }

  function Inserted(lines: seq<string>, block: seq<string>, k: nat): seq<string>
    requires k <= |lines|
  {
    lines[..k] + block + lines[k..]
  }

  // The configuration updateLndRestOptions leaves.
  function RestConfig(lines: seq<string>, raw: seq<string>): seq<string> {
    var block := RestBlock(lines, Gateways(raw));
    if block == [] then lines else Inserted(WithHeader(lines), block, AnyHeaderAt(lines) + 1)
  }

  // ---- The rewriter ------------------------------------------------------------------------

  // The three sets of values the source collects in one pass.
  method ReadSets(lines: seq<string>) returns (rest: set<string>, ips: set<string>, domains: set<string>)
    ensures forall v :: v in rest <==> v in Values(lines, REST_LISTEN)
    ensures forall v :: v in ips <==> v in Values(lines, TLS_IP)
    ensures forall v :: v in domains <==> v in Values(lines, TLS_DOMAIN)
  {
    rest, ips, domains := {}, {}, {};
    for i := 0 to |lines|
      invariant forall v :: v in rest <==> v in Values(lines[..i], REST_LISTEN)
      invariant forall v :: v in ips <==> v in Values(lines[..i], TLS_IP)
      invariant forall v :: v in domains <==> v in Values(lines[..i], TLS_DOMAIN)
    {
      ValuesStep(lines, i, REST_LISTEN);
      ValuesStep(lines, i, TLS_IP);
      ValuesStep(lines, i, TLS_DOMAIN);
      hide Values, ValueOf;
      rest := rest + AsSet(ValueOf(lines[i], REST_LISTEN));
      ips := ips + AsSet(ValueOf(lines[i], TLS_IP));
      domains := domains + AsSet(ValueOf(lines[i], TLS_DOMAIN));
    }
    assert lines[..|lines|] == lines;
  }

  function AsSet(value: string): set<string> {
    if value == "" then {} else {value}
  }

  method CollectMissing(key: string, wanted: seq<string>, have: set<string>, ghost values: seq<string>) returns (block: seq<string>)
    requires forall v :: v in have <==> v in values
    ensures block == Lines(key, Missing(wanted, values))
  {
    block := [];
    for i := 0 to |wanted|
      invariant block == Lines(key, Missing(wanted[..i], values))
    {
      assert wanted[..i + 1][..i] == wanted[..i];
      if wanted[i] !in have {
        block := block + [key + wanted[i]];
      }
    }
    assert wanted[..|wanted|] == wanted;
  }

  method BuildRestBlock(lines: seq<string>, gateways: seq<string>) returns (block: seq<string>)
    ensures block == RestBlock(lines, gateways)
  {
    hide Values, Missing, Lines;
    var rest, ips, domains := ReadSets(lines);
    var wildcard := "0.0.0.0:8080" in rest || "[::]:8080" in rest || ":8080" in rest || "*:8080" in rest;
    assert wildcard <==> ListensEverywhere(lines) by {
      assert ListensEverywhere(lines) <==> WILDCARDS[0] in rest || WILDCARDS[1] in rest || WILDCARDS[2] in rest || WILDCARDS[3] in rest;
    }
    hide ListensEverywhere;
    block := CollectMissing(TLS_IP, gateways, ips, Values(lines, TLS_IP));
    var domain := CollectMissing(TLS_DOMAIN, [DOCKER_HOST], domains, Values(lines, TLS_DOMAIN));
    block := block + domain;
    if !wildcard {
      var listeners := CollectMissing(REST_LISTEN, Ports(gateways, ":8080"), rest, Values(lines, REST_LISTEN));
      block := block + listeners;
    }
  }

  // updateLndRestOptions
  method UpdateLndRestOptions(lines: seq<string>, raw: seq<string>) returns (updated: seq<string>, changed: bool)
    ensures updated == RestConfig(lines, raw)
    ensures changed <==> updated != lines
    ensures changed ==> StandsIn(lines, RestBlock(lines, Gateways(raw)), updated)
  {
    hide Gateways, RestBlock, StandsIn;
    OnlyInserts(lines, raw);
    var gateways := ReadGateways(raw);
    var block := BuildRestBlock(lines, gateways);
    if block == [] {
      return lines, false;
    }
    var at := FindHeader(lines);
    var l := lines;
    if at == |lines| {
      l := lines + [APPLICATION_OPTIONS];
    }
    updated := l[..at + 1] + block + l[at + 1..];
    changed := true;
    assert |updated| > |lines|;
  }

  method FindHeader(lines: seq<string>) returns (at: nat)
    ensures at == AnyHeaderAt(lines)
  {
    at := 0;
    while at < |lines| && !IsAnyHeader(lines[at])
      invariant at <= |lines| && forall j :: 0 <= j < at ==> !IsAnyHeader(lines[j])
    {
      at := at + 1;
    }
  }

  // ---- What the REST rewriter guarantees ------------------------------------------------------

  // The block stands in these lines right after the first header in any letter case; without
  // it they are the file, or the file with a header added at the end if it had none.
  ghost predicate StandsIn(lines: seq<string>, block: seq<string>, r: seq<string>) {
    exists k :: 0 < k <= k + |block| <= |r| && r[k..k + |block|] == block
                && EqualFold(Trim(r[k - 1]), "[Application Options]")
                && (forall i :: 0 <= i < k - 1 ==> !EqualFold(Trim(r[i]), "[Application Options]"))
                && r[..k] + r[k + |block|..] ==
                   if exists line :: line in lines && EqualFold(Trim(line), "[Application Options]") then lines else lines + ["[Application Options]"]
  }

  // It only inserts: one block, in one place, or nothing.
  lemma OnlyInserts(lines: seq<string>, raw: seq<string>)
    ensures var block, r := RestBlock(lines, Gateways(raw)), RestConfig(lines, raw);
            if block == [] then r == lines else StandsIn(lines, block, r)
  {
    hide RestBlock, Gateways, EqualFold, Trim, AnyHeaderAt;
    var block, h := RestBlock(lines, Gateways(raw)), AnyHeaderAt(lines);
    if block != [] {
      var l, k := WithHeader(lines), h + 1;
      AddedHeaderIsOne();
      RemovingTheBlock(l, block, k);
      var r := RestConfig(lines, raw);
      assert r == Inserted(l, block, k);
      assert forall i :: 0 <= i <= h ==> r[i] == l[i];
      assert h < |lines| ==> lines[h] in lines;
    }
  }

  lemma AddedHeaderIsOne()
    ensures IsAnyHeader(APPLICATION_OPTIONS)
  {
    TrimTrims(APPLICATION_OPTIONS);
  }

  lemma RemovingTheBlock(lines: seq<string>, block: seq<string>, k: nat)
    requires k <= |lines|
    ensures var r := Inserted(lines, block, k);
            k + |block| <= |r| && r[k..k + |block|] == block && r[..k] + r[k + |block|..] == lines
  {
    var r := Inserted(lines, block, k);
    assert r[..k] == lines[..k] && r[k + |block|..] == lines[k..];
  }

  lemma {:induction false} MissingIsWhatIsNotHad(wanted: seq<string>, have: seq<string>)
    ensures forall v :: v in Missing(wanted, have) <==> v in wanted && v !in have
    ensures Missing(wanted, have) == [] <==> forall v :: v in wanted ==> v in have
  {
    if wanted != [] {
      MissingIsWhatIsNotHad(wanted[..|wanted| - 1], have);
      assert wanted == wanted[..|wanted| - 1] + [wanted[|wanted| - 1]];
    }
  }

  // The values of a key after the insertion: those before, and those inserted.
  lemma ValuesAfter(lines: seq<string>, raw: seq<string>, key: string)
    requires IsKey(key) && RestBlock(lines, Gateways(raw)) != []
    ensures forall v :: v in Values(RestConfig(lines, raw), key) <==> v in Values(lines, key) || v in Values(RestBlock(lines, Gateways(raw)), key)
  {
    hide RestBlock, Values, Gateways, AnyHeaderAt;
    var block, l := RestBlock(lines, Gateways(raw)), WithHeader(lines);
    var k := AnyHeaderAt(lines) + 1;
    assert RestConfig(lines, raw) == l[..k] + block + l[k..];
    ValuesOfInserted(l, block, k, key);
    ValuesAppend(lines, [APPLICATION_OPTIONS], key);
    HeaderHasNoValue(key);
  }

  lemma ValuesOfInserted(lines: seq<string>, block: seq<string>, k: nat, key: string)
    requires k <= |lines|
    ensures forall v :: v in Values(lines[..k] + block + lines[k..], key) <==> v in Values(lines, key) || v in Values(block, key)
  {
    hide Values;
    ValuesAppend(lines[..k] + block, lines[k..], key);
    ValuesAppend(lines[..k], block, key);
    assert lines == lines[..k] + lines[k..];
    ValuesAppend(lines[..k], lines[k..], key);
  }

  lemma HeaderHasNoValue(key: string)
    requires IsKey(key)
    ensures Values([APPLICATION_OPTIONS], key) == []
  {
    TrimTrims(APPLICATION_OPTIONS);
    assert APPLICATION_OPTIONS[0] == '[' && key[0] in {'t', 'r'};
    assert [APPLICATION_OPTIONS][..0] == [];
  }

  // The inserted lines, and no others, give each key exactly the values it was missing. No
  // listener is missing where there is one on every address.
  lemma InsertedValues(lines: seq<string>, raw: seq<string>)
    ensures var b, g, rest := RestBlock(lines, Gateways(raw)), Gateways(raw), Values(lines, "restlisten=");
            && Values(b, "tlsextraip=") == Missing(g, Values(lines, "tlsextraip="))
            && Values(b, "tlsextradomain=") == Missing(["host.docker.internal"], Values(lines, "tlsextradomain="))
            && Values(b, "restlisten=") == (
               if "0.0.0.0:8080" in rest || "[::]:8080" in rest || ":8080" in rest || "*:8080" in rest then [] else Missing(Ports(g, ":8080"), rest))
            && |b| == |Values(b, "tlsextraip=")| + |Values(b, "tlsextradomain=")| + |Values(b, "restlisten=")|
  {
    WildcardsAre(lines);
    BlockValuesAre(lines, raw);
    hide Gateways, Ports, Values, Missing, Lines, ListensEverywhere;
  }

  lemma WildcardsAre(lines: seq<string>)
    ensures var rest := Values(lines, "restlisten=");
            ListensEverywhere(lines) <==> "0.0.0.0:8080" in rest || "[::]:8080" in rest || ":8080" in rest || "*:8080" in rest
  {
    hide Values;
    var rest := Values(lines, REST_LISTEN);
    assert ListensEverywhere(lines) <==> WILDCARDS[0] in rest || WILDCARDS[1] in rest || WILDCARDS[2] in rest || WILDCARDS[3] in rest;
  }

  lemma BlockValuesAre(lines: seq<string>, raw: seq<string>)
    ensures var b, g := RestBlock(lines, Gateways(raw)), Gateways(raw);
            && Values(b, TLS_IP) == Missing(g, Values(lines, TLS_IP))
            && Values(b, TLS_DOMAIN) == Missing([DOCKER_HOST], Values(lines, TLS_DOMAIN))
            && Values(b, REST_LISTEN) == (if ListensEverywhere(lines) then [] else Missing(Ports(g, ":8080"), Values(lines, REST_LISTEN)))
            && |b| == |Values(b, TLS_IP)| + |Values(b, TLS_DOMAIN)| + |Values(b, REST_LISTEN)|
  {
    var g := Gateways(raw);
    GatewaysAreValues(raw);
    PortsAreValues(g, ":8080");
    hide Gateways, Ports, Values, Missing, Lines;
    var ips, domains := Missing(g, Values(lines, TLS_IP)), Missing([DOCKER_HOST], Values(lines, TLS_DOMAIN));
    var rests := if ListensEverywhere(lines) then [] else Missing(Ports(g, ":8080"), Values(lines, REST_LISTEN));
    MissingAreValues(g, Values(lines, TLS_IP));
    MissingAreValues([DOCKER_HOST], Values(lines, TLS_DOMAIN));
    MissingAreValues(Ports(g, ":8080"), Values(lines, REST_LISTEN));
    ThreeBlocks(ips, domains, rests, TLS_IP);
    ThreeBlocks(ips, domains, rests, TLS_DOMAIN);
    ThreeBlocks(ips, domains, rests, REST_LISTEN);
    NoLines(REST_LISTEN, REST_LISTEN);
  }

  lemma {:induction false} MissingAreValues(wanted: seq<string>, have: seq<string>)
    requires forall v :: v in wanted ==> IsValue(v)
    ensures AreValues(Missing(wanted, have))
  {
    MissingIsWhatIsNotHad(wanted, have);
    var m := Missing(wanted, have);
    assert forall i :: 0 <= i < |m| ==> m[i] in m;
  }

  lemma ThreeBlocks(ips: seq<string>, domains: seq<string>, rests: seq<string>, key: string)
    requires AreValues(ips) && AreValues(domains) && AreValues(rests) && key in {TLS_IP, TLS_DOMAIN, REST_LISTEN}
    ensures Values(Lines(TLS_IP, ips) + Lines(TLS_DOMAIN, domains) + Lines(REST_LISTEN, rests), key) ==
            if key == TLS_IP then ips else if key == TLS_DOMAIN then domains else rests
  {
    hide Values, Lines, AreValues;
    ValuesAppend(Lines(TLS_IP, ips) + Lines(TLS_DOMAIN, domains), Lines(REST_LISTEN, rests), key);
    ValuesAppend(Lines(TLS_IP, ips), Lines(TLS_DOMAIN, domains), key);
    assert IsKey(TLS_IP) && IsKey(TLS_DOMAIN) && IsKey(REST_LISTEN) && IsKey(key);
    hide IsKey;
    WrittenBlock(TLS_IP, ips, key);
    WrittenBlock(TLS_DOMAIN, domains, key);
    WrittenBlock(REST_LISTEN, rests, key);
    assert TLS_IP[8] == 'i' && TLS_DOMAIN[8] == 'd' && REST_LISTEN[0] == 'r';
  }

  // A second run finds nothing to do: it inserts no line and reports no change.
  lemma RestIsIdempotent(lines: seq<string>, raw: seq<string>)
    ensures RestBlock(RestConfig(lines, raw), Gateways(raw)) == []
    ensures RestConfig(RestConfig(lines, raw), raw) == RestConfig(lines, raw)
  {
    var g, r := Gateways(raw), RestConfig(lines, raw);
    if RestBlock(lines, g) != [] {
      ValuesAfter(lines, raw, TLS_IP);
      ValuesAfter(lines, raw, TLS_DOMAIN);
      ValuesAfter(lines, raw, REST_LISTEN);
      InsertedValues(lines, raw);
      hide Values, Gateways, RestConfig, RestBlock, Ports;
      MissingIsWhatIsNotHad(g, Values(lines, TLS_IP));
      MissingIsWhatIsNotHad([DOCKER_HOST], Values(lines, TLS_DOMAIN));
      MissingIsWhatIsNotHad(Ports(g, ":8080"), Values(lines, REST_LISTEN));
      MissingIsWhatIsNotHad(g, Values(r, TLS_IP));
      MissingIsWhatIsNotHad([DOCKER_HOST], Values(r, TLS_DOMAIN));
      MissingIsWhatIsNotHad(Ports(g, ":8080"), Values(r, REST_LISTEN));
      NothingMissing(r, g);
    }
  }

  lemma NothingMissing(lines: seq<string>, gateways: seq<string>)
    requires Missing(gateways, Values(lines, TLS_IP)) == [] && Missing([DOCKER_HOST], Values(lines, TLS_DOMAIN)) == []
    requires ListensEverywhere(lines) || Missing(Ports(gateways, ":8080"), Values(lines, REST_LISTEN)) == []
    ensures RestBlock(lines, gateways) == []
  {
  }
}
