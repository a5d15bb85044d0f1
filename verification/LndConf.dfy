// The two rewriters of lnd.conf: what LNDg needs for gRPC, and what LNbits needs for REST.
// A configuration is the list of its lines.
module LndConf {
  import opened Text

  const APPLICATION_OPTIONS := "[Application Options]"
  const TLS_IP := "tlsextraip="
  const TLS_DOMAIN := "tlsextradomain="
  const RPC_LISTEN := "rpclisten="
  const REST_LISTEN := "restlisten="
  const DOCKER_HOST := "host.docker.internal"
  const LOCAL_RPC := "127.0.0.1:10009"

  // The value a line gives to a key, "" when the line is about something else.
  function ValueOf(line: string, key: string): string {
    var trimmed := Trim(line);
    if HasPrefix(trimmed, key) then Trim(trimmed[|key|..]) else ""
  }

  predicate IsKey(key: string) {
    key in {TLS_IP, TLS_DOMAIN, RPC_LISTEN, REST_LISTEN}
  }

  // The line written for a key and a trimmed value reads back as that value.
  lemma WrittenLineReadsBack(key: string, value: string)
    requires IsKey(key) && value != "" && IsTrimmed(value)
    ensures Trim(key + value) == key + value && HasPrefix(key + value, key) && ValueOf(key + value, key) == value
  {
    var line := key + value;
    assert !IsSpace(line[0]) && line[|line| - 1] == value[|value| - 1];
    TrimTrims(line);
    TrimTrims(value);
    assert line[|key|..] == value;
  }

  // The gateways that are given, each once.
  function Gateways(raw: seq<string>): seq<string> {
    Uniq(Given(raw))
  }

  function Given(raw: seq<string>): seq<string> {
    if raw == [] then []
    else Given(raw[..|raw| - 1]) + (if Trim(raw[|raw| - 1]) == "" then [] else [Trim(raw[|raw| - 1])])
  }

  method ReadGateways(raw: seq<string>) returns (gateways: seq<string>)
    ensures gateways == Gateways(raw)
  {
    gateways := [];
    for i := 0 to |raw|
      invariant gateways == Gateways(raw[..i])
    {
      assert raw[..i + 1][..i] == raw[..i];
      var gateway := Trim(raw[i]);
      ghost var given := Given(raw[..i]);
      assert (given + [gateway])[..|given|] == given && given + [] == given;
      if gateway != "" && gateway !in gateways {
        gateways := gateways + [gateway];
      }
    }
    assert raw[..|raw|] == raw;
  }

  // Exactly the values given that are not blank, trimmed; each stands once, where it is
  // first given.
  lemma GatewaysAreGiven(raw: seq<string>)
    ensures forall g :: g in Gateways(raw) <==> g != "" && exists i :: 0 <= i < |raw| && Trim(raw[i]) == g
    ensures NoRepeats(Gateways(raw))
    ensures forall k :: 0 <= k <= |raw| ==> Gateways(raw) == Uniq(Gateways(raw[..k]) + Given(raw[k..]))
  {
    GivenIsTrimmed(raw);
    UniqHasNoRepeats(Given(raw));
    forall k | 0 <= k <= |raw|
      ensures Gateways(raw) == Uniq(Gateways(raw[..k]) + Given(raw[k..]))
    {
      assert raw == raw[..k] + raw[k..];
      GivenAppend(raw[..k], raw[k..]);
      UniqAppend(Given(raw[..k]), Given(raw[k..]));
    }
  }

  lemma {:induction false} GivenIsTrimmed(raw: seq<string>)
    ensures forall g :: g in Given(raw) <==> g != "" && exists i :: 0 <= i < |raw| && Trim(raw[i]) == g
  {
    hide Trim;
    if raw != [] {
      var init, last := raw[..|raw| - 1], raw[|raw| - 1];
      GivenIsTrimmed(init);
      assert forall i :: 0 <= i < |init| ==> init[i] == raw[i];
      assert raw[|raw| - 1] == last;
    }
  }

  lemma {:induction false} GivenAppend(a: seq<string>, b: seq<string>)
    ensures Given(a + b) == Given(a) + Given(b)
  {
    if b == [] {
      assert a + b == a;
    } else {
      assert (a + b)[..|a + b| - 1] == a + b[..|b| - 1];
      GivenAppend(a, b[..|b| - 1]);
    }
  }

  lemma {:induction false} GivenAreTrimmed(raw: seq<string>)
    ensures forall g :: g in Given(raw) ==> g != "" && IsTrimmed(g)
  {
    if raw != [] {
      GivenAreTrimmed(raw[..|raw| - 1]);
      TrimTrims(raw[|raw| - 1]);
    }
  }

  function Ports(gateways: seq<string>, port: string): (r: seq<string>)
    ensures |r| == |gateways| && forall i :: 0 <= i < |r| ==> r[i] == gateways[i] + port
  {
    seq(|gateways|, i requires 0 <= i < |gateways| => gateways[i] + port)
  }

  function Lines(key: string, values: seq<string>): (r: seq<string>)
    ensures |r| == |values| && forall i :: 0 <= i < |r| ==> r[i] == key + values[i]
  {
    seq(|values|, i requires 0 <= i < |values| => key + values[i])
  }

  // ---- gRPC options -------------------------------------------------------------------

  // The lines the gRPC rewriter owns.
  predicate IsManaged(line: string) {
    HasPrefix(Trim(line), TLS_IP) || HasPrefix(Trim(line), TLS_DOMAIN) || HasPrefix(Trim(line), RPC_LISTEN)
  }

  predicate IsManagedKey(key: string) {
    key in {TLS_IP, TLS_DOMAIN, RPC_LISTEN}
  }

  predicate IsHeader(line: string) {
    Trim(line) == APPLICATION_OPTIONS
  }

  lemma HeaderIsNotManaged(line: string)
    requires IsHeader(line)
    ensures !IsManaged(line)
  {
    assert APPLICATION_OPTIONS[0] == '[';
  }

  function Unmanaged(lines: seq<string>): seq<string> {
    if lines == [] then []
    else Unmanaged(lines[..|lines| - 1]) + (if IsManaged(lines[|lines| - 1]) then [] else [lines[|lines| - 1]])
  }

  lemma {:induction false} UnmanagedAppend(a: seq<string>, b: seq<string>)
    ensures Unmanaged(a + b) == Unmanaged(a) + Unmanaged(b)
  {
    if b == [] {
      assert a + b == a;
    } else {
      assert (a + b)[..|a + b| - 1] == a + b[..|b| - 1];
      UnmanagedAppend(a, b[..|b| - 1]);
    }
  }

  // The non-empty values of a key, in order and with repetitions.
  function Values(lines: seq<string>, key: string): seq<string> {
    if lines == [] then []
    else
      var value := ValueOf(lines[|lines| - 1], key);
      Values(lines[..|lines| - 1], key) + (if value == "" then [] else [value])
  }

  lemma {:induction false} ValuesAppend(a: seq<string>, b: seq<string>, key: string)
    ensures Values(a + b, key) == Values(a, key) + Values(b, key)
  {
    if b == [] {
      assert a + b == a;
    } else {
      assert (a + b)[..|a + b| - 1] == a + b[..|b| - 1];
      ValuesAppend(a, b[..|b| - 1], key);
    }
  }

  lemma ValuesStep(lines: seq<string>, i: nat, key: string)
    requires i < |lines|
    ensures var value := ValueOf(lines[i], key);
            Values(lines[..i + 1], key) == Values(lines[..i], key) + (if value == "" then [] else [value])
  {
    assert lines[..i + 1][..i] == lines[..i];
  }

  lemma UniqValuesStep(lines: seq<string>, i: nat, key: string)
    requires i < |lines|
    ensures var value, before := ValueOf(lines[i], key), Uniq(Values(lines[..i], key));
            Uniq(Values(lines[..i + 1], key)) == if value == "" || value in before then before else before + [value]
  {
    ValuesStep(lines, i, key);
    hide ValueOf, Values, Uniq;
    UniqStep(Values(lines[..i], key), ValueOf(lines[i], key));
    assert Values(lines[..i], key) + [] == Values(lines[..i], key);
  }

  // Where the first header is, or the number of lines.
  function HeaderAt(lines: seq<string>): (i: nat)
    ensures i <= |lines| && (i < |lines| ==> IsHeader(lines[i])) && forall j :: 0 <= j < i ==> !IsHeader(lines[j])
  {
    if lines == [] then 0
    else
      var i := HeaderAt(lines[..|lines| - 1]);
      if i < |lines| - 1 || IsHeader(lines[|lines| - 1]) then i else |lines|
  }

  // Where the block goes: after the first header, or at the top.
  function Cut(lines: seq<string>): (i: nat)
    ensures i <= |lines|
  {
    if HeaderAt(lines) < |lines| then HeaderAt(lines) + 1 else 0
  }

  function Desired(gateways: seq<string>): seq<string> {
    [LOCAL_RPC] + Ports(gateways, ":10009")
  }

  function Listeners(lines: seq<string>, gateways: seq<string>): seq<string> {
    Uniq(Desired(gateways) + Values(lines, RPC_LISTEN))
  }

  function GrpcBlock(lines: seq<string>, gateways: seq<string>): seq<string> {
    Lines(TLS_IP, gateways) + [TLS_DOMAIN + DOCKER_HOST] + Lines(RPC_LISTEN, Listeners(lines, gateways))
  }

  // The configuration updateLndGrpcOptions leaves: the block after the first header, and
  // no other line of its own.
  function WithBlock(lines: seq<string>, block: seq<string>): seq<string> {
    Unmanaged(lines[..Cut(lines)]) + block + Unmanaged(lines[Cut(lines)..])
  }

  function GrpcConfig(lines: seq<string>, raw: seq<string>): seq<string> {
    WithBlock(lines, GrpcBlock(lines, Gateways(raw)))
  }

  // updateLndGrpcOptions
  method UpdateLndGrpcOptions(lines: seq<string>, raw: seq<string>) returns (updated: seq<string>, changed: bool)
    ensures updated == GrpcConfig(lines, raw)
    ensures changed <==> updated != lines
    ensures Unmanaged(updated) == Unmanaged(lines)
    ensures Values(updated, "tlsextraip=") == Gateways(raw) && Values(updated, "tlsextradomain=") == ["host.docker.internal"]
    ensures Values(updated, "rpclisten=") == Uniq(["127.0.0.1:10009"] + Ports(Gateways(raw), ":10009") + Values(lines, "rpclisten="))
  {
    hide Unmanaged, Values, Gateways, Ports, GrpcBlock;
    UnmanagedLinesAreKept(lines, raw);
    CertificateNames(lines, raw);
    ListenersAreKept(lines, raw);
    var gateways := ReadGateways(raw);
    var block := BuildGrpcBlock(lines, gateways);
    var cleaned, insertAt := Clean(lines);
    updated := cleaned[..insertAt] + block + cleaned[insertAt..];
    changed := Differs(updated, lines);
  }

  method Differs(updated: seq<string>, lines: seq<string>) returns (changed: bool)
    ensures changed <==> updated != lines
  {
    if |updated| != |lines| {
      return true;
    }
    for i := 0 to |updated|
      invariant forall j :: 0 <= j < i ==> updated[j] == lines[j]
    {
      if updated[i] != lines[i] {
        return true;
      }
    }
    return false;
  }

  method ReadListeners(lines: seq<string>) returns (order: seq<string>, known: set<string>)
    ensures order == Uniq(Values(lines, RPC_LISTEN))
    ensures forall v :: v in known <==> v in order
  {
    known := {};
    order := [];
    for i := 0 to |lines|
      invariant order == Uniq(Values(lines[..i], RPC_LISTEN))
      invariant forall v :: v in known <==> v in order
    {
      hide Uniq, Values, ValueOf;
      var value := ValueOf(lines[i], RPC_LISTEN);
      UniqValuesStep(lines, i, RPC_LISTEN);
      if value != "" && value !in known {
        known := known + {value};
        order := order + [value];
      }
    }
    assert lines[..|lines|] == lines;
  }

  // Wanted listeners that are not configured go in front.
  method PutFirst(desired: seq<string>, configured: seq<string>, known: set<string>) returns (order: seq<string>, ghost missing: seq<string>)
    ensures order == missing + configured && forall v :: v in missing ==> v in desired
  {
    order, missing := configured, [];
    var seen := known;
    for i := 0 to |desired|
      invariant order == missing + configured && forall v :: v in missing ==> v in desired
    {
      if desired[i] !in seen {
        seen := seen + {desired[i]};
        missing := [desired[i]] + missing;
        order := [desired[i]] + order;
      }
    }
  }

  // The block: the listeners wanted come first, then the ones configured, each once.
  method BuildGrpcBlock(lines: seq<string>, gateways: seq<string>) returns (block: seq<string>)
    ensures block == GrpcBlock(lines, gateways)
  {
    hide Uniq, Values, Desired;
    var configured, known := ReadListeners(lines);
    var desired := Desired(gateways);
    var order, missing := PutFirst(desired, configured, known);
    ListenersInTurn(lines, gateways, missing);
    var listeners := AddNew([], desired);
    listeners := AddNew(listeners, order);
    block := Lines(TLS_IP, gateways) + [TLS_DOMAIN + DOCKER_HOST] + Lines(RPC_LISTEN, listeners);
  }

  method AddNew(before: seq<string>, values: seq<string>) returns (r: seq<string>)
    requires NoRepeats(before)
    ensures r == Uniq(before + values) && NoRepeats(r)
  {
    r := before;
    UniqKeepsUniq(before);
    assert before + values[..0] == before;
    for i := 0 to |values|
      invariant r == Uniq(before + values[..i])
    {
      hide Uniq;
      assert before + values[..i + 1] == (before + values[..i]) + [values[i]];
      UniqStep(before + values[..i], values[i]);
      if values[i] !in r {
        r := r + [values[i]];
      }
    }
    assert values[..|values|] == values;
    UniqHasNoRepeats(before + values);
  }

  // The wanted listeners put in front of the configured ones change nothing of the result.
  lemma ListenersInTurn(lines: seq<string>, gateways: seq<string>, missing: seq<string>)
    requires forall v :: v in missing ==> v in Desired(gateways)
    ensures [] + Desired(gateways) == Desired(gateways)
    ensures Uniq(Uniq(Desired(gateways)) + (missing + Uniq(Values(lines, RPC_LISTEN)))) == Listeners(lines, gateways)
  {
    hide Uniq, Desired, Values;
    var d, v := Desired(gateways), Values(lines, RPC_LISTEN);
    UniqAppend(d, missing + Uniq(v));
    assert d + (missing + Uniq(v)) == (d + missing) + Uniq(v);
    UniqInner(d + missing, v);
    UniqAppend(d + missing, v);
    UniqIgnoresRepeatedTail(d, missing);
    UniqAppend(d, v);
  }

  // What one more line changes for the clean-up.
  lemma CleanStep(lines: seq<string>, i: nat)
    requires i < |lines|
    ensures Unmanaged(lines[..i + 1]) == Unmanaged(lines[..i]) + (if IsManaged(lines[i]) then [] else [lines[i]])
    ensures HeaderAt(lines[..i + 1]) == if HeaderAt(lines[..i]) < i || IsHeader(lines[i]) then HeaderAt(lines[..i]) else i + 1
    ensures IsHeader(lines[i]) ==> !IsManaged(lines[i])
  {
    assert lines[..i + 1][..i] == lines[..i];
    if IsHeader(lines[i]) {
      HeaderIsNotManaged(lines[i]);
    }
  }

  // How far the clean-up is: what is kept of the lines so far, and where the block goes in
  // it, -1 while no header has been seen.
  ghost predicate CleanedTo(lines: seq<string>, cleaned: seq<string>, at: int) {
    && cleaned == Unmanaged(lines)
    && (if HeaderAt(lines) == |lines| then at == -1
        else 0 <= at <= |cleaned| && cleaned[..at] == Unmanaged(lines[..HeaderAt(lines) + 1]))
  }

  lemma CleanedFurther(lines: seq<string>, i: nat, cleaned: seq<string>, at: int)
    requires i < |lines| && CleanedTo(lines[..i], cleaned, at)
    ensures var next := if IsManaged(lines[i]) then cleaned else cleaned + [lines[i]];
            CleanedTo(lines[..i + 1], next, if IsHeader(lines[i]) && at == -1 then |next| else at)
    ensures IsHeader(lines[i]) ==> !IsManaged(lines[i])
  {
    hide Unmanaged, HeaderAt, IsHeader, IsManaged;
    CleanStep(lines, i);
    var h := HeaderAt(lines[..i]);
    var next := cleaned + [lines[i]];
    if h < i {
      assert lines[..i + 1][..h + 1] == lines[..i][..h + 1];
      assert next[..at] == cleaned[..at];
    } else if IsHeader(lines[i]) {
      assert lines[..i + 1][..i + 1] == lines[..i + 1] && next[..|next|] == next;
    }
  }

  // What is left of the file without the managed lines, and where the block goes in it.
  method Clean(lines: seq<string>) returns (cleaned: seq<string>, insertAt: nat)
    ensures insertAt <= |cleaned|
    ensures cleaned[..insertAt] == Unmanaged(lines[..Cut(lines)]) && cleaned[insertAt..] == Unmanaged(lines[Cut(lines)..])
  {
    cleaned := [];
    var at := -1;
    for i := 0 to |lines|
      invariant CleanedTo(lines[..i], cleaned, at)
    {
      CleanedFurther(lines, i, cleaned, at);
      hide CleanedTo, IsHeader, IsManaged;
      if IsHeader(lines[i]) && at == -1 {
        cleaned := cleaned + [lines[i]];
        at := |cleaned|;
      } else if !IsManaged(lines[i]) {
        cleaned := cleaned + [lines[i]];
      }
    }
    hide Unmanaged, HeaderAt;
    assert lines[..|lines|] == lines;
    insertAt := if at == -1 then 0 else at;
    CutParts(lines);
  }

  lemma CutParts(lines: seq<string>)
    ensures Unmanaged(lines) == Unmanaged(lines[..Cut(lines)]) + Unmanaged(lines[Cut(lines)..])
    ensures Unmanaged(lines[..0]) == []
  {
    assert lines == lines[..Cut(lines)] + lines[Cut(lines)..];
    UnmanagedAppend(lines[..Cut(lines)], lines[Cut(lines)..]);
  }

  // ---- What the gRPC rewriter guarantees ---------------------------------------------------

  // Every line it does not own is kept, in order.
  lemma UnmanagedLinesAreKept(lines: seq<string>, raw: seq<string>)
    ensures Unmanaged(GrpcConfig(lines, raw)) == Unmanaged(lines)
  {
    hide Unmanaged, GrpcBlock;
    var block := GrpcBlock(lines, Gateways(raw));
    var before, after := Unmanaged(lines[..Cut(lines)]), Unmanaged(lines[Cut(lines)..]);
    BlockIsManaged(lines, raw, RPC_LISTEN);
    UnmanagedTwice(lines[..Cut(lines)]);
    UnmanagedTwice(lines[Cut(lines)..]);
    UnmanagedAppend(before + block, after);
    UnmanagedAppend(before, block);
    CutParts(lines);
  }

  lemma {:induction false} UnmanagedTwice(s: seq<string>)
    ensures Unmanaged(Unmanaged(s)) == Unmanaged(s)
    ensures forall key :: IsManagedKey(key) ==> Values(Unmanaged(s), key) == []
  {
    hide IsManagedKey;
    if s != [] {
      var init, last := s[..|s| - 1], s[|s| - 1];
      UnmanagedTwice(init);
      OneLine(last);
      UnmanagedAppend(Unmanaged(init), [last]);
      forall key {
        ValuesAppend(Unmanaged(init), [last], key);
      }
      assert Unmanaged(s) == Unmanaged(init) + (if IsManaged(last) then [] else [last]);
      hide Unmanaged, Values, IsManaged;
      assert Unmanaged(init) + [] == Unmanaged(init);
    }
  }

  lemma OneLine(line: string)
    ensures Unmanaged([line]) == if IsManaged(line) then [] else [line]
    ensures !IsManaged(line) ==> forall key :: IsManagedKey(key) ==> Values([line], key) == []
  {
    assert [line][..0] == [];
    hide Trim;
  }

  // What the three kinds of lines of the block say for a key.
  function BlockValues(lines: seq<string>, gateways: seq<string>, key: string): seq<string> {
    if key == TLS_IP then gateways else if key == TLS_DOMAIN then [DOCKER_HOST] else Listeners(lines, gateways)
  }

  // The block consists of managed lines, and what is written for each key reads back.
  lemma BlockIsManaged(lines: seq<string>, raw: seq<string>, key: string)
    requires IsManagedKey(key)
    ensures var block := GrpcBlock(lines, Gateways(raw));
            Unmanaged(block) == [] && Values(block, key) == BlockValues(lines, Gateways(raw), key)
  {
    hide Gateways, Listeners, Values, Unmanaged, AreValues, Lines;
    GatewaysAreValues(raw);
    ListenersAreValues(lines, raw);
    WrittenGateways(Gateways(raw), key);
    assert IsKey(RPC_LISTEN) && IsKey(key);
    hide IsKey;
    WrittenBlock(RPC_LISTEN, Listeners(lines, Gateways(raw)), key);
    KeysAreApart();
    var front := Lines(TLS_IP, Gateways(raw)) + [TLS_DOMAIN + DOCKER_HOST];
    UnmanagedAppend(front, Lines(RPC_LISTEN, Listeners(lines, Gateways(raw))));
    ValuesAppend(front, Lines(RPC_LISTEN, Listeners(lines, Gateways(raw))), key);
  }

  lemma KeysAreApart()
    ensures TLS_IP != TLS_DOMAIN && TLS_IP != RPC_LISTEN && TLS_DOMAIN != RPC_LISTEN
  {
    assert RPC_LISTEN[0] == 'r' && TLS_IP[0] == TLS_DOMAIN[0] == 't' && TLS_IP[8] == 'i' && TLS_DOMAIN[8] == 'd';
  }

  // The certificate lines are managed, and read back.
  lemma WrittenGateways(gateways: seq<string>, key: string)
    requires AreValues(gateways) && IsManagedKey(key)
    ensures var front := Lines(TLS_IP, gateways) + [TLS_DOMAIN + DOCKER_HOST];
            && Unmanaged(front) == []
            && Values(front, key) == if key == TLS_IP then gateways else if key == TLS_DOMAIN then [DOCKER_HOST] else []
  {
    assert IsValue(DOCKER_HOST);
    KeysAreApart();
    hide Values, Unmanaged, AreValues, Lines, IsValue;
    WrittenBlock(TLS_IP, gateways, key);
    OneWritten(TLS_DOMAIN, DOCKER_HOST, key);
    UnmanagedAppend(Lines(TLS_IP, gateways), [TLS_DOMAIN + DOCKER_HOST]);
    ValuesAppend(Lines(TLS_IP, gateways), [TLS_DOMAIN + DOCKER_HOST], key);
  }

  // A value as a line can carry it.
  predicate IsValue(v: string) {
    v != "" && IsTrimmed(v)
  }

  predicate AreValues(vs: seq<string>) {
    forall i :: 0 <= i < |vs| ==> IsValue(vs[i])
  }

  lemma GatewaysAreValues(raw: seq<string>)
    ensures AreValues(Gateways(raw))
  {
    GivenAreTrimmed(raw);
    forall i | 0 <= i < |Gateways(raw)|
      ensures IsValue(Gateways(raw)[i])
    {
      assert Gateways(raw)[i] in Gateways(raw);
    }
  }

  lemma ListenersAreValues(lines: seq<string>, raw: seq<string>)
    ensures AreValues(Listeners(lines, Gateways(raw)))
  {
    GatewaysAreValues(raw);
    ValuesAreValues(lines, RPC_LISTEN);
    var g, l := Gateways(raw), Listeners(lines, Gateways(raw));
    forall i | 0 <= i < |l|
      ensures IsValue(l[i])
    {
      assert l[i] in l;
      PortsAreValues(g, ":10009");
      hide Uniq, Ports;
    }
  }

  lemma PortsAreValues(gateways: seq<string>, port: string)
    requires AreValues(gateways) && port != "" && !IsSpace(port[|port| - 1])
    ensures forall v :: v in Ports(gateways, port) ==> IsValue(v)
  {
    var ports := Ports(gateways, port);
    forall v | v in ports
      ensures IsValue(v)
    {
      var i :| 0 <= i < |ports| && ports[i] == v;
      assert IsValue(gateways[i]) && v[0] == gateways[i][0] && v[|v| - 1] == port[|port| - 1];
    }
  }

  lemma {:induction false} ValuesAreValues(lines: seq<string>, key: string)
    ensures forall v :: v in Values(lines, key) ==> IsValue(v)
  {
    if lines != [] {
      ValuesAreValues(lines[..|lines| - 1], key);
      var trimmed := Trim(lines[|lines| - 1]);
      if HasPrefix(trimmed, key) {
        TrimTrims(trimmed[|key|..]);
      }
    }
  }

  // Lines written for one key are managed, and have values of that key only.
  lemma {:induction false} WrittenBlock(key: string, values: seq<string>, asked: string)
    requires IsKey(key) && IsKey(asked) && AreValues(values)
    ensures key != REST_LISTEN ==> Unmanaged(Lines(key, values)) == []
    ensures Values(Lines(key, values), asked) == if key == asked then values else []
  {
    hide IsKey, IsValue, AreValues, ValueOf, IsManaged, Values, Unmanaged;
    NoLines(key, asked);
    if values != [] {
      var init, last := values[..|values| - 1], values[|values| - 1];
      ValuesWithoutLast(values);
      WrittenBlock(key, init, asked);
      OneWritten(key, last, asked);
      assert Lines(key, values) == Lines(key, init) + [key + last];
      hide Lines;
      UnmanagedAppend(Lines(key, init), [key + last]);
      ValuesAppend(Lines(key, init), [key + last], asked);
      assert values == init + [last];
    }
  }

  lemma NoLines(key: string, asked: string)
    ensures Lines(key, []) == [] && Unmanaged([]) == [] && Values([], asked) == []
  {
  }

  lemma ValuesWithoutLast(values: seq<string>)
    requires AreValues(values) && values != []
    ensures AreValues(values[..|values| - 1]) && IsValue(values[|values| - 1])
  {
  }

  lemma OneWritten(key: string, value: string, asked: string)
    requires IsKey(key) && IsKey(asked) && IsValue(value)
    ensures key != REST_LISTEN ==> Unmanaged([key + value]) == []
    ensures Values([key + value], asked) == if key == asked then [value] else []
  {
    WrittenLineReadsBack(key, value);
    if key != asked {
      KeysDiffer(key, value, asked);
    }
    assert [key + value][..0] == [];
    hide ValueOf, Trim;
  }

  lemma KeysDiffer(key: string, value: string, asked: string)
    requires IsKey(key) && IsKey(asked) && key != asked && IsValue(value)
    ensures ValueOf(key + value, asked) == ""
  {
    WrittenLineReadsBack(key, value);
    hide Trim;
    var line := key + value;
    assert TLS_IP[0] == TLS_DOMAIN[0] == 't' && TLS_IP[8] == 'i' && TLS_DOMAIN[8] == 'd';
    assert RPC_LISTEN[0] == REST_LISTEN[0] == 'r' && RPC_LISTEN[1] == 'p' && REST_LISTEN[1] == 'e';
    assert line[0] == key[0] && line[1] == key[1] && line[8] == key[8];
  }

  lemma ManagedValues(lines: seq<string>, raw: seq<string>, key: string)
    requires IsManagedKey(key)
    ensures Values(GrpcConfig(lines, raw), key) == BlockValues(lines, Gateways(raw), key)
  {
    hide Unmanaged, GrpcBlock, Values, Gateways, BlockValues, IsManagedKey;
    var block := GrpcBlock(lines, Gateways(raw));
    var before, after := Unmanaged(lines[..Cut(lines)]), Unmanaged(lines[Cut(lines)..]);
    BlockIsManaged(lines, raw, key);
    UnmanagedTwice(lines[..Cut(lines)]);
    UnmanagedTwice(lines[Cut(lines)..]);
    ValuesAppend(before + block, after, key);
    ValuesAppend(before, block, key);
  }

  // The listeners of the result are the local one, one on each gateway and the configured
  // ones, in this order and each once: no configured listener is lost.
  lemma ListenersAreKept(lines: seq<string>, raw: seq<string>)
    ensures var g, v := Gateways(raw), Values(GrpcConfig(lines, raw), "rpclisten=");
            && v == Uniq(["127.0.0.1:10009"] + Ports(g, ":10009") + Values(lines, "rpclisten="))
            && NoRepeats(v)
            && forall x :: x in v <==> x == "127.0.0.1:10009" || x in Ports(g, ":10009") || x in Values(lines, "rpclisten=")
  {
    hide Unmanaged, GrpcConfig, Values, Gateways, Ports;
    ManagedValues(lines, raw, RPC_LISTEN);
    KeysAreApart();
    UniqHasNoRepeats(Desired(Gateways(raw)) + Values(lines, RPC_LISTEN));
  }

  // The certificate names the gateways that are given, and the host, and nothing else.
  lemma CertificateNames(lines: seq<string>, raw: seq<string>)
    ensures Values(GrpcConfig(lines, raw), "tlsextraip=") == Gateways(raw)
    ensures Values(GrpcConfig(lines, raw), "tlsextradomain=") == ["host.docker.internal"]
  {
    hide Unmanaged, GrpcConfig, Values, Gateways, Ports;
    ManagedValues(lines, raw, TLS_IP);
    ManagedValues(lines, raw, TLS_DOMAIN);
    KeysAreApart();
  }

  // All lines of its own stand together, right after the first header if there is one and
  // at the top otherwise.
  lemma BlockStandsTogether(lines: seq<string>, raw: seq<string>)
    ensures var r, k, n := GrpcConfig(lines, raw), Cut(GrpcConfig(lines, raw)), |GrpcBlock(lines, Gateways(raw))|;
            && k + n <= |r|
            && r[k..k + n] == Lines("tlsextraip=", Gateways(raw)) + ["tlsextradomain=host.docker.internal"] + Lines("rpclisten=", Values(r, "rpclisten="))
            && (forall i :: 0 <= i < |r| ==> (IsManaged(r[i]) <==> k <= i < k + n))
            && (if exists line :: line in lines && Trim(line) == "[Application Options]"
                then k > 0 && Trim(r[k - 1]) == "[Application Options]" && forall i :: 0 <= i < k - 1 ==> Trim(r[i]) != "[Application Options]"
                else k == 0)
  {
    hide HeaderAt, Unmanaged, Gateways, IsManaged, Trim, Lines, Values, Listeners;
    ManagedValues(lines, raw, RPC_LISTEN);
    KeysAreApart();
    var block := GrpcBlock(lines, Gateways(raw));
    hide GrpcBlock;
    var r, before, after := GrpcConfig(lines, raw), Unmanaged(lines[..Cut(lines)]), Unmanaged(lines[Cut(lines)..]);
    CutIsAfterTheHeader(lines, raw);
    HeadersAreKept(lines, raw);
    assert r[|before|..|before| + |block|] == block;
    assert TLS_DOMAIN + DOCKER_HOST == "tlsextradomain=host.docker.internal";
    BlockIsManaged(lines, raw, RPC_LISTEN);
    AllUnmanaged(lines[..Cut(lines)]);
    AllUnmanaged(lines[Cut(lines)..]);
    forall i | 0 <= i < |r|
      ensures IsManaged(r[i]) <==> |before| <= i < |before| + |block|
    {
      if |before| <= i < |before| + |block| {
        NothingUnmanaged(block, i - |before|);
        assert r[i] == block[i - |before|];
      }
    }
  }

  lemma {:induction false} AllUnmanaged(lines: seq<string>)
    ensures forall i :: 0 <= i < |Unmanaged(lines)| ==> !IsManaged(Unmanaged(lines)[i])
  {
    hide IsManaged;
    if lines != [] {
      AllUnmanaged(lines[..|lines| - 1]);
    }
  }

  // The result has a header exactly when the file had one.
  lemma HeadersAreKept(lines: seq<string>, raw: seq<string>)
    ensures Cut(GrpcConfig(lines, raw)) == 0 <==> forall line :: line in lines ==> !IsHeader(line)
  {
    hide HeaderAt, Unmanaged, GrpcBlock, IsHeader, Gateways, IsManaged;
    CutIsAfterTheHeader(lines, raw);
    var h := HeaderAt(lines);
    if h < |lines| {
      CleanStep(lines, h);
      assert lines[h] in lines;
    } else {
      CutParts(lines);
    }
  }

  // A second run finds nothing to do.
  lemma GrpcIsIdempotent(lines: seq<string>, raw: seq<string>)
    ensures GrpcConfig(GrpcConfig(lines, raw), raw) == GrpcConfig(lines, raw)
  {
    hide Unmanaged, Values, Gateways, Desired, Uniq, HeaderAt;
    var g := Gateways(raw);
    var block, result := GrpcBlock(lines, g), GrpcConfig(lines, raw);
    ManagedValues(lines, raw, RPC_LISTEN);
    KeysAreApart();
    SameListenersAgain(lines, raw);
    assert GrpcBlock(result, g) == block;
    var before, after := Unmanaged(lines[..Cut(lines)]), Unmanaged(lines[Cut(lines)..]);
    CutIsAfterTheHeader(lines, raw);
    assert result[..Cut(result)] == before && result[Cut(result)..] == block + after;
    BlockIsManaged(lines, raw, RPC_LISTEN);
    UnmanagedTwice(lines[..Cut(lines)]);
    UnmanagedTwice(lines[Cut(lines)..]);
    UnmanagedAppend(block, after);
    assert [] + after == after;
  }

  lemma SameListenersAgain(lines: seq<string>, raw: seq<string>)
    ensures Uniq(Desired(Gateways(raw)) + Listeners(lines, Gateways(raw))) == Listeners(lines, Gateways(raw))
  {
    var d, v := Desired(Gateways(raw)), Values(lines, RPC_LISTEN);
    hide Uniq, Desired, Values, Gateways;
    UniqInner(d, d + v);
    assert d + (d + v) == (d + d) + v;
    UniqAppend(d + d, v);
    UniqIgnoresRepeatedTail(d, d);
    UniqAppend(d, v);
  }

  // In the result the block stands where it would be put again.
  lemma CutIsAfterTheHeader(lines: seq<string>, raw: seq<string>)
    ensures Cut(GrpcConfig(lines, raw)) == |Unmanaged(lines[..Cut(lines)])|
  {
    hide HeaderAt, Unmanaged, GrpcBlock, IsHeader, Gateways, IsManaged;
    var block := GrpcBlock(lines, Gateways(raw));
    var h := HeaderAt(lines);
    var after := Unmanaged(lines[Cut(lines)..]);
    if h < |lines| {
      CleanStep(lines, h);
      NoHeaderIn(lines[..h]);
      FirstHeader(Unmanaged(lines[..h]), lines[h], block + after);
      assert GrpcConfig(lines, raw) == Unmanaged(lines[..h]) + [lines[h]] + (block + after);
    } else {
      CutParts(lines);
      assert lines[0..] == lines;
      NoHeaderIn(lines);
      BlockHasNoHeader(lines, raw);
      NoHeader(block, after);
      assert GrpcConfig(lines, raw) == block + after;
    }
  }

  lemma FirstHeader(before: seq<string>, header: string, after: seq<string>)
    requires IsHeader(header) && forall j :: 0 <= j < |before| ==> !IsHeader(before[j])
    ensures HeaderAt(before + [header] + after) == |before|
  {
    hide IsHeader;
    var s := before + [header] + after;
    assert s[|before|] == header && forall j :: 0 <= j < |before| ==> s[j] == before[j];
  }

  lemma NoHeader(a: seq<string>, b: seq<string>)
    requires forall j :: 0 <= j < |a| ==> !IsHeader(a[j])
    requires forall j :: 0 <= j < |b| ==> !IsHeader(b[j])
    ensures HeaderAt(a + b) == |a + b|
  {
    hide IsHeader;
    var s := a + b;
    assert forall j :: 0 <= j < |s| ==> s[j] == if j < |a| then a[j] else b[j - |a|];
  }

  lemma {:induction false} NoHeaderIn(lines: seq<string>)
    requires forall j :: 0 <= j < |lines| ==> !IsHeader(lines[j])
    ensures forall j :: 0 <= j < |Unmanaged(lines)| ==> !IsHeader(Unmanaged(lines)[j])
  {
    hide IsHeader, IsManaged;
    if lines != [] {
      NoHeaderIn(lines[..|lines| - 1]);
    }
  }

  lemma BlockHasNoHeader(lines: seq<string>, raw: seq<string>)
    ensures forall j :: 0 <= j < |GrpcBlock(lines, Gateways(raw))| ==> !IsHeader(GrpcBlock(lines, Gateways(raw))[j])
  {
    var block := GrpcBlock(lines, Gateways(raw));
    BlockIsManaged(lines, raw, RPC_LISTEN);
    forall j | 0 <= j < |block|
      ensures !IsHeader(block[j])
    {
      NothingUnmanaged(block, j);
      if IsHeader(block[j]) {
        HeaderIsNotManaged(block[j]);
      }
    }
  }

  lemma {:induction false} NothingUnmanaged(lines: seq<string>, j: nat)
    requires Unmanaged(lines) == [] && j < |lines|
    ensures IsManaged(lines[j])
  {
    hide IsManaged;
    if j < |lines| - 1 {
      NothingUnmanaged(lines[..|lines| - 1], j);
    }
  }
}
