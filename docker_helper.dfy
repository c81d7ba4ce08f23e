/**
 * dockerHelper.js: the `.env` file and the docker-compose document for a
 * docker deployment. The registry setting they read lives in module Registry.
 */
module DockerHelper {
  import opened Wrappers
  import opened Text
  import opened Config
  import opened Registry

  // ---------------------------------------------------------------------------
  // .env file

  /** One `KEY=value` line of the .env file. */
  datatype EnvEntry = EnvEntry(key: string, value: string)

  // The .env keys.
  const ConsensusKey := "QUORUM_CONSENSUS"
  const QuorumImageKey := "QUORUM_DOCKER_IMAGE"
  const QuorumP2pPortKey := "QUORUM_P2P_PORT"
  const RaftPortKey := "QUORUM_RAFT_PORT"
  const RpcPortKey := "QUORUM_RPC_PORT"
  const WsPortKey := "QUORUM_WS_PORT"
  const DockerIpKey := "DOCKER_IP"
  const TesseraImageKey := "QUORUM_TX_MANAGER_DOCKER_IMAGE"
  const TesseraP2pPortKey := "TESSERA_P2P_PORT"
  const ThirdPartyPortKey := "TESSERA_3PARTY_PORT"
  const GethArgsKey := "QUORUM_GETH_ARGS"
  const RegistryKey := "DOCKER_REGISTRY"

  /** The seven keys every .env file starts with. */
  function BaseEnv(config: NetworkConfig, host: Host): seq<EnvEntry>
  {
    var ports := config.containerPorts;
    [ EnvEntry(ConsensusKey, config.network.consensus),
      EnvEntry(QuorumImageKey, "quorumengineering/quorum:" + config.network.quorumVersion),
      EnvEntry(QuorumP2pPortKey, NatToString(ports.quorum.p2pPort)),
      EnvEntry(RaftPortKey, NatToString(ports.quorum.raftPort)),
      EnvEntry(RpcPortKey, NatToString(ports.quorum.rpcPort)),
      EnvEntry(WsPortKey, NatToString(ports.quorum.wsPort)),
      EnvEntry(DockerIpKey, host.buildDockerIp(ports.dockerSubnet, "10")) ]
  }

  function TesseraEnv(config: NetworkConfig): seq<EnvEntry>
  {
    [ EnvEntry(TesseraImageKey, "quorumengineering/tessera:" + config.network.transactionManager),
      EnvEntry(TesseraP2pPortKey, NatToString(config.containerPorts.tm.p2pPort)),
      EnvEntry(ThirdPartyPortKey, NatToString(config.containerPorts.tm.thirdPartyPort)) ]
  }

  /** The quoted extra geth arguments: GraphQL on the given port, open to every origin. */
  function GethArgs(graphQlPort: nat): string
  {
    "\"" + "--allow-insecure-unlock" + " --graphql" + " --graphql.port " + NatToString(graphQlPort)
    + " --graphql.corsdomain=*" + " --graphql.addr=0.0.0.0" + "\""
  }

  function GethArgsEnv(config: NetworkConfig): seq<EnvEntry>
  {
    [ EnvEntry(GethArgsKey, GethArgs(config.containerPorts.quorum.graphQlPort)) ]
  }

  /** The entries createEnvFile writes, in order; registry is the stored registry setting. */
  function EnvEntries(config: NetworkConfig, hasTessera: bool, registry: Option<string>, host: Host): (r: seq<EnvEntry>)
    ensures |r| == 7 + (if hasTessera then 3 else 0) + (if config.network.quorum260Plus then 1 else 0)
                     + (if registry != Some("") then 1 else 0)
    ensures r[..7] == BaseEnv(config, host)
    ensures hasTessera ==> r[7..10] == TesseraEnv(config)
    ensures registry != Some("") ==> r[|r| - 1] == EnvEntry(RegistryKey, RegistryText(registry))
  {
    var base := BaseEnv(config, host);
    var tessera := if hasTessera then TesseraEnv(config) else [];
    var geth := if config.network.quorum260Plus then GethArgsEnv(config) else [];
    var reg := if registry != Some("") then [EnvEntry(RegistryKey, RegistryText(registry))] else [];
    EnvSlices(base, tessera, geth, reg);
    base + tessera + geth + reg
  }

  /** Where each of four blocks sits in their concatenation. */
  lemma EnvSlices(a: seq<EnvEntry>, b: seq<EnvEntry>, c: seq<EnvEntry>, d: seq<EnvEntry>)
    ensures var r := a + b + c + d;
            && r[..|a|] == a
            && r[|a|..|a| + |b|] == b
            && (d != [] ==> r[|r| - 1] == d[|d| - 1])
  {
    var r := a + b + c + d;
    assert r == a + (b + (c + d));
  }

  /** The text of one entry: `KEY=value`. */
  function Line(e: EnvEntry): string
  {
    e.key + "=" + e.value
  }

  function EnvLines(entries: seq<EnvEntry>): (lines: seq<string>)
    ensures |lines| == |entries|
    ensures forall k :: 0 <= k < |entries| ==> lines[k] == Line(entries[k])
  {
    seq(|entries|, k requires 0 <= k < |entries| => Line(entries[k]))
  }

  /** The .env text: one `KEY=value` line per entry, no trailing newline. */
  function RenderEnv(entries: seq<EnvEntry>): string
  {
    JoinLines(EnvLines(entries))
  }

  /** Appending one entry appends a newline and its line. */
  lemma RenderEnvSnoc(a: seq<EnvEntry>, e: EnvEntry)
    requires a != []
    ensures RenderEnv(a + [e]) == RenderEnv(a) + ("\n" + Line(e))
  {
    assert EnvLines(a + [e]) == EnvLines(a) + [Line(e)];
    JoinWithAppend(EnvLines(a), [Line(e)], "\n");
  }

  /** A list of entries rendered one line after another. */
  lemma RenderEnvLines(b: seq<EnvEntry>, n: nat)
    requires 1 <= n <= |b|
    ensures RenderEnv(b[..1]) == Line(b[0])
    ensures n > 1 ==> RenderEnv(b[..n]) == RenderEnv(b[..n - 1]) + ("\n" + Line(b[n - 1]))
  {
    assert EnvLines(b[..1]) == [Line(b[0])];
    if n > 1 {
      assert b[..n] == b[..n - 1] + [b[n - 1]];
      RenderEnvSnoc(b[..n - 1], b[n - 1]);
    }
  }

  /** Seven entries, as the source's template literal writes the base lines. */
  lemma RenderSevenEntries(b: seq<EnvEntry>)
    requires |b| == 7
    ensures RenderEnv(b)
            == Line(b[0]) + ("\n" + Line(b[1])) + ("\n" + Line(b[2])) + ("\n" + Line(b[3]))
               + ("\n" + Line(b[4])) + ("\n" + Line(b[5])) + ("\n" + Line(b[6]))
  {
    RenderEnvLines(b, 2);
    RenderEnvLines(b, 3);
    RenderEnvLines(b, 4);
    RenderEnvLines(b, 5);
    RenderEnvLines(b, 6);
    RenderEnvLines(b, 7);
    assert b[..7] == b;
  }

  /** Three entries, as the source appends the Tessera block: each line preceded by a newline. */
  lemma RenderThreeEntries(t: seq<EnvEntry>)
    requires |t| == 3
    ensures "\n" + RenderEnv(t) == "\n" + Line(t[0]) + "\n" + Line(t[1]) + "\n" + Line(t[2])
  {
    RenderEnvLines(t, 2);
    RenderEnvLines(t, 3);
    assert t[..3] == t;
  }

  /** Appending a block of entries appends a newline and that block's lines. */
  lemma RenderEnvAppend(a: seq<EnvEntry>, b: seq<EnvEntry>)
    requires a != [] && b != []
    ensures RenderEnv(a + b) == RenderEnv(a) + ("\n" + RenderEnv(b))
  {
    assert EnvLines(a + b) == EnvLines(a) + EnvLines(b);
    JoinWithAppend(EnvLines(a), EnvLines(b), "\n");
  }

  /** createEnvFile: the base keys, then each optional block whole or not at all. */
  method CreateEnvFile(config: NetworkConfig, hasTessera: bool, registry: DockerRegistry, host: Host) returns (env: string)
    ensures env == RenderEnv(EnvEntries(config, hasTessera, registry.stored, host))
  {
    var ports := config.containerPorts;
    env := Line(EnvEntry(ConsensusKey, config.network.consensus))
      + ("\n" + Line(EnvEntry(QuorumImageKey, "quorumengineering/quorum:" + config.network.quorumVersion)))
      + ("\n" + Line(EnvEntry(QuorumP2pPortKey, NatToString(ports.quorum.p2pPort))))
      + ("\n" + Line(EnvEntry(RaftPortKey, NatToString(ports.quorum.raftPort))))
      + ("\n" + Line(EnvEntry(RpcPortKey, NatToString(ports.quorum.rpcPort))))
      + ("\n" + Line(EnvEntry(WsPortKey, NatToString(ports.quorum.wsPort))))
      + ("\n" + Line(EnvEntry(DockerIpKey, host.buildDockerIp(ports.dockerSubnet, "10"))));
    ghost var entries := BaseEnv(config, host);
    RenderSevenEntries(entries);
    if hasTessera {
      var tessera := "\n" + Line(EnvEntry(TesseraImageKey, "quorumengineering/tessera:" + config.network.transactionManager))
        + "\n" + Line(EnvEntry(TesseraP2pPortKey, NatToString(ports.tm.p2pPort)))
        + "\n" + Line(EnvEntry(ThirdPartyPortKey, NatToString(ports.tm.thirdPartyPort)));
      RenderThreeEntries(TesseraEnv(config));
      RenderEnvAppend(entries, TesseraEnv(config));
      env := env + tessera;
      entries := entries + TesseraEnv(config);
    }
    assert env == RenderEnv(entries);
    if config.network.quorum260Plus {
      env := env + ("\n" + Line(EnvEntry(GethArgsKey, GethArgs(ports.quorum.graphQlPort))));
      RenderEnvSnoc(entries, GethArgsEnv(config)[0]);
      entries := entries + GethArgsEnv(config);
    }
    assert env == RenderEnv(entries);
    var stored := registry.Get();
    if stored != Some("") {
      env := env + ("\n" + Line(EnvEntry(RegistryKey, RegistryText(stored))));
      RenderEnvSnoc(entries, EnvEntry(RegistryKey, RegistryText(stored)));
      entries := entries + [EnvEntry(RegistryKey, RegistryText(stored))];
    }
    EnvEntriesCases(config, hasTessera, registry.stored, host);
  }

  /** EnvEntries spelled out for each combination of the three optional blocks. */
  lemma EnvEntriesCases(config: NetworkConfig, hasTessera: bool, registry: Option<string>, host: Host)
    ensures var b, t, g, r := BaseEnv(config, host), TesseraEnv(config), GethArgsEnv(config),
                              [EnvEntry(RegistryKey, RegistryText(registry))];
            var b' := if hasTessera then b + t else b;
            var b'' := if config.network.quorum260Plus then b' + g else b';
            EnvEntries(config, hasTessera, registry, host) == if registry != Some("") then b'' + r else b''
  {
  }

  function Keys(entries: seq<EnvEntry>): (keys: seq<string>)
    ensures |keys| == |entries|
    ensures forall k :: 0 <= k < |entries| ==> keys[k] == entries[k].key
  {
    seq(|entries|, k requires 0 <= k < |entries| => entries[k].key)
  }

  lemma KeysAppend(a: seq<EnvEntry>, b: seq<EnvEntry>)
    ensures Keys(a + b) == Keys(a) + Keys(b)
  {
  }

  const BaseKeys: seq<string> := [ConsensusKey, QuorumImageKey, QuorumP2pPortKey, RaftPortKey,
                                  RpcPortKey, WsPortKey, DockerIpKey]
  const TesseraKeys: seq<string> := [TesseraImageKey, TesseraP2pPortKey, ThirdPartyPortKey]

  /**
   * The keys come in a fixed order: the seven base keys, the Tessera keys exactly with Tessera,
   * QUORUM_GETH_ARGS exactly from quorum 2.6 on, DOCKER_REGISTRY exactly when a registry other than
   * the empty one is stored; DOCKER_IP is the subnet's docker IP for host 10.
   */
  lemma EnvKeys(config: NetworkConfig, hasTessera: bool, registry: Option<string>, host: Host)
    ensures var entries := EnvEntries(config, hasTessera, registry, host);
            && Keys(entries)
               == BaseKeys
                  + (if hasTessera then TesseraKeys else [])
                  + (if config.network.quorum260Plus then [GethArgsKey] else [])
                  + (if registry != Some("") then [RegistryKey] else [])
            && entries[6] == EnvEntry(DockerIpKey, host.buildDockerIp(config.containerPorts.dockerSubnet, "10"))
  {
    var b := BaseEnv(config, host);
    var t := if hasTessera then TesseraEnv(config) else [];
    var g := if config.network.quorum260Plus then GethArgsEnv(config) else [];
    var r := if registry != Some("") then [EnvEntry(RegistryKey, RegistryText(registry))] else [];
    KeysAppend(b, t);
    KeysAppend(b + t, g);
    KeysAppend(b + t + g, r);
    assert Keys(b) == BaseKeys;
    assert Keys(t) == if hasTessera then TesseraKeys else [];
    assert Keys(g) == if config.network.quorum260Plus then [GethArgsKey] else [];
    assert Keys(r) == if registry != Some("") then [RegistryKey] else [];
    assert (b + t + g + r)[6] == b[6];
  }

  /** The Tessera keys are present together, exactly with Tessera. */
  lemma TesseraBlockWhole(config: NetworkConfig, hasTessera: bool, registry: Option<string>, host: Host)
    ensures var keys := Keys(EnvEntries(config, hasTessera, registry, host));
            && (TesseraImageKey in keys <==> hasTessera)
            && (TesseraP2pPortKey in keys <==> hasTessera)
            && (ThirdPartyPortKey in keys <==> hasTessera)
  {
    EnvKeys(config, hasTessera, registry, host);
  }

  /** QUORUM_GETH_ARGS is present exactly from quorum 2.6 on. */
  lemma GethArgsPresent(config: NetworkConfig, hasTessera: bool, registry: Option<string>, host: Host)
    ensures GethArgsKey in Keys(EnvEntries(config, hasTessera, registry, host)) <==> config.network.quorum260Plus
  {
    EnvKeys(config, hasTessera, registry, host);
  }

  /** DOCKER_REGISTRY is present exactly when a registry other than the empty one is stored. */
  lemma RegistryPresent(config: NetworkConfig, hasTessera: bool, registry: Option<string>, host: Host)
    ensures RegistryKey in Keys(EnvEntries(config, hasTessera, registry, host)) <==> registry != Some("")
  {
    EnvKeys(config, hasTessera, registry, host);
  }

  /** Reads one `KEY=value` line, splitting at the first '='. */
  function ParseEnvLine(line: string): EnvEntry
  {
    match SplitAt(line, '=')
    case None => EnvEntry(line, "")
    case Some((key, value)) => EnvEntry(key, value)
  }

  function ParseEnv(text: string): seq<EnvEntry>
  {
    var lines := SplitLines(text);
    seq(|lines|, k requires 0 <= k < |lines| => ParseEnvLine(lines[k]))
  }

  /** Entries whose keys hold no '=' and whose keys and values hold no line break. */
  predicate PlainEntries(entries: seq<EnvEntry>)
  {
    forall k :: 0 <= k < |entries| ==>
      '=' !in entries[k].key && '\n' !in entries[k].key && '\n' !in entries[k].value
  }

  /** Reading a rendered .env gives back its entries, when they are plain. */
  lemma EnvRoundTrip(entries: seq<EnvEntry>)
    requires entries != [] && PlainEntries(entries)
    ensures ParseEnv(RenderEnv(entries)) == entries
  {
    var lines := EnvLines(entries);
    forall k | 0 <= k < |entries|
      ensures '\n' !in lines[k] && ParseEnvLine(lines[k]) == entries[k]
    {
      SplitAtFirst(entries[k].key, '=', entries[k].value);
    }
    SplitJoinLines(lines);
  }

  lemma NatToStringOneLine(n: nat)
    ensures '\n' !in NatToString(n)
  {
    var s := NatToString(n);
    assert forall k :: 0 <= k < |s| ==> s[k] != '\n';
  }

  /** The .env file createEnvFile writes reads back as exactly its entries. */
  lemma EnvFileRoundTrip(config: NetworkConfig, hasTessera: bool, registry: Option<string>, host: Host)
    requires '\n' !in config.network.consensus && '\n' !in config.network.quorumVersion
    requires '\n' !in config.network.transactionManager
    requires '\n' !in host.buildDockerIp(config.containerPorts.dockerSubnet, "10")
    requires '\n' !in RegistryText(registry)
    ensures ParseEnv(RenderEnv(EnvEntries(config, hasTessera, registry, host)))
            == EnvEntries(config, hasTessera, registry, host)
  {
    var b := BaseEnv(config, host);
    var t := if hasTessera then TesseraEnv(config) else [];
    var g := if config.network.quorum260Plus then GethArgsEnv(config) else [];
    var r := if registry != Some("") then [EnvEntry(RegistryKey, RegistryText(registry))] else [];
    PlainBase(config, host);
    PlainTessera(config);
    PlainGethArgs(config);
    assert PlainEntries(r) by {
      RegistryKeyPlain();
    }
    PlainAppend(b, t);
    PlainAppend(b + t, g);
    PlainAppend(b + t + g, r);
    EnvRoundTrip(b + t + g + r);
  }

  /** A key holds neither '=' nor a line break. */
  predicate PlainKey(key: string)
  {
    '=' !in key && '\n' !in key
  }

  // Each key is plain; one lemma per key keeps each literal check on its own.
  lemma ConsensusKeyPlain() ensures PlainKey(ConsensusKey) {}
  lemma QuorumImageKeyPlain() ensures PlainKey(QuorumImageKey) {}
  lemma QuorumP2pPortKeyPlain() ensures PlainKey(QuorumP2pPortKey) {}
  lemma RaftPortKeyPlain() ensures PlainKey(RaftPortKey) {}
  lemma RpcPortKeyPlain() ensures PlainKey(RpcPortKey) {}
  lemma WsPortKeyPlain() ensures PlainKey(WsPortKey) {}
  lemma DockerIpKeyPlain() ensures PlainKey(DockerIpKey) {}
  lemma TesseraImageKeyPlain() ensures PlainKey(TesseraImageKey) {}
  lemma TesseraP2pPortKeyPlain() ensures PlainKey(TesseraP2pPortKey) {}
  lemma ThirdPartyPortKeyPlain() ensures PlainKey(ThirdPartyPortKey) {}
  lemma GethArgsKeyPlain() ensures PlainKey(GethArgsKey) {}
  lemma RegistryKeyPlain() ensures PlainKey(RegistryKey) {}

  lemma PlainBase(config: NetworkConfig, host: Host)
    requires '\n' !in config.network.consensus && '\n' !in config.network.quorumVersion
    requires '\n' !in host.buildDockerIp(config.containerPorts.dockerSubnet, "10")
    ensures PlainEntries(BaseEnv(config, host))
  {
    ConsensusKeyPlain();
    QuorumImageKeyPlain();
    QuorumP2pPortKeyPlain();
    RaftPortKeyPlain();
    RpcPortKeyPlain();
    WsPortKeyPlain();
    DockerIpKeyPlain();
    var ports := config.containerPorts;
    NatToStringOneLine(ports.quorum.p2pPort);
    NatToStringOneLine(ports.quorum.raftPort);
    NatToStringOneLine(ports.quorum.rpcPort);
    NatToStringOneLine(ports.quorum.wsPort);
  }

  lemma PlainTessera(config: NetworkConfig)
    requires '\n' !in config.network.transactionManager
    ensures PlainEntries(TesseraEnv(config))
  {
    TesseraImageKeyPlain();
    TesseraP2pPortKeyPlain();
    ThirdPartyPortKeyPlain();
    NatToStringOneLine(config.containerPorts.tm.p2pPort);
    NatToStringOneLine(config.containerPorts.tm.thirdPartyPort);
  }

  lemma PlainGethArgs(config: NetworkConfig)
    ensures PlainEntries(GethArgsEnv(config))
  {
    GethArgsKeyPlain();
    GethArgsOneLine(config.containerPorts.quorum.graphQlPort);
  }

  lemma GethArgsOneLine(port: nat)
    ensures '\n' !in GethArgs(port)
  {
    NatToStringOneLine(port);
    assert '\n' !in "--allow-insecure-unlock";
    assert '\n' !in " --graphql";
    assert '\n' !in " --graphql.port ";
    assert '\n' !in " --graphql.corsdomain=*";
    assert '\n' !in " --graphql.addr=0.0.0.0";
  }

  lemma PlainAppend(a: seq<EnvEntry>, b: seq<EnvEntry>)
    requires PlainEntries(a) && PlainEntries(b)
    ensures PlainEntries(a + b)
  {
    forall k | 0 <= k < |a + b|
      ensures '=' !in (a + b)[k].key && '\n' !in (a + b)[k].key && '\n' !in (a + b)[k].value
    {
      if k < |a| {
        assert (a + b)[k] == a[k];
      } else {
        assert (a + b)[k] == b[k - |a|];
      }
    }
  }

  // ---------------------------------------------------------------------------
  // docker-compose.yml

  /** The services of the compose file. Node and transaction-manager indices count from 0. */
  datatype Service = NodeService(index: nat) | TxManagerService(index: nat) | CakeshopService

  /** The node number the source writes, `i + 1`. */
  function Num(i: nat): string
  {
    NatToString(i + 1)
  }

  /** The service key and hostname. */
  function ServiceName(s: Service): string
  {
    match s
    case NodeService(i) => "node" + Num(i)
    case TxManagerService(i) => "txmanager" + Num(i)
    case CakeshopService => "cakeshop"
  }

  /** Services follow node order: each node, then its transaction manager with Tessera. */
  function NodeServices(n: nat, hasTessera: bool): (plan: seq<Service>)
    ensures AllInRange(plan, n)
  {
    if n == 0 then []
    else NodeServices(n - 1, hasTessera) + [NodeService(n - 1)]
         + (if hasTessera then [TxManagerService(n - 1)] else [])
  }

  /** The services buildDockerCompose emits for n nodes, the cakeshop last. */
  function ServicePlan(n: nat, hasTessera: bool, hasCakeshop: bool): (plan: seq<Service>)
    ensures AllInRange(plan, n)
  {
    NodeServices(n, hasTessera) + (if hasCakeshop then [CakeshopService] else [])
  }

  /** The named volume a service mounts at /qdata; a node and its transaction manager share one. */
  function VolumeName(networkName: string, i: nat): string
  {
    networkName + "-vol" + Num(i)
  }

  function CakeshopVolumeName(networkName: string): string
  {
    networkName + "-cakeshopvol"
  }

  function NetName(networkName: string): string
  {
    networkName + "-net"
  }

  /** A quoted `host:container` port mapping. */
  function PortLine(hostPort: nat, containerPort: nat): string
  {
    "      - \"" + NatToString(hostPort) + ":" + NatToString(containerPort) + "\""
  }

  const RoExamplesLine := "      - ./qdata:/examples:ro"
  const DependsOnLine := "    depends_on:"
  const EnvironmentLine := "    environment:"
  const PrivateConfigTessera := "      - PRIVATE_CONFIG=/qdata/tm/tm.ipc"
  const PrivateConfigIgnore := "      - PRIVATE_CONFIG=ignore"

  function NetworkLines(networkName: string, ip: string): seq<string>
  {
    ["    networks:", "      " + NetName(networkName) + ":", "        ipv4_address: " + ip]
  }

  /** The `${txManager}` part of a node service. */
  function TxManagerLines(i: nat, hasTessera: bool): seq<string>
  {
    if hasTessera then [DependsOnLine, "      - " + ServiceName(TxManagerService(i)), EnvironmentLine, PrivateConfigTessera]
    else [EnvironmentLine, PrivateConfigIgnore]
  }

  function NodeServiceLines(config: NetworkConfig, i: nat, hasTessera: bool): seq<string>
    requires i < |config.nodes|
  {
    var node := config.nodes[i];
    var ports := config.containerPorts.quorum;
    var name := config.network.name;
    ["  " + ServiceName(NodeService(i)) + ":", "    << : *quorum-def", "    hostname: " + ServiceName(NodeService(i)),
     "    ports:", PortLine(node.quorum.rpcPort, ports.rpcPort), PortLine(node.quorum.wsPort, ports.wsPort),
     PortLine(node.quorum.graphQlPort, ports.graphQlPort),
     "    volumes:", "      - " + VolumeName(name, i) + ":/qdata", RoExamplesLine]
    + TxManagerLines(i, hasTessera)
    + ["      - NODE_ID=" + Num(i)]
    + NetworkLines(name, node.quorum.ip)
  }

  function TesseraServiceLines(config: NetworkConfig, i: nat): seq<string>
    requires i < |config.nodes|
  {
    var node := config.nodes[i];
    var name := config.network.name;
    ["  " + ServiceName(TxManagerService(i)) + ":", "    << : *tx-manager-def",
     "    hostname: " + ServiceName(TxManagerService(i)),
     "    ports:", PortLine(node.tm.thirdPartyPort, config.containerPorts.tm.thirdPartyPort),
     "    volumes:", "      - " + VolumeName(name, i) + ":/qdata", RoExamplesLine]
    + NetworkLines(name, node.tm.ip)
    + [EnvironmentLine, "      - NODE_ID=" + Num(i)]
  }

  function CakeshopServiceLines(config: NetworkConfig, host: Host): seq<string>
  {
    var name := config.network.name;
    ["  " + ServiceName(CakeshopService) + ":", "    << : *cakeshop-def", "    hostname: " + ServiceName(CakeshopService),
     "    ports:", "      - \"" + NatToString(config.network.cakeshopPort) + ":8999\"",
     "    volumes:", "      - " + CakeshopVolumeName(name) + ":/qdata", RoExamplesLine]
    + NetworkLines(name, host.cidrhost(config.containerPorts.dockerSubnet, 2))
  }

  /** buildNodeService: the template text, each line preceded by a newline. */
  function BuildNodeService(config: NetworkConfig, i: nat, hasTessera: bool): (r: string)
    requires i < |config.nodes|
    ensures r == "\n" + JoinLines(NodeServiceLines(config, i, hasTessera))
  {
    NewlineJoinIsBlock(NodeServiceLines(config, i, hasTessera));
    Block(NodeServiceLines(config, i, hasTessera))
  }

  function BuildTesseraService(config: NetworkConfig, i: nat): (r: string)
    requires i < |config.nodes|
    ensures r == "\n" + JoinLines(TesseraServiceLines(config, i))
  {
    NewlineJoinIsBlock(TesseraServiceLines(config, i));
    Block(TesseraServiceLines(config, i))
  }

  function BuildCakeshopService(config: NetworkConfig, host: Host): (r: string)
    ensures r == "\n" + JoinLines(CakeshopServiceLines(config, host))
  {
    NewlineJoinIsBlock(CakeshopServiceLines(config, host));
    Block(CakeshopServiceLines(config, host))
  }

  /** A service exists for the given number of nodes. */
  predicate InRange(s: Service, n: nat)
  {
    match s
    case NodeService(i) => i < n
    case TxManagerService(i) => i < n
    case CakeshopService => true
  }

  predicate AllInRange(plan: seq<Service>, n: nat)
  {
    forall k :: 0 <= k < |plan| ==> InRange(plan[k], n)
  }

  lemma InRangeWeaken(plan: seq<Service>, m: nat, n: nat)
    requires AllInRange(plan, m) && m <= n
    ensures AllInRange(plan, n)
  {
  }

  function ServiceLines(config: NetworkConfig, s: Service, hasTessera: bool, host: Host): seq<string>
    requires InRange(s, |config.nodes|)
  {
    match s
    case NodeService(i) => NodeServiceLines(config, i, hasTessera)
    case TxManagerService(i) => TesseraServiceLines(config, i)
    case CakeshopService => CakeshopServiceLines(config, host)
  }

  /** The text of one service, as its builder renders it. */
  function ServiceText(config: NetworkConfig, s: Service, hasTessera: bool, host: Host): string
    requires InRange(s, |config.nodes|)
  {
    match s
    case NodeService(i) => BuildNodeService(config, i, hasTessera)
    case TxManagerService(i) => BuildTesseraService(config, i)
    case CakeshopService => BuildCakeshopService(config, host)
  }

  /** The texts of a list of services, one after another. */
  function ServicesText(config: NetworkConfig, plan: seq<Service>, hasTessera: bool, host: Host): string
    requires AllInRange(plan, |config.nodes|)
  {
    if plan == [] then ""
    else ServiceText(config, plan[0], hasTessera, host) + ServicesText(config, plan[1..], hasTessera, host)
  }

  lemma AllInRangeAppend(a: seq<Service>, b: seq<Service>, n: nat)
    requires AllInRange(a, n) && AllInRange(b, n)
    ensures AllInRange(a + b, n)
  {
  }

  lemma {:induction false} ServicesTextAppend(config: NetworkConfig, a: seq<Service>, b: seq<Service>, hasTessera: bool, host: Host)
    requires AllInRange(a, |config.nodes|) && AllInRange(b, |config.nodes|)
    ensures AllInRange(a + b, |config.nodes|)
    ensures ServicesText(config, a + b, hasTessera, host)
            == ServicesText(config, a, hasTessera, host) + ServicesText(config, b, hasTessera, host)
  {
    AllInRangeAppend(a, b, |config.nodes|);
    if a == [] {
      assert a + b == b;
    } else {
      assert (a + b)[0] == a[0] && (a + b)[1..] == a[1..] + b;
      ServicesTextAppend(config, a[1..], b, hasTessera, host);
      AppendAssoc(ServiceText(config, a[0], hasTessera, host), ServicesText(config, a[1..], hasTessera, host),
                  ServicesText(config, b, hasTessera, host));
    }
  }

  /** The end block: the bridge network, then one volume per node and the cakeshop volume. */
  function VolumeLines(networkName: string, n: nat): (lines: seq<string>)
    ensures |lines| == n
  {
    seq(n, i requires 0 <= i < n => "  \"" + VolumeName(networkName, i) + "\":")
  }

  function NetworkHeadLines(config: NetworkConfig): seq<string>
  {
    var net := NetName(config.network.name);
    ["networks:", "  " + net + ":", "    name: " + net, "    driver: bridge", "    ipam:", "      driver: default",
     "      config:", "        - subnet: " + config.containerPorts.dockerSubnet, "volumes:"]
  }

  /** buildEndService: the volume lines are joined with newlines inside the template. */
  function BuildEndService(config: NetworkConfig): (r: string)
    ensures r == Block(EndServiceLines(config))
  {
    var name := config.network.name;
    EndServiceText(config);
    Block(NetworkHeadLines(config)) + "\n" + JoinLines(VolumeLines(name, |config.nodes|))
    + "\n  \"" + CakeshopVolumeName(name) + "\":"
  }

  /** The end block line by line; with no nodes the volume list leaves one empty line. */
  function EndServiceLines(config: NetworkConfig): seq<string>
  {
    var n := |config.nodes|;
    NetworkHeadLines(config)
    + (if n == 0 then [""] else VolumeLines(config.network.name, n))
    + ["  \"" + CakeshopVolumeName(config.network.name) + "\":"]
  }

  /** The template's text for the end block equals the end block's lines, each preceded by a newline. */
  lemma EndServiceText(config: NetworkConfig)
    ensures var name := config.network.name;
            Block(NetworkHeadLines(config)) + "\n" + JoinLines(VolumeLines(name, |config.nodes|))
            + "\n  \"" + CakeshopVolumeName(name) + "\":" == Block(EndServiceLines(config))
  {
    var name := config.network.name;
    var head := NetworkHeadLines(config);
    var vols := VolumeLines(name, |config.nodes|);
    var last := "  \"" + CakeshopVolumeName(name) + "\":";
    var middle := if |config.nodes| == 0 then [""] else vols;
    var bh, j, c := Block(head), JoinLines(vols), CakeshopVolumeName(name);
    assert bh + "\n" + j + "\n  \"" + c + "\":" == (bh + ("\n" + j)) + ("\n" + last);
    assert EndServiceLines(config) == (head + middle) + [last];
    NewlineJoinIsBlock(middle);
    assert JoinLines(middle) == j;
    assert Block([last]) == "\n" + last;
    BlockAppend(head, middle);
    BlockAppend(head + middle, [last]);
  }

  /** The definition fragments read from the library directory. */
  datatype Templates = Templates(quorum: string, tessera: string, cakeshop: string)

  /** The compose text for a plan of services. */
  function ComposeText(config: NetworkConfig, templates: Templates, host: Host): string
  {
    var hasTessera := config.network.tessera;
    var hasCakeshop := config.network.cakeshop;
    var plan := ServicePlan(|config.nodes|, hasTessera, hasCakeshop);
    host.formatNewLine(templates.quorum)
    + host.formatNewLine(if hasTessera then templates.tessera else "")
    + host.formatNewLine(if hasCakeshop then templates.cakeshop else "")
    + "services:"
    + ServicesText(config, plan, hasTessera, host)
    + BuildEndService(config)
  }

  /**
   * buildDockerCompose: the definitions, `services:`, the service blocks of the plan and the end block.
   * The node services are built per node, as the source's map does.
   */
  method BuildDockerCompose(config: NetworkConfig, templates: Templates, host: Host) returns (compose: string)
    ensures compose == ComposeText(config, templates, host)
  {
    var hasTessera := config.network.tessera;
    var hasCakeshop := config.network.cakeshop;
    var quorumDefinitions := templates.quorum;
    var tesseraDefinitions := if hasTessera then templates.tessera else "";
    var cakeshopDefinitions := if hasCakeshop then templates.cakeshop else "";
    var services := MapNodeServices(config, hasTessera, host);
    ghost var nodesText := Concat(services);
    if hasCakeshop {
      services := [Concat(services), BuildCakeshopService(config, host)];
      ConcatPair(nodesText, BuildCakeshopService(config, host));
    } else {
      assert nodesText + "" == nodesText;
    }
    PlanText(config, hasTessera, hasCakeshop, host);
    // the outer join('') of the source
    compose := host.formatNewLine(quorumDefinitions) + host.formatNewLine(tesseraDefinitions)
      + host.formatNewLine(cakeshopDefinitions) + "services:" + Concat(services) + BuildEndService(config);
  }

  /** The plan's text: the node services' text, then the cakeshop service's when there is one. */
  lemma PlanText(config: NetworkConfig, hasTessera: bool, hasCakeshop: bool, host: Host)
    ensures var n := |config.nodes|;
            ServicesText(config, ServicePlan(n, hasTessera, hasCakeshop), hasTessera, host)
            == ServicesText(config, NodeServices(n, hasTessera), hasTessera, host)
               + (if hasCakeshop then BuildCakeshopService(config, host) else "")
  {
    var n := |config.nodes|;
    var cakeshop := if hasCakeshop then [CakeshopService] else [];
    ServicesTextAppend(config, NodeServices(n, hasTessera), cakeshop, hasTessera, host);
    if hasCakeshop {
      assert cakeshop[1..] == [];
      assert ServicesText(config, cakeshop, hasTessera, host) == BuildCakeshopService(config, host) + "";
    }
  }

  /** The map over the nodes: one text per node, holding the node's services in plan order. */
  method MapNodeServices(config: NetworkConfig, hasTessera: bool, host: Host) returns (services: seq<string>)
    ensures |services| == |config.nodes|
    ensures Concat(services) == ServicesText(config, NodeServices(|config.nodes|, hasTessera), hasTessera, host)
  {
    services := [];
    for i := 0 to |config.nodes|
      invariant |services| == i
      invariant AllInRange(NodeServices(i, hasTessera), |config.nodes|)
      invariant Concat(services) == ServicesText(config, NodeServices(i, hasTessera), hasTessera, host)
    {
      var allServices := NodeAndTxManager(config, i, hasTessera);
      AppendNodeServices(config, services, allServices, i, hasTessera, host);
      services := services + [allServices];
    }
  }

  /** The services of node i: its node service, followed by its transaction manager's with Tessera. */
  method NodeAndTxManager(config: NetworkConfig, i: nat, hasTessera: bool) returns (allServices: string)
    requires i < |config.nodes|
    ensures allServices == BuildNodeService(config, i, hasTessera) + (if hasTessera then BuildTesseraService(config, i) else "")
  {
    allServices := BuildNodeService(config, i, hasTessera);
    if hasTessera {
      allServices := allServices + BuildTesseraService(config, i);
    }
  }

  lemma AppendNodeServices(config: NetworkConfig, services: seq<string>, allServices: string, i: nat,
                            hasTessera: bool, host: Host)
    requires i < |config.nodes|
    requires AllInRange(NodeServices(i, hasTessera), |config.nodes|)
    requires Concat(services) == ServicesText(config, NodeServices(i, hasTessera), hasTessera, host)
    requires allServices
             == BuildNodeService(config, i, hasTessera) + (if hasTessera then BuildTesseraService(config, i) else "")
    ensures AllInRange(NodeServices(i + 1, hasTessera), |config.nodes|)
    ensures Concat(services + [allServices])
            == ServicesText(config, NodeServices(i + 1, hasTessera), hasTessera, host)
  {
    var tm := if hasTessera then BuildTesseraService(config, i) else "";
    var one := [allServices];
    assert one[1..] == [];
    ConcatAppend(services, one);
    assert Concat(one) == allServices + "";
    NodeServicesStep(config, i, hasTessera, host);
    AppendAssoc(Concat(services), BuildNodeService(config, i, hasTessera), tm);
  }

  /** Node i's services: its own and, with Tessera, its transaction manager's. */
  lemma NodeGroupText(config: NetworkConfig, i: nat, hasTessera: bool, host: Host)
    requires i < |config.nodes|
    ensures var group := [NodeService(i)] + (if hasTessera then [TxManagerService(i)] else []);
            && AllInRange(group, |config.nodes|)
            && ServicesText(config, group, hasTessera, host)
               == BuildNodeService(config, i, hasTessera) + (if hasTessera then BuildTesseraService(config, i) else "")
  {
    var group := [NodeService(i)] + (if hasTessera then [TxManagerService(i)] else []);
    var node := BuildNodeService(config, i, hasTessera);
    assert group[0] == NodeService(i);
    if hasTessera {
      var tm := BuildTesseraService(config, i);
      assert group[1..] == [TxManagerService(i)];
      assert group[1..][1..] == [];
      assert ServicesText(config, group[1..], hasTessera, host) == tm + "";
      assert tm + "" == tm;
    } else {
      assert group[1..] == [];
      assert node + "" == node;
    }
    assert ServicesText(config, group, hasTessera, host) == node + ServicesText(config, group[1..], hasTessera, host);
  }

  /** Adding node i appends its service and, with Tessera, its transaction manager's. */
  lemma NodeServicesStep(config: NetworkConfig, i: nat, hasTessera: bool, host: Host)
    requires i < |config.nodes|
    ensures AllInRange(NodeServices(i, hasTessera), |config.nodes|)
    ensures AllInRange(NodeServices(i + 1, hasTessera), |config.nodes|)
    ensures ServicesText(config, NodeServices(i + 1, hasTessera), hasTessera, host)
            == ServicesText(config, NodeServices(i, hasTessera), hasTessera, host)
               + BuildNodeService(config, i, hasTessera)
               + (if hasTessera then BuildTesseraService(config, i) else "")
  {
    var group := [NodeService(i)] + (if hasTessera then [TxManagerService(i)] else []);
    assert NodeServices(i + 1, hasTessera) == NodeServices(i, hasTessera) + group;
    InRangeWeaken(NodeServices(i, hasTessera), i, |config.nodes|);
    InRangeWeaken(NodeServices(i + 1, hasTessera), i + 1, |config.nodes|);
    NodeGroupText(config, i, hasTessera, host);
    ServicesTextAppend(config, NodeServices(i, hasTessera), group, hasTessera, host);
    var prefix := ServicesText(config, NodeServices(i, hasTessera), hasTessera, host);
    var node := BuildNodeService(config, i, hasTessera);
    var tm := if hasTessera then BuildTesseraService(config, i) else "";
    AppendAssoc(prefix, node, tm);
  }

  // ---------------------------------------------------------------------------
  // Properties of the compose text

  /** With Tessera, node i's service sits at 2i and its transaction manager's at 2i+1; without, node i's at i. */
  lemma {:induction false} NodeServicesShape(n: nat, hasTessera: bool)
    ensures var plan := NodeServices(n, hasTessera);
            && |plan| == (if hasTessera then 2 * n else n)
            && (forall k :: 0 <= k < |plan| ==>
                  plan[k] == if !hasTessera then NodeService(k)
                             else if k % 2 == 0 then NodeService(k / 2) else TxManagerService(k / 2))
  {
    if n > 0 {
      NodeServicesShape(n - 1, hasTessera);
    }
  }

  /**
   * The plan: one node service per node in order, each followed by its transaction manager exactly with
   * Tessera, then the cakeshop exactly when it is enabled.
   */
  lemma ServicePlanShape(n: nat, hasTessera: bool, hasCakeshop: bool)
    ensures var plan := ServicePlan(n, hasTessera, hasCakeshop);
            && |plan| == (if hasTessera then 2 * n else n) + (if hasCakeshop then 1 else 0)
            && (forall i :: 0 <= i < n ==> NodeService(i) in plan)
            && (forall i :: 0 <= i < n ==> (TxManagerService(i) in plan <==> hasTessera))
            && (CakeshopService in plan <==> hasCakeshop)
            && (hasCakeshop ==> plan[|plan| - 1] == CakeshopService)
  {
    var nodes := NodeServices(n, hasTessera);
    var plan := ServicePlan(n, hasTessera, hasCakeshop);
    NodeServicesShape(n, hasTessera);
    forall i | 0 <= i < n
      ensures NodeService(i) in plan
      ensures TxManagerService(i) in plan <==> hasTessera
    {
      if hasTessera {
        assert plan[2 * i] == nodes[2 * i] == NodeService(2 * i / 2);
        assert plan[2 * i + 1] == nodes[2 * i + 1] == TxManagerService((2 * i + 1) / 2);
      } else {
        assert plan[i] == nodes[i];
        forall k | 0 <= k < |plan| ensures plan[k] != TxManagerService(i) {
          if k < |nodes| {
            assert plan[k] == nodes[k];
          }
        }
      }
    }
    forall k | 0 <= k < |nodes| ensures nodes[k] != CakeshopService {
    }
    if !hasCakeshop {
      assert plan == nodes;
    }
  }

  /** The first letter of a service's name tells its kind. */
  function Initial(s: Service): char
  {
    match s
    case NodeService(_) => 'n'
    case TxManagerService(_) => 't'
    case CakeshopService => 'c'
  }

  /** Different services have different names. */
  lemma ServiceNameInjective(a: Service, b: Service)
    requires ServiceName(a) == ServiceName(b)
    ensures a == b
  {
    var na, nb := ServiceName(a), ServiceName(b);
    assert na[0] == Initial(a) && nb[0] == Initial(b);
    match a
    case NodeService(i) =>
      assert b.NodeService?;
      assert Num(i) == na[4..] == nb[4..] == Num(b.index);
      NatToStringInjective(i + 1, b.index + 1);
    case TxManagerService(i) =>
      assert b.TxManagerService?;
      assert Num(i) == na[9..] == nb[9..] == Num(b.index);
      NatToStringInjective(i + 1, b.index + 1);
    case CakeshopService =>
  }

  /** No two services of the compose file share a name. */
  lemma ServiceNamesDistinct(n: nat, hasTessera: bool, hasCakeshop: bool)
    ensures var plan := ServicePlan(n, hasTessera, hasCakeshop);
            forall j, k :: 0 <= j < k < |plan| ==> ServiceName(plan[j]) != ServiceName(plan[k])
  {
    var nodes := NodeServices(n, hasTessera);
    var plan := ServicePlan(n, hasTessera, hasCakeshop);
    NodeServicesShape(n, hasTessera);
    forall j, k | 0 <= j < k < |plan|
      ensures ServiceName(plan[j]) != ServiceName(plan[k])
    {
      assert plan[j] == nodes[j];
      if k < |nodes| {
        assert plan[k] == nodes[k];
        if hasTessera {
          assert j / 2 != k / 2 || j % 2 != k % 2;
        }
      }
      if ServiceName(plan[j]) == ServiceName(plan[k]) {
        ServiceNameInjective(plan[j], plan[k]);
      }
    }
  }

  /**
   * buildNodeService: named node{i+1}, the host's rpc, ws and graphQl ports mapped to the
   * container's, and the node's quorum IP as its address.
   */
  lemma NodeServicePorts(config: NetworkConfig, i: nat, hasTessera: bool)
    requires i < |config.nodes|
    ensures var lines := NodeServiceLines(config, i, hasTessera);
            var node := config.nodes[i];
            var ports := config.containerPorts.quorum;
            && lines[0] == "  " + ServiceName(NodeService(i)) + ":"
            && lines[4..7] == [PortLine(node.quorum.rpcPort, ports.rpcPort), PortLine(node.quorum.wsPort, ports.wsPort),
                               PortLine(node.quorum.graphQlPort, ports.graphQlPort)]
            && lines[|lines| - 1] == "        ipv4_address: " + node.quorum.ip
  {
  }

  /**
   * buildNodeService: with Tessera the node depends on txmanager{i+1} and reaches it over
   * tm.ipc; without, its private config is `ignore`.
   */
  lemma NodeServiceTxManager(config: NetworkConfig, i: nat, hasTessera: bool)
    requires i < |config.nodes|
    ensures var lines := NodeServiceLines(config, i, hasTessera);
            && |lines| > 13
            && (lines[10] == DependsOnLine <==> hasTessera)
            && (hasTessera ==> lines[11] == "      - " + ServiceName(TxManagerService(i))
                               && lines[13] == PrivateConfigTessera)
            && (!hasTessera ==> lines[11] == PrivateConfigIgnore)
  {
    assert |EnvironmentLine| != |DependsOnLine|;
  }

  /** buildTesseraService: named txmanager{i+1}, third-party port mapped, the node's tm IP as address. */
  lemma TesseraServiceShape(config: NetworkConfig, i: nat)
    requires i < |config.nodes|
    ensures var lines := TesseraServiceLines(config, i);
            var node := config.nodes[i];
            && lines[0] == "  " + ServiceName(TxManagerService(i)) + ":"
            && lines[4] == PortLine(node.tm.thirdPartyPort, config.containerPorts.tm.thirdPartyPort)
            && lines[10] == "        ipv4_address: " + node.tm.ip
  {
  }

  /** buildCakeshopService: the UI port maps to 8999 and the address is host 2 of the docker subnet. */
  lemma CakeshopServiceShape(config: NetworkConfig, host: Host)
    ensures var lines := CakeshopServiceLines(config, host);
            && lines[0] == "  " + ServiceName(CakeshopService) + ":"
            && lines[4] == "      - \"" + NatToString(config.network.cakeshopPort) + ":8999\""
            && lines[|lines| - 1] == "        ipv4_address: " + host.cidrhost(config.containerPorts.dockerSubnet, 2)
  {
  }

  /** The named volume each service mounts at /qdata. */
  function MountedVolume(networkName: string, s: Service): string
  {
    match s
    case NodeService(i) => VolumeName(networkName, i)
    case TxManagerService(i) => VolumeName(networkName, i)
    case CakeshopService => CakeshopVolumeName(networkName)
  }

  function VolumeDeclaration(volume: string): string
  {
    "  \"" + volume + "\":"
  }

  /** Every service mounts its volume at /qdata and joins the network of the compose file. */
  lemma ServiceMountsAndJoins(config: NetworkConfig, s: Service, hasTessera: bool, host: Host)
    requires InRange(s, |config.nodes|)
    ensures var name := config.network.name;
            var lines := ServiceLines(config, s, hasTessera, host);
            && "      - " + MountedVolume(name, s) + ":/qdata" in lines
            && "      " + NetName(name) + ":" in lines
  {
    var name := config.network.name;
    var lines := ServiceLines(config, s, hasTessera, host);
    match s
    case NodeService(i) =>
      assert lines[8] == "      - " + MountedVolume(name, s) + ":/qdata";
      assert lines[|lines| - 2] == "      " + NetName(name) + ":";
    case TxManagerService(i) =>
      assert lines[6] == "      - " + MountedVolume(name, s) + ":/qdata";
      assert lines[9] == "      " + NetName(name) + ":";
    case CakeshopService =>
      assert lines[6] == "      - " + MountedVolume(name, s) + ":/qdata";
      assert lines[9] == "      " + NetName(name) + ":";
  }

  /**
   * buildEndService declares what the services use: the network, each node's volume (shared by the
   * node and its transaction manager) and the cakeshop volume.
   */
  lemma ServiceVolumeDeclared(config: NetworkConfig, s: Service)
    requires InRange(s, |config.nodes|)
    ensures var name := config.network.name;
            var end := EndServiceLines(config);
            && VolumeDeclaration(MountedVolume(name, s)) in end
            && end[1] == "  " + NetName(name) + ":"
  {
    var name := config.network.name;
    var end := EndServiceLines(config);
    match s
    case NodeService(i) =>
      assert end[9 + i] == VolumeDeclaration(MountedVolume(name, s));
    case TxManagerService(i) =>
      assert end[9 + i] == VolumeDeclaration(MountedVolume(name, s));
    case CakeshopService =>
      assert end[|end| - 1] == VolumeDeclaration(MountedVolume(name, s));
  }

  /** A transaction manager a node service depends on is itself in the plan. */
  lemma DependenciesInPlan(n: nat, hasCakeshop: bool, i: nat)
    requires i < n
    ensures TxManagerService(i) in ServicePlan(n, true, hasCakeshop)
  {
    ServicePlanShape(n, true, hasCakeshop);
  }

  /**
   * buildEndService lists exactly one volume per node, in node order, all distinct, then always the
   * cakeshop volume; with no nodes an empty line stands where the list would be.
   */
  lemma EndServiceVolumes(config: NetworkConfig)
    ensures var end := EndServiceLines(config);
            var name := config.network.name;
            var n := |config.nodes|;
            && |end| == 10 + (if n == 0 then 1 else n)
            && (forall i :: 0 <= i < n ==> end[9 + i] == VolumeDeclaration(VolumeName(name, i)))
            && (n == 0 ==> end[9] == "")
            && end[|end| - 1] == VolumeDeclaration(CakeshopVolumeName(name))
            && (forall i, j :: 0 <= i < j < n ==> VolumeName(name, i) != VolumeName(name, j))
  {
    var name := config.network.name;
    var head := NetworkHeadLines(config);
    var middle := if |config.nodes| == 0 then [""] else VolumeLines(name, |config.nodes|);
    assert EndServiceLines(config) == head + middle + [VolumeDeclaration(CakeshopVolumeName(name))];
    assert |head| == 9;
    forall i, j | 0 <= i < j < |config.nodes|
      ensures VolumeName(name, i) != VolumeName(name, j)
    {
      VolumeNameInjective(name, i, j);
    }
  }

  /** Volumes of different nodes have different names. */
  lemma VolumeNameInjective(name: string, i: nat, j: nat)
    ensures VolumeName(name, i) == VolumeName(name, j) ==> i == j
  {
    var a, b := VolumeName(name, i), VolumeName(name, j);
    if a == b {
      assert Num(i) == a[|name| + 4..] == b[|name| + 4..] == Num(j);
      NatToStringInjective(i + 1, j + 1);
    }
  }
}
