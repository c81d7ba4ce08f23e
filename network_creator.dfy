/**
 * networkCreator.js: the network folder path, the static-node (enode) list,
 * the Tessera peer list, the per-node qdata layout, the script selection and
 * the remote resource generation command.
 */
module NetworkCreator {
  import opened Wrappers
  import opened Text
  import opened Config
  import opened Registry

  const NetworkNameError := "Network name was empty or contained invalid characters"

  /** getFullNetworkPath: `cwd/network/<sanitized name>`, or an error when the name sanitises to nothing. */
  function GetFullNetworkPath(config: NetworkConfig, host: Host): (r: Result<Path, string>)
    ensures r.Failure? <==> host.sanitize(config.network.name) == ""
    ensures r.Failure? ==> r.error == NetworkNameError
    ensures r.Success? ==> |r.value| == 3 && r.value[2] != ""
    ensures r.Success? ==> r.value == [host.cwd, "network", host.sanitize(config.network.name)]
  {
    var networkFolderName := host.sanitize(config.network.name);
    if networkFolderName == "" then Failure(NetworkNameError)
    else Success([host.cwd, "network", networkFolderName])
  }

  // ---------------------------------------------------------------------------
  // Static nodes

  const DiscportQuery := "?discport=0"
  const RaftportParam := "&raftport="

  /** The part of a static-node entry every consensus shares. */
  function EnodeBase(enodeId: string, quorum: QuorumEndpoint): string
  {
    "enode://" + enodeId + "@" + quorum.ip + ":" + NatToString(quorum.devP2pPort) + DiscportQuery
  }

  /** What follows discport=0: the raft port parameter with raft, nothing otherwise. */
  function RaftSuffix(quorum: QuorumEndpoint, raft: bool): string
  {
    if raft then RaftportParam + NatToString(quorum.raftPort) else ""
  }

  /** The static-node entry for one node: the shared part, lengthened exactly with raft. */
  function EnodeAddress(enodeId: string, quorum: QuorumEndpoint, raft: bool): (r: string)
    ensures StartsWith(r, EnodeBase(enodeId, quorum))
    ensures |r| > |EnodeBase(enodeId, quorum)| <==> raft
  {
    var base := EnodeBase(enodeId, quorum);
    var r := base + RaftSuffix(quorum, raft);
    assert r[..|base|] == base;
    r
  }

  /**
   * createStaticNodes: one entry per node, in node order. enodeIds[i] is the
   * content of the file `key<i+1>/enode` in the config directory.
   */
  method CreateStaticNodes(nodes: seq<Node>, raft: bool, enodeIds: seq<string>) returns (staticNodes: seq<string>)
    requires |enodeIds| == |nodes|
    ensures |staticNodes| == |nodes|
    ensures forall i :: 0 <= i < |nodes| ==> staticNodes[i] == EnodeAddress(enodeIds[i], nodes[i].quorum, raft)
    ensures forall i :: 0 <= i < |nodes| ==> StartsWith(staticNodes[i], EnodeBase(enodeIds[i], nodes[i].quorum))
  {
    staticNodes := [];
    for i := 0 to |nodes|
      invariant |staticNodes| == i
      invariant forall j :: 0 <= j < i ==> staticNodes[j] == EnodeAddress(enodeIds[j], nodes[j].quorum, raft)
    {
      var node := nodes[i];
      var enodeAddress := "enode://" + enodeIds[i] + "@" + node.quorum.ip + ":"
        + NatToString(node.quorum.devP2pPort) + DiscportQuery;
      if raft {
        enodeAddress := enodeAddress + RaftportParam + NatToString(node.quorum.raftPort);
      }
      staticNodes := staticNodes + [enodeAddress];
    }
    forall i | 0 <= i < |nodes|
      ensures StartsWith(staticNodes[i], EnodeBase(enodeIds[i], nodes[i].quorum))
    {
      var b := EnodeBase(enodeIds[i], nodes[i].quorum);
      assert staticNodes[i][..|b|] == b;
    }
  }

  /** The fields an enode URL carries. */
  datatype Enode = Enode(id: string, ip: string, port: nat, raftPort: Option<nat>)

  /** Reads the query of an enode URL: `?discport=0`, optionally followed by `&raftport=<port>`. */
  function ParseQuery(tail: string): Option<Option<nat>>
  {
    if tail == DiscportQuery then Some(None)
    else if StartsWith(tail, DiscportQuery + RaftportParam) then
      match ParseNat(tail[|DiscportQuery + RaftportParam|..])
      case None => None
      case Some(raftPort) => Some(Some(raftPort))
    else None
  }

  /** Reads the part of an enode URL after the IP: `<port>?discport=0[&raftport=<port>]`. */
  function ParsePortAndQuery(s: string): Option<(nat, Option<nat>)>
  {
    var k := DigitRun(s);
    if k == 0 then None
    else
      match ParseQuery(s[k..])
      case None => None
      case Some(raftPort) => Some((DigitsValue(s[..k]), raftPort))
  }

  /** Reads an enode URL of the shape createStaticNodes writes. */
  function ParseEnode(s: string): Option<Enode>
  {
    if !StartsWith(s, "enode://") then None
    else
      match SplitAt(s[8..], '@')
      case None => None
      case Some((id, afterAt)) =>
        match SplitAt(afterAt, ':')
        case None => None
        case Some((ip, afterColon)) =>
          match ParsePortAndQuery(afterColon)
          case None => None
          case Some((port, raftPort)) => Some(Enode(id, ip, port, raftPort))
  }

  /** The query createStaticNodes writes reads back as the raft port exactly with raft. */
  lemma QueryRoundTrip(quorum: QuorumEndpoint, raft: bool)
    ensures ParseQuery(DiscportQuery + RaftSuffix(quorum, raft)) == Some(if raft then Some(quorum.raftPort) else None)
  {
    var tail := DiscportQuery + RaftSuffix(quorum, raft);
    if raft {
      var prefix := DiscportQuery + RaftportParam;
      var digits := NatToString(quorum.raftPort);
      assert tail == prefix + digits by {
        AppendAssoc(DiscportQuery, RaftportParam, digits);
      }
      assert |tail| > |DiscportQuery|;
      assert tail[..|prefix|] == prefix && tail[|prefix|..] == digits;
      ParseNatOfNatToString(quorum.raftPort);
    } else {
      assert tail == DiscportQuery;
    }
  }

  /** A port's decimal text followed by a query reads back as that port and the query's raft port. */
  lemma PortAndQueryRoundTrip(port: nat, tail: string, raftPort: Option<nat>)
    requires tail != [] && !IsDigit(tail[0])
    requires ParseQuery(tail) == Some(raftPort)
    ensures ParsePortAndQuery(NatToString(port) + tail) == Some((port, raftPort))
  {
    var digits := NatToString(port);
    var s := digits + tail;
    assert DigitRun(s) == |digits| by {
      DigitRunOfDigitsThen(digits, tail);
    }
    assert s[..|digits|] == digits && s[|digits|..] == tail;
    DigitsValueOfNatToString(port);
  }

  /** Regrouping an entry's pieces around the separators the reader splits at. */
  lemma EnodeShape(id: string, ip: string, port: string, query: string, suffix: string)
    ensures "enode://" + id + "@" + ip + ":" + port + query + suffix
         == "enode://" + (id + ['@'] + (ip + [':'] + (port + (query + suffix))))
  {
  }

  /**
   * An entry can be read back: it names the node's id, quorum IP and devP2P port, and
   * after `discport=0` it carries the raft port and nothing else exactly when the consensus is raft.
   */
  lemma EnodeRoundTrip(enodeId: string, quorum: QuorumEndpoint, raft: bool)
    requires '@' !in enodeId && ':' !in quorum.ip
    ensures ParseEnode(EnodeAddress(enodeId, quorum, raft))
         == Some(Enode(enodeId, quorum.ip, quorum.devP2pPort, if raft then Some(quorum.raftPort) else None))
  {
    var tail := DiscportQuery + RaftSuffix(quorum, raft);
    var afterColon := NatToString(quorum.devP2pPort) + tail;
    var afterAt := quorum.ip + [':'] + afterColon;
    var rest := enodeId + ['@'] + afterAt;
    var s := EnodeAddress(enodeId, quorum, raft);
    EnodeShape(enodeId, quorum.ip, NatToString(quorum.devP2pPort), DiscportQuery, RaftSuffix(quorum, raft));
    DropPrefix("enode://", rest);
    SplitAtFirst(enodeId, '@', afterAt);
    SplitAtFirst(quorum.ip, ':', afterColon);
    assert tail[0] == '?';
    QueryRoundTrip(quorum, raft);
    PortAndQueryRoundTrip(quorum.devP2pPort, tail, if raft then Some(quorum.raftPort) else None);
  }

  /** Nodes that differ in enode id, IP or devP2P port get different entries. */
  lemma EnodeAddressInjective(id1: string, q1: QuorumEndpoint, id2: string, q2: QuorumEndpoint, raft: bool)
    requires '@' !in id1 && ':' !in q1.ip && '@' !in id2 && ':' !in q2.ip
    requires EnodeAddress(id1, q1, raft) == EnodeAddress(id2, q2, raft)
    ensures id1 == id2 && q1.ip == q2.ip && q1.devP2pPort == q2.devP2pPort
    ensures raft ==> q1.raftPort == q2.raftPort
  {
    EnodeRoundTrip(id1, q1, raft);
    EnodeRoundTrip(id2, q2, raft);
  }

  /** An entry contains `&raftport=` if and only if the consensus is raft (ids and IPs hold no '&'). */
  lemma RaftPortIffRaft(enodeId: string, quorum: QuorumEndpoint, raft: bool)
    requires '&' !in enodeId && '&' !in quorum.ip
    ensures Contains(EnodeAddress(enodeId, quorum, raft), RaftportParam) <==> raft
  {
    var base := EnodeBase(enodeId, quorum);
    var s := EnodeAddress(enodeId, quorum, raft);
    var port := NatToString(quorum.devP2pPort);
    assert forall k :: 0 <= k < |port| ==> port[k] != '&';
    assert '&' !in base;
    if raft {
      assert OccursAt(s, RaftportParam, |base|);
    } else {
      assert s == base;
      NotContainsWithout(s, RaftportParam);
    }
  }

  // ---------------------------------------------------------------------------
  // Tessera peer list

  /** One entry `{ url: ... }` of the Tessera peer list. */
  datatype Peer = Peer(url: string)

  function PeerUrl(tm: TmEndpoint): string
  {
    "http://" + tm.ip + ":" + NatToString(tm.p2pPort)
  }

  /** createPeerList: empty without Tessera, otherwise one peer per node, in node order. */
  function CreatePeerList(nodes: seq<Node>, tessera: bool): (peers: seq<Peer>)
    ensures !tessera ==> peers == []
    ensures tessera ==> |peers| == |nodes|
    ensures tessera ==> forall i :: 0 <= i < |nodes| ==> peers[i].url == PeerUrl(nodes[i].tm)
  {
    if !tessera then [] else seq(|nodes|, i requires 0 <= i < |nodes| => Peer(PeerUrl(nodes[i].tm)))
  }

  /** Reads back the IP and port of a peer URL. */
  function ParsePeerUrl(url: string): Option<(string, nat)>
  {
    if !StartsWith(url, "http://") then None
    else
      match SplitAt(url[7..], ':')
      case None => None
      case Some((ip, port)) =>
        match ParseNat(port)
        case None => None
        case Some(p) => Some((ip, p))
  }

  lemma PeerUrlRoundTrip(tm: TmEndpoint)
    requires ':' !in tm.ip
    ensures ParsePeerUrl(PeerUrl(tm)) == Some((tm.ip, tm.p2pPort))
  {
    var port := NatToString(tm.p2pPort);
    assert PeerUrl(tm)[7..] == tm.ip + [':'] + port;
    SplitAtFirst(tm.ip, ':', port);
    ParseNatOfNatToString(tm.p2pPort);
  }

  /** Transaction managers at different (IP, p2p port) pairs get different peer entries. */
  lemma PeerListDistinct(nodes: seq<Node>, i: nat, j: nat)
    requires i < |nodes| && j < |nodes|
    requires ':' !in nodes[i].tm.ip && ':' !in nodes[j].tm.ip
    requires (nodes[i].tm.ip, nodes[i].tm.p2pPort) != (nodes[j].tm.ip, nodes[j].tm.p2pPort)
    ensures CreatePeerList(nodes, true)[i] != CreatePeerList(nodes, true)[j]
  {
    PeerUrlRoundTrip(nodes[i].tm);
    PeerUrlRoundTrip(nodes[j].tm);
  }

  /** The Tessera peer list and the static-node list never share an entry. */
  lemma PeerListSeparateFromStaticNodes(nodes: seq<Node>, tessera: bool, enodeIds: seq<string>, raft: bool, i: nat, j: nat)
    requires |enodeIds| == |nodes| && i < |nodes| && j < |nodes| && tessera
    ensures CreatePeerList(nodes, tessera)[i].url != EnodeAddress(enodeIds[j], nodes[j].quorum, raft)
  {
    var url := CreatePeerList(nodes, tessera)[i].url;
    assert url[0] == 'h';
    assert EnodeAddress(enodeIds[j], nodes[j].quorum, raft)[0] == 'e';
  }

  // ---------------------------------------------------------------------------
  // Scripts

  /** The scripts module's entries (their content is not part of this model). */
  datatype Script = Start | Stop | Runscript | Attach | PublicContract | PrivateContract | GetEndpoints

  /** What createScripts writes: each script into the network folder. */
  datatype ScriptWrites = ScriptWrites(networkPath: Path, scripts: seq<Script>)

  /** createScripts: the five common scripts, then privateContract with Tessera, then getEndpoints on Kubernetes. */
  method CreateScripts(config: NetworkConfig, host: Host) returns (r: Result<ScriptWrites, string>)
    ensures r.Failure? <==> GetFullNetworkPath(config, host).Failure?
    ensures r.Failure? ==> r.error == NetworkNameError
    ensures r.Success? ==> r.value.networkPath == GetFullNetworkPath(config, host).value
    ensures r.Success? ==>
              r.value.scripts
              == [Start, Stop, Runscript, Attach, PublicContract]
                 + (if config.network.tessera then [PrivateContract] else [])
                 + (if config.network.deployment == Kubernetes then [GetEndpoints] else [])
    ensures r.Success? ==> (PrivateContract in r.value.scripts <==> config.network.tessera)
    ensures r.Success? ==> (GetEndpoints in r.value.scripts <==> config.network.deployment == Kubernetes)
  {
    var scripts := [Start, Stop, Runscript, Attach, PublicContract];
    if config.network.tessera {
      scripts := scripts + [PrivateContract];
    }
    if config.network.deployment == Kubernetes {
      scripts := scripts + [GetEndpoints];
    }
    var networkPath := GetFullNetworkPath(config, host);
    if networkPath.Failure? {
      return Failure(networkPath.error);
    }
    r := Success(ScriptWrites(networkPath.value, scripts));
  }

  // ---------------------------------------------------------------------------
  // qdata directory

  /** The filesystem effects createQdataDirectory asks for, by path. */
  datatype FileOp =
    | MakeDir(dir: Path)
    | CopyFile(source: Path, destination: Path)
      /** writeJsonFile(dir, fileName, createConfig(dir, nodeNumber, ip, thirdPartyPort, p2pPort, peers)) */
    | WriteTesseraConfig(dir: Path, fileName: string, nodeNumber: nat, ip: string,
                         thirdPartyPort: nat, p2pPort: nat, peers: seq<Peer>)

  /** The path an effect creates or writes. */
  function Target(op: FileOp): Path
  {
    match op
    case MakeDir(dir) => dir
    case CopyFile(_, destination) => destination
    case WriteTesseraConfig(dir, fileName, _, _, _, _, _) => dir + [fileName]
  }

  /** The effects of one iteration of the per-node loop, for node i (node number i + 1). */
  function NodeOps(config: NetworkConfig, qdata: Path, configPath: Path, peerList: seq<Peer>, i: nat): seq<FileOp>
    requires i < |config.nodes|
  {
    var nodeNumber := NatToString(i + 1);
    var keySource := configPath + ["key" + nodeNumber];
    var quorumDir := qdata + ["dd" + nodeNumber];
    var gethDir := quorumDir + ["geth"];
    var keyDir := quorumDir + ["keystore"];
    [ MakeDir(quorumDir), MakeDir(gethDir), MakeDir(keyDir),
      CopyFile(configPath + ["permissioned-nodes.json"], quorumDir + ["permissioned-nodes.json"]),
      CopyFile(configPath + ["permissioned-nodes.json"], quorumDir + ["static-nodes.json"]),
      CopyFile(keySource + ["acctkeyfile.json"], keyDir + ["key"]),
      CopyFile(keySource + ["nodekey"], gethDir + ["nodekey"]),
      CopyFile(keySource + ["password.txt"], keyDir + ["password.txt"]),
      CopyFile(configPath + ["genesis.json"], quorumDir + ["genesis.json"]) ]
    + TesseraOps(config, qdata, configPath, peerList, i)
  }

  /** The Tessera part of one iteration: key copies and a synthesized (bash) or shared config. */
  function TesseraOps(config: NetworkConfig, qdata: Path, configPath: Path, peerList: seq<Peer>, i: nat): seq<FileOp>
    requires i < |config.nodes|
  {
    var nodeNumber := NatToString(i + 1);
    var keySource := configPath + ["key" + nodeNumber];
    var tmDir := qdata + ["c" + nodeNumber];
    var tm := config.nodes[i].tm;
    if !config.network.tessera then []
    else
      [ MakeDir(tmDir),
        CopyFile(keySource + ["tm.key"], tmDir + ["tm.key"]),
        CopyFile(keySource + ["tm.pub"], tmDir + ["tm.pub"]) ]
      + if config.network.deployment == Bash then
          [WriteTesseraConfig(tmDir, "tessera-config-09-" + nodeNumber + ".json", i + 1,
                              tm.ip, tm.thirdPartyPort, tm.p2pPort, peerList)]
        else
          [CopyFile(configPath + ["tessera-config-9.0.json"], tmDir + ["tessera-config-09.json"])]
  }

  /** The effects of the first n iterations, in node order. */
  function NodesOps(config: NetworkConfig, qdata: Path, configPath: Path, peerList: seq<Peer>, n: nat): seq<FileOp>
    requires n <= |config.nodes|
  {
    if n == 0 then [] else NodesOps(config, qdata, configPath, peerList, n - 1) + NodeOps(config, qdata, configPath, peerList, n - 1)
  }

  /**
   * createQdataDirectory: the logs folder, then for each node in order its data directory
   * dd<n>, and with Tessera its c<n> directory.
   */
  method CreateQdataDirectory(config: NetworkConfig, host: Host) returns (r: Result<seq<FileOp>, string>)
    ensures r.Failure? <==> GetFullNetworkPath(config, host).Failure?
    ensures r.Failure? ==> r.error == NetworkNameError
    ensures r.Success? ==>
              var qdata := GetFullNetworkPath(config, host).value + ["qdata"];
              r.value == [MakeDir(qdata + ["logs"])]
                         + NodesOps(config, qdata, [host.cwd, config.network.configDir],
                                    CreatePeerList(config.nodes, config.network.tessera), |config.nodes|)
  {
    var networkPath := GetFullNetworkPath(config, host);
    if networkPath.Failure? {
      return Failure(networkPath.error);
    }
    var qdata := networkPath.value + ["qdata"];
    var configPath := [host.cwd, config.network.configDir];
    var peerList := CreatePeerList(config.nodes, config.network.tessera);
    var nodeOps := ForEachNode(config, qdata, configPath, peerList);
    var ops := [MakeDir(qdata + ["logs"])] + nodeOps;
    r := Success(ops);
  }

  /** The per-node loop: each node's iteration in node order. */
  method ForEachNode(config: NetworkConfig, qdata: Path, configPath: Path, peerList: seq<Peer>)
    returns (ops: seq<FileOp>)
    ensures ops == NodesOps(config, qdata, configPath, peerList, |config.nodes|)
  {
    ops := [];
    for i := 0 to |config.nodes|
      invariant ops == NodesOps(config, qdata, configPath, peerList, i)
    {
      var nodeOps := NodeIteration(config, qdata, configPath, peerList, i);
      ops := ops + nodeOps;
    }
  }

  /** The body of the per-node loop: the quorum directories and files, then the Tessera ones. */
  method NodeIteration(config: NetworkConfig, qdata: Path, configPath: Path, peerList: seq<Peer>, i: nat)
    returns (ops: seq<FileOp>)
    requires i < |config.nodes|
    ensures ops == NodeOps(config, qdata, configPath, peerList, i)
  {
    var node := config.nodes[i];
    var nodeNumber := NatToString(i + 1);
    var keySource := configPath + ["key" + nodeNumber];
    var quorumDir := qdata + ["dd" + nodeNumber];
    var gethDir := quorumDir + ["geth"];
    var keyDir := quorumDir + ["keystore"];
    var tmDir := qdata + ["c" + nodeNumber];
    var nodeOps := [MakeDir(quorumDir), MakeDir(gethDir), MakeDir(keyDir),
                    CopyFile(configPath + ["permissioned-nodes.json"], quorumDir + ["permissioned-nodes.json"]),
                    CopyFile(configPath + ["permissioned-nodes.json"], quorumDir + ["static-nodes.json"]),
                    CopyFile(keySource + ["acctkeyfile.json"], keyDir + ["key"]),
                    CopyFile(keySource + ["nodekey"], gethDir + ["nodekey"]),
                    CopyFile(keySource + ["password.txt"], keyDir + ["password.txt"]),
                    CopyFile(configPath + ["genesis.json"], quorumDir + ["genesis.json"])];
    var tmOps := [];
    if config.network.tessera {
      tmOps := [MakeDir(tmDir),
                CopyFile(keySource + ["tm.key"], tmDir + ["tm.key"]),
                CopyFile(keySource + ["tm.pub"], tmDir + ["tm.pub"])];
      if config.network.deployment == Bash {
        tmOps := tmOps + [WriteTesseraConfig(tmDir, "tessera-config-09-" + nodeNumber + ".json", i + 1,
                                             node.tm.ip, node.tm.thirdPartyPort, node.tm.p2pPort, peerList)];
      } else {
        tmOps := tmOps + [CopyFile(configPath + ["tessera-config-9.0.json"], tmDir + ["tessera-config-09.json"])];
      }
    }
    assert tmOps == TesseraOps(config, qdata, configPath, peerList, i);
    ops := nodeOps + tmOps;
  }

  /** Every path one node's iteration creates lies in that node's own dd<n> directory, or with Tessera its c<n> directory. */
  lemma NodeOpsStayInNodeDirs(config: NetworkConfig, qdata: Path, configPath: Path, peerList: seq<Peer>, i: nat)
    requires i < |config.nodes|
    ensures forall op :: op in NodeOps(config, qdata, configPath, peerList, i) ==>
              qdata + ["dd" + NatToString(i + 1)] <= Target(op)
              || (config.network.tessera && qdata + ["c" + NatToString(i + 1)] <= Target(op))
  {
    var quorumDir := qdata + ["dd" + NatToString(i + 1)];
    var tmDir := qdata + ["c" + NatToString(i + 1)];
    forall op | op in NodeOps(config, qdata, configPath, peerList, i)
      ensures quorumDir <= Target(op) || (config.network.tessera && tmDir <= Target(op))
    {
      if op !in TesseraOps(config, qdata, configPath, peerList, i) {
        assert quorumDir <= Target(op);
      }
    }
  }

  /** The directory segment (right under qdata) of two different nodes never coincides. */
  lemma NodeDirNamesDistinct(i: nat, j: nat, x: string, y: string)
    requires i != j
    requires x == "dd" + NatToString(i + 1) || x == "c" + NatToString(i + 1)
    requires y == "dd" + NatToString(j + 1) || y == "c" + NatToString(j + 1)
    ensures x != y
  {
    NatToStringInjective(i + 1, j + 1);
    if x[0] == y[0] {
      var k := if x[0] == 'd' then 2 else 1;
      assert x[k..] == NatToString(i + 1) && y[k..] == NatToString(j + 1);
    }
  }

  /** Two different nodes never create or write the same path, nor one inside the other's. */
  lemma NodeTargetsDisjoint(config: NetworkConfig, qdata: Path, configPath: Path, peerList: seq<Peer>, i: nat, j: nat)
    requires i < |config.nodes| && j < |config.nodes| && i != j
    ensures forall op1, op2 ::
              op1 in NodeOps(config, qdata, configPath, peerList, i) && op2 in NodeOps(config, qdata, configPath, peerList, j)
              ==> !(Target(op1) <= Target(op2)) && !(Target(op2) <= Target(op1))
  {
    NodeOpsStayInNodeDirs(config, qdata, configPath, peerList, i);
    NodeOpsStayInNodeDirs(config, qdata, configPath, peerList, j);
    forall op1, op2 |
      op1 in NodeOps(config, qdata, configPath, peerList, i) && op2 in NodeOps(config, qdata, configPath, peerList, j)
      ensures !(Target(op1) <= Target(op2)) && !(Target(op2) <= Target(op1))
    {
      var t1, t2 := Target(op1), Target(op2);
      assert |t1| > |qdata| && |t2| > |qdata|;
      NodeDirNamesDistinct(i, j, t1[|qdata|], t2[|qdata|]);
    }
  }

  /** The part of one node's iteration that every configuration shares: its quorum data directory. */
  lemma CommonOpsInQuorumDir(config: NetworkConfig, qdata: Path, configPath: Path, peerList: seq<Peer>, i: nat)
    requires i < |config.nodes|
    ensures var ops := NodeOps(config, qdata, configPath, peerList, i);
            && ops == ops[..9] + TesseraOps(config, qdata, configPath, peerList, i)
            && forall op :: op in ops[..9] ==>
                 !op.WriteTesseraConfig? && |Target(op)| > |qdata| && Target(op)[|qdata|] == "dd" + NatToString(i + 1)
  {
  }

  /**
   * With Tessera a node's iteration ends in its config step: the synthesized per-node file for
   * bash deployments, the copy of the shared file otherwise; the three steps before it are
   * neither of those.
   */
  lemma TesseraOpsShape(config: NetworkConfig, qdata: Path, configPath: Path, peerList: seq<Peer>, i: nat)
    requires i < |config.nodes| && config.network.tessera
    ensures var tessera := TesseraOps(config, qdata, configPath, peerList, i);
            var nodeNumber := NatToString(i + 1);
            var tm := config.nodes[i].tm;
            && |tessera| == 4
            && tessera[3] == (if config.network.deployment == Bash
                              then WriteTesseraConfig(qdata + ["c" + nodeNumber], "tessera-config-09-" + nodeNumber + ".json",
                                                      i + 1, tm.ip, tm.thirdPartyPort, tm.p2pPort, peerList)
                              else SharedTesseraConfig(qdata, configPath, i))
            && forall k :: 0 <= k < 3 ==>
                 !tessera[k].WriteTesseraConfig? && tessera[k] != SharedTesseraConfig(qdata, configPath, i)
  {
    var nodeNumber := NatToString(i + 1);
    var tmDir := qdata + ["c" + nodeNumber];
    assert tmDir + ["tessera-config-09.json"] == qdata + ["c" + nodeNumber, "tessera-config-09.json"];
    assert (tmDir + ["tm.key"])[|tmDir|] != "tessera-config-09.json";
    assert (tmDir + ["tm.pub"])[|tmDir|] != "tessera-config-09.json";
  }

  /** The copy of the shared Tessera config into node i's c<n> directory. */
  function SharedTesseraConfig(qdata: Path, configPath: Path, i: nat): FileOp
  {
    var nodeNumber := NatToString(i + 1);
    CopyFile(configPath + ["tessera-config-9.0.json"], qdata + ["c" + nodeNumber, "tessera-config-09.json"])
  }

  /** A node's iteration synthesizes its own tessera-config-09-<n>.json exactly for Tessera with bash. */
  lemma TesseraConfigWritten(config: NetworkConfig, qdata: Path, configPath: Path, peerList: seq<Peer>, i: nat)
    requires i < |config.nodes|
    ensures var ops := NodeOps(config, qdata, configPath, peerList, i);
            var nodeNumber := NatToString(i + 1);
            var tm := config.nodes[i].tm;
            && ((exists op :: op in ops && op.WriteTesseraConfig?)
                <==> config.network.tessera && config.network.deployment == Bash)
            && (config.network.tessera && config.network.deployment == Bash ==>
                  WriteTesseraConfig(qdata + ["c" + nodeNumber], "tessera-config-09-" + nodeNumber + ".json",
                                     i + 1, tm.ip, tm.thirdPartyPort, tm.p2pPort, peerList) in ops)
  {
    var ops := NodeOps(config, qdata, configPath, peerList, i);
    var tessera := TesseraOps(config, qdata, configPath, peerList, i);
    CommonOpsInQuorumDir(config, qdata, configPath, peerList, i);
    if config.network.tessera {
      TesseraOpsShape(config, qdata, configPath, peerList, i);
      assert ops[12] == tessera[3];
      if config.network.deployment != Bash {
        assert forall op :: op in tessera ==> !op.WriteTesseraConfig?;
      }
    }
  }

  /** A node's iteration copies the shared tessera-config-9.0.json exactly for Tessera without bash. */
  lemma SharedTesseraConfigCopied(config: NetworkConfig, qdata: Path, configPath: Path, peerList: seq<Peer>, i: nat)
    requires i < |config.nodes|
    ensures SharedTesseraConfig(qdata, configPath, i) in NodeOps(config, qdata, configPath, peerList, i)
            <==> config.network.tessera && config.network.deployment != Bash
  {
    var ops := NodeOps(config, qdata, configPath, peerList, i);
    var shared := SharedTesseraConfig(qdata, configPath, i);
    var tessera := TesseraOps(config, qdata, configPath, peerList, i);
    CommonOpsInQuorumDir(config, qdata, configPath, peerList, i);
    assert Target(shared)[|qdata|] == "c" + NatToString(i + 1);
    assert ("c" + NatToString(i + 1))[0] != ("dd" + NatToString(i + 1))[0];
    assert shared !in ops[..9];
    if config.network.tessera {
      TesseraOpsShape(config, qdata, configPath, peerList, i);
      assert ops[12] == tessera[3];
    }
  }

  /** Each op of node i's iteration is among the effects of the first n iterations, i < n. */
  lemma {:induction false} NodeOpsInNodesOps(config: NetworkConfig, qdata: Path, configPath: Path, peerList: seq<Peer>,
                                             n: nat, i: nat, op: FileOp)
    requires i < n <= |config.nodes|
    requires op in NodeOps(config, qdata, configPath, peerList, i)
    ensures op in NodesOps(config, qdata, configPath, peerList, n)
  {
    if i < n - 1 {
      NodeOpsInNodesOps(config, qdata, configPath, peerList, n - 1, i, op);
    }
  }

  /** Each op of the first n iterations comes from one node's iteration. */
  lemma {:induction false} NodesOpsFromNodeOps(config: NetworkConfig, qdata: Path, configPath: Path, peerList: seq<Peer>,
                                               n: nat, op: FileOp)
    requires n <= |config.nodes|
    requires op in NodesOps(config, qdata, configPath, peerList, n)
    ensures exists i :: 0 <= i < n && op in NodeOps(config, qdata, configPath, peerList, i)
  {
    if op !in NodeOps(config, qdata, configPath, peerList, n - 1) {
      NodesOpsFromNodeOps(config, qdata, configPath, peerList, n - 1, op);
    }
  }

  /** The effects of the whole loop are exactly the effects of the nodes' iterations. */
  lemma NodesOpsMembership(config: NetworkConfig, qdata: Path, configPath: Path, peerList: seq<Peer>, n: nat, op: FileOp)
    requires n <= |config.nodes|
    ensures op in NodesOps(config, qdata, configPath, peerList, n)
            <==> exists i :: 0 <= i < n && op in NodeOps(config, qdata, configPath, peerList, i)
  {
    if op in NodesOps(config, qdata, configPath, peerList, n) {
      NodesOpsFromNodeOps(config, qdata, configPath, peerList, n, op);
    }
    if exists i :: 0 <= i < n && op in NodeOps(config, qdata, configPath, peerList, i) {
      var i :| 0 <= i < n && op in NodeOps(config, qdata, configPath, peerList, i);
      NodeOpsInNodesOps(config, qdata, configPath, peerList, n, i, op);
    }
  }


  // ---------------------------------------------------------------------------
  // Remote resource generation

  /** `%QUORUM-NODE<d>_SERVICE_HOST%` for one decimal digit d. */
  function Placeholder(d: char): string
  {
    "%QUORUM-NODE" + [d] + "_SERVICE_HOST%"
  }

  predicate PlaceholderAtStart(text: string)
  {
    |text| >= 27 && text[..12] == "%QUORUM-NODE" && IsDigit(text[12]) && text[13..27] == "_SERVICE_HOST%"
  }

  /**
   * The global regular-expression replacement of `%QUORUM-NODE([0-9])_SERVICE_HOST%` by
   * `address$1`: scanning left to right, a match is replaced and skipped, anything else kept.
   */
  function ReplaceServiceHosts(text: string, address: string): (r: string)
    ensures '%' !in text ==> r == text
    decreases |text|
  {
    if text == [] then ""
    else if PlaceholderAtStart(text) then
      assert text[0] == text[..12][0];
      address + [text[12]] + ReplaceServiceHosts(text[27..], address)
    else
      assert text == [text[0]] + text[1..];
      [text[0]] + ReplaceServiceHosts(text[1..], address)
  }

  /** Text without '%' passes through unchanged. */
  lemma {:induction false} ReplaceKeepsPlainText(a: string, b: string, address: string)
    requires '%' !in a
    ensures ReplaceServiceHosts(a + b, address) == a + ReplaceServiceHosts(b, address)
    decreases |a|
  {
    if a == [] {
      assert a + b == b;
    } else {
      var t := a + b;
      assert [a[0]] + a[1..] == a;
      assert t[0] == a[0] && t[1..] == a[1..] + b;
      ReplacePlainHead(t, address);
      ReplaceKeepsPlainText(a[1..], b, address);
      AppendAssoc([a[0]], a[1..], ReplaceServiceHosts(b, address));
    }
  }

  /** A text that does not start with '%' keeps its first character. */
  lemma ReplacePlainHead(t: string, address: string)
    requires t != [] && t[0] != '%'
    ensures ReplaceServiceHosts(t, address) == [t[0]] + ReplaceServiceHosts(t[1..], address)
  {
    assert |t| >= 12 ==> t[..12][0] == t[0];
  }

  /** A placeholder becomes the address followed by its digit. */
  lemma ReplacePlaceholder(d: char, b: string, address: string)
    requires IsDigit(d)
    ensures ReplaceServiceHosts(Placeholder(d) + b, address) == address + [d] + ReplaceServiceHosts(b, address)
  {
    var t := Placeholder(d) + b;
    assert t[..12] == "%QUORUM-NODE" && t[12] == d && t[13..27] == "_SERVICE_HOST%" && t[27..] == b;
  }

  /** A text made of plain fillers, each followed by a node placeholder. */
  function WithPlaceholders(parts: seq<(string, char)>): string
  {
    if parts == [] then "" else parts[0].0 + Placeholder(parts[0].1) + WithPlaceholders(parts[1..])
  }

  /** The same text with every placeholder replaced by the address and its digit. */
  function WithAddresses(parts: seq<(string, char)>, address: string): string
  {
    if parts == [] then "" else parts[0].0 + address + [parts[0].1] + WithAddresses(parts[1..], address)
  }

  /** Every placeholder is replaced by the address followed by its node digit, and nothing else changes. */
  lemma {:induction false} ReplaceEveryPlaceholder(parts: seq<(string, char)>, last: string, address: string)
    requires forall k :: 0 <= k < |parts| ==> '%' !in parts[k].0 && IsDigit(parts[k].1)
    requires '%' !in last
    ensures ReplaceServiceHosts(WithPlaceholders(parts) + last, address) == WithAddresses(parts, address) + last
  {
    if parts == [] {
      ReplaceKeepsPlainText(last, "", address);
      assert last + "" == last && WithPlaceholders(parts) + last == last && WithAddresses(parts, address) + last == last;
    } else {
      var (filler, d) := parts[0];
      var rest := WithPlaceholders(parts[1..]) + last;
      WithPlaceholdersUnfold(parts, last);
      ReplaceKeepsPlainText(filler, Placeholder(d) + rest, address);
      ReplacePlaceholder(d, rest, address);
      ReplaceEveryPlaceholder(parts[1..], last, address);
      WithAddressesUnfold(parts, address, last);
    }
  }

  lemma WithPlaceholdersUnfold(parts: seq<(string, char)>, last: string)
    requires parts != []
    ensures WithPlaceholders(parts) + last
            == parts[0].0 + (Placeholder(parts[0].1) + (WithPlaceholders(parts[1..]) + last))
  {
  }

  lemma WithAddressesUnfold(parts: seq<(string, char)>, address: string, last: string)
    requires parts != []
    ensures WithAddresses(parts, address) + last
            == parts[0].0 + ((address + [parts[0].1]) + (WithAddresses(parts[1..], address) + last))
  {
    Regroup(parts[0].0, address, [parts[0].1], WithAddresses(parts[1..], address), last);
  }

  lemma Regroup(a: string, b: string, c: string, d: string, e: string)
    ensures a + b + c + d + e == a + ((b + c) + (d + e))
  {
  }

  /** A path as the text joinPath renders, segments separated by '/' (joinPath's normalisation is not modelled). */
  function PathText(path: Path): string
  {
    JoinWith(path, "/")
  }

  /** The image `${getDockerRegistry()}quorumengineering/qubernetes:<version>`. */
  function QubernetesImage(registry: Option<string>, qubernetesVersion: string): string
  {
    RegistryText(registry) + "quorumengineering/qubernetes:" + qubernetesVersion
  }

  const Copy7NodesCommand := "cp -r /qubernetes/7nodes /qubernetes/out/config; "

  /** The 7nodes keys are copied in the container exactly when keys are not generated. */
  function Copy7Nodes(config: NetworkConfig): (copy: string)
    ensures copy == Copy7NodesCommand <==> !config.network.generateKeys
    ensures copy == "" <==> config.network.generateKeys
  {
    if !config.network.generateKeys then Copy7NodesCommand else ""
  }

  /** The init script is qube-init exactly on Kubernetes. */
  function InitScript(config: NetworkConfig): (script: string)
    ensures script == "qube-init" <==> config.network.deployment == Kubernetes
    ensures script == "quorum-init" <==> config.network.deployment != Kubernetes
  {
    if config.network.deployment == Kubernetes then "qube-init" else "quorum-init"
  }

  /** The shell command run inside the qubernetes container. */
  function InitCommand(config: NetworkConfig): string
  {
    Copy7Nodes(config) + "./" + InitScript(config) + " --action=update qubernetes.yaml"
  }


  /** The three commands generateResourcesRemote runs: enter the network folder, pull the image, run it. */
  function DockerCommands(networkPath: Path, image: string, config: NetworkConfig): seq<string>
  {
    [ "cd " + PathText(networkPath),
      "docker pull " + image,
      "docker run --rm -v " + PathText(networkPath + ["qubernetes.yaml"]) + ":/qubernetes/qubernetes.yaml -v "
        + PathText(networkPath + ["out"]) + ":/qubernetes/out " + image + " /bin/bash -c \"" + InitCommand(config) + "\"" ]
  }

  /** What generateResourcesRemote asks for once the resource file is written. */
  datatype RemotePlan = RemotePlan(
    resourceFile: Path,
    commands: seq<string>,
    /** the rewritten permissioned-nodes.json, docker deployments only */
    permissionedNodes: Option<(Path, string)>,
    /** the remote output directory copied to the config directory, docker deployments only */
    copiedOutput: Option<(Path, Path)>)

  /**
   * generateResourcesRemote. registry is the stored docker registry, qubernetesVersion the
   * LATEST_QUBERNETES tag, permissionedNodesText the content of out/config/permissioned-nodes.json
   * after the container ran.
   */
  function GenerateResourcesRemote(config: NetworkConfig, host: Host, registry: Option<string>,
                                   qubernetesVersion: string, permissionedNodesText: string): (r: Result<RemotePlan, string>)
    ensures r.Failure? <==> GetFullNetworkPath(config, host).Failure?
    ensures r.Success? ==>
              var networkPath := GetFullNetworkPath(config, host).value;
              && r.value.resourceFile == networkPath + ["qubernetes.yaml"]
              && r.value.commands == DockerCommands(networkPath, QubernetesImage(registry, qubernetesVersion), config)
    ensures r.Success? ==> (r.value.permissionedNodes.Some? <==> config.network.deployment == Docker)
    ensures r.Success? ==> (r.value.copiedOutput.Some? <==> config.network.deployment == Docker)
    ensures r.Success? && config.network.deployment == Docker ==>
              var networkPath := GetFullNetworkPath(config, host).value;
              && r.value.permissionedNodes.value
                 == (networkPath + ["out/config/permissioned-nodes.json"],
                     ReplaceServiceHosts(permissionedNodesText, host.buildDockerIp(config.containerPorts.dockerSubnet, "1")))
              && r.value.copiedOutput.value == (networkPath + ["out", "config"], [host.cwd, config.network.configDir])
  {
    match GetFullNetworkPath(config, host)
    case Failure(e) => Failure(e)
    case Success(networkPath) =>
      var commands := DockerCommands(networkPath, QubernetesImage(registry, qubernetesVersion), config);
      if config.network.deployment == Docker then
        var location := networkPath + ["out/config/permissioned-nodes.json"];
        var rewritten := ReplaceServiceHosts(permissionedNodesText,
                                             host.buildDockerIp(config.containerPorts.dockerSubnet, "1"));
        Success(RemotePlan(networkPath + ["qubernetes.yaml"], commands, Some((location, rewritten)),
                           Some((networkPath + ["out", "config"], [host.cwd, config.network.configDir]))))
      else
        Success(RemotePlan(networkPath + ["qubernetes.yaml"], commands, None, None))
  }
}
