# quorum-wizard generators and validators, modelled in Dafny

quorum-wizard turns one network configuration record (`config.network`,
`config.nodes`, `config.containerPorts`) into the artefacts of a Quorum
network. This project models three parts of it:

- **networkCreator.js**: the network folder path; the static-node list of
  enode URLs, one per node; the Tessera peer list; the per-node layout of the
  `qdata` directory; the script selection; and the command plan of remote
  resource generation, including the rewrite of the
  `%QUORUM-NODE<d>_SERVICE_HOST%` placeholders.
- **dockerHelper.js**: the docker registry setting, which is module state;
  the `.env` file; and the `docker-compose.yml` text, built from one service
  per node, a transaction manager per node with Tessera, an optional cakeshop
  service and the end block of networks and volumes.
- **validators.js**: the range validator, the network-id validator and the
  cakeshop answer transform. JavaScript's `parseInt(s, 10)` is modelled as a
  decimal-prefix parser that returns `None` for NaN.

Files:

- `wrappers.dfy`: Option and Result.
- `text.dfy`: decimal rendering, digit runs, searching, joins.
- `config.dfy`: the configuration record and the `Host` collaborators.
- `registry.dfy`: the registry state, modelled as class `DockerRegistry`.
- `network_creator.dfy`
- `docker_helper.dfy`
- `validators.dfy`

How the source is represented:

- **Collaborators whose code is not part of this model** are fields of the
  `Host` datatype. They are taken as given functions, so contracts can name
  their results:
  - `sanitize`
  - `buildDockerIp`
  - `cidrhost`
  - `formatNewLine`
  - `cwd`
- **The NetworkConfig predicates** (`isRaft`, `isTessera`, `isCakeshop`,
  `isQuorum260Plus`) become booleans in the record.
- **The deployment kind** is a datatype.
- **`isJava11Plus`** becomes a boolean parameter.
- **The enode ids** read from `key<n>/enode` are a parameter: one id string
  per node.
- **File effects** become values:
  - createQdataDirectory's effects are a list of `FileOp`s;
  - createScripts' writes are a `ScriptWrites` value;
  - generateResourcesRemote's effects are a `RemotePlan`.
- **Paths** are lists of segments in the order `joinPath` receives them.

## Model

| member | source | states |
|---|---|---|
| NetworkCreator.GetFullNetworkPath | src/generators/networkCreator.js:168-175 | fails with the invalid-name message exactly when the sanitized name is empty; otherwise the path is cwd/network/<sanitized name> |
| NetworkCreator.CreateStaticNodes | src/generators/networkCreator.js:147-159 | one entry per node in node order; entry i is the enode address of the i-th id and node, and it starts with `enode://id@ip:devP2pPort?discport=0` |
| NetworkCreator.QueryRoundTrip | src/generators/networkCreator.js:153-156 | the query after the port reads back as the raft port with raft and as no raft port without |
| NetworkCreator.PortAndQueryRoundTrip | src/generators/networkCreator.js:153 | the decimal devP2P port followed by a query reads back as that port and the query's raft port |
| NetworkCreator.EnodeAddress | src/generators/networkCreator.js:153-157 | an entry starts with `enode://id@ip:devP2pPort?discport=0` and is longer than that exactly with raft |
| NetworkCreator.EnodeRoundTrip | src/generators/networkCreator.js:153-157 | an entry parses back to its id, quorum IP and devP2P port; after `discport=0` it carries the raft port and nothing else, exactly with raft |
| NetworkCreator.EnodeAddressInjective | src/generators/networkCreator.js:153-157 | equal entries come from equal ids, IPs and devP2P ports, and with raft from equal raft ports |
| NetworkCreator.RaftPortIffRaft | src/generators/networkCreator.js:154-156 | an entry contains `&raftport=` if and only if the consensus is raft |
| NetworkCreator.CreatePeerList | src/generators/networkCreator.js:161-166 | empty without Tessera; otherwise one `http://tm.ip:tm.p2pPort` peer per node, in node order |
| NetworkCreator.PeerUrlRoundTrip | src/generators/networkCreator.js:165 | a peer URL parses back to the transaction manager's IP and p2p port |
| NetworkCreator.PeerListDistinct | src/generators/networkCreator.js:165 | transaction managers with different (IP, p2p port) pairs get different peers |
| NetworkCreator.PeerListSeparateFromStaticNodes | src/generators/networkCreator.js:147-166 | no peer URL equals a static-node entry |
| NetworkCreator.CreateScripts | src/generators/networkCreator.js:177-194 | fails exactly when the network path fails; otherwise start, stop, runscript, attach and publicContract in that order, then privateContract iff Tessera, then getEndpoints iff Kubernetes, all into the network path |
| NetworkCreator.CreateQdataDirectory | src/generators/networkCreator.js:94-145 | fails exactly when the network path fails; otherwise the logs folder, then each node's iteration in node order |
| NetworkCreator.ForEachNode | src/generators/networkCreator.js:106-144 | the loop's effects are the nodes' iterations, concatenated in node order |
| NetworkCreator.NodeIteration | src/generators/networkCreator.js:107-143 | one iteration: dd<n>, geth and keystore folders, the six copies, then the Tessera part |
| NetworkCreator.CommonOpsInQuorumDir | src/generators/networkCreator.js:115-124 | the first nine effects of an iteration lie under dd<n> and write no Tessera config; the Tessera part follows them |
| NetworkCreator.NodeOpsStayInNodeDirs | src/generators/networkCreator.js:107-142 | every path of node i's iteration lies under dd<i+1>, or under c<i+1> with Tessera |
| NetworkCreator.NodeDirNamesDistinct | src/generators/networkCreator.js:109-112 | the directory names dd<n> and c<n> of different nodes never coincide |
| NetworkCreator.NodeTargetsDisjoint | src/generators/networkCreator.js:106-144 | no path created by one node's iteration equals or contains a path of another node's |
| NetworkCreator.TesseraOpsShape | src/generators/networkCreator.js:125-143 | with Tessera the iteration ends in four effects; the last is the synthesized per-node config for bash and the copy of the shared config otherwise |
| NetworkCreator.TesseraConfigWritten | src/generators/networkCreator.js:130-139 | an iteration writes a Tessera config iff Tessera with bash, and then it is `tessera-config-09-<n>.json` in c<n>, built from the node's tm IP and ports and the peer list |
| NetworkCreator.SharedTesseraConfigCopied | src/generators/networkCreator.js:140-142 | an iteration copies `tessera-config-9.0.json` to `c<n>/tessera-config-09.json` iff Tessera without bash |
| NetworkCreator.NodeOpsInNodesOps | src/generators/networkCreator.js:106-144 | each effect of node i's iteration is among the effects of the first n iterations, for i < n |
| NetworkCreator.NodesOpsFromNodeOps | src/generators/networkCreator.js:106-144 | each effect of the first n iterations comes from the iteration of some node i < n |
| NetworkCreator.NodesOpsMembership | src/generators/networkCreator.js:106-144 | an effect is in the loop's effects if and only if it is in some node's iteration |
| NetworkCreator.ReplaceServiceHosts | src/generators/networkCreator.js:63-66 | a text without '%' is returned unchanged |
| NetworkCreator.ReplaceKeepsPlainText | src/generators/networkCreator.js:63-66 | text without '%' passes through the placeholder replacement unchanged |
| NetworkCreator.ReplacePlaceholder | src/generators/networkCreator.js:63-66 | a placeholder with digit d becomes the docker IP followed by d, and the replacement continues after it |
| NetworkCreator.ReplaceEveryPlaceholder | src/generators/networkCreator.js:60-67 | in text made of plain fillers and placeholders, every placeholder becomes the address and its digit, and the fillers stay as they are |
| NetworkCreator.Copy7Nodes | src/generators/networkCreator.js:46 | the 7nodes copy command appears iff keys are not generated, and is empty otherwise |
| NetworkCreator.InitScript | src/generators/networkCreator.js:45 | the init script is qube-init iff the deployment is Kubernetes, and quorum-init otherwise |
| NetworkCreator.GenerateResourcesRemote | src/generators/networkCreator.js:36-70 | fails exactly when the network path fails; otherwise: the resource file is qubernetes.yaml; the three commands are cd, pull and run of the registry's qubernetes image; and iff docker, the placeholder-replaced text (address buildDockerIp(subnet, '1')) is written to `<network path>/out/config/permissioned-nodes.json` and `<network path>/out/config` is copied to `<cwd>/<configDir>` |
| Registry.RemoveTrailingSlash | src/generators/dockerHelper.js:25 | the result is the input or the input without one final '/', and it is the input exactly when the input does not end in '/' |
| Registry.NormalizeRegistry | src/generators/dockerHelper.js:14-25 | a missing or empty argument stores the empty string; a non-empty one fails iff it begins with `http`, with the scheme message; otherwise the stored value is the argument with one final '/' removed and then '/' appended, so it ends in '/' |
| Registry.NormalizeKeepsTrailingSlash | src/generators/dockerHelper.js:24-25 | a registry already ending in '/' is stored unchanged; one ending in two slashes keeps both |
| Registry.NormalizeAppendsSlash | src/generators/dockerHelper.js:24-25 | a registry without a trailing slash gets exactly one appended |
| Registry.NormalizeIdempotent | src/generators/dockerHelper.js:14-25 | setting the stored value again stores the same value |
| Registry.DockerRegistry.constructor | src/generators/dockerHelper.js:12 | before any set, the registry holds undefined |
| Registry.DockerRegistry.Set | src/generators/dockerHelper.js:14-28 | fails exactly when normalisation fails, and then keeps the old value; otherwise stores the normalised value |
| Registry.DockerRegistry.Get | src/generators/dockerHelper.js:30-32 | returns the last stored value |
| DockerHelper.EnvEntries | src/generators/dockerHelper.js:89-110 | 7 entries, plus 3 iff Tessera, 1 iff quorum 2.6 or later and 1 iff the stored registry is not ''; the first seven are the base block, with Tessera the next three are the Tessera block, and with a registry the last is DOCKER_REGISTRY with the registry text |
| DockerHelper.RenderSevenEntries | src/generators/dockerHelper.js:89-95 | seven entries render as their `KEY=value` lines separated by newlines, as the base template writes them |
| DockerHelper.RenderThreeEntries | src/generators/dockerHelper.js:96-101 | an appended block of three entries is each line preceded by a newline |
| DockerHelper.CreateEnvFile | src/generators/dockerHelper.js:88-111 | the text is the rendering of the entry list: the base keys, then the Tessera, geth-args and registry blocks under their flags |
| DockerHelper.EnvKeys | src/generators/dockerHelper.js:89-110 | the keys are, in order: the seven base keys; the three Tessera keys iff Tessera; QUORUM_GETH_ARGS iff quorum 2.6 or later; DOCKER_REGISTRY iff the stored registry is not ''. DOCKER_IP is buildDockerIp(subnet, '10') |
| DockerHelper.TesseraBlockWhole | src/generators/dockerHelper.js:96-101 | each of the three Tessera keys is present iff Tessera, so the block is whole or absent |
| DockerHelper.GethArgsPresent | src/generators/dockerHelper.js:102-105 | QUORUM_GETH_ARGS is present iff quorum is 2.6 or later |
| DockerHelper.RegistryPresent | src/generators/dockerHelper.js:106-109 | DOCKER_REGISTRY is present iff the stored registry is not the empty string |
| DockerHelper.EnvRoundTrip | src/generators/dockerHelper.js:88-111 | splitting a rendered .env into lines and each line at its first '=' gives back the entries, when keys hold no '=' and nothing holds a line break |
| DockerHelper.EnvFileRoundTrip | src/generators/dockerHelper.js:88-111 | the .env file createEnvFile writes reads back as exactly its entry list |
| DockerHelper.BuildDockerCompose | src/generators/dockerHelper.js:34-72 | the compose text is the definitions, then `services:`, then the texts of the service plan, then the end block |
| DockerHelper.PlanText | src/generators/dockerHelper.js:60-62 | the services' text is the node services' text, followed by the cakeshop service iff cakeshop |
| DockerHelper.MapNodeServices | src/generators/dockerHelper.js:53-59 | one text per node, and joined they are the texts of the node services in plan order |
| DockerHelper.NodeAndTxManager | src/generators/dockerHelper.js:54-57 | node i's text is its node service, followed by its transaction manager iff Tessera |
| DockerHelper.NodeServicesStep | src/generators/dockerHelper.js:53-59 | adding node i appends its node service's text and, with Tessera, its transaction manager's |
| DockerHelper.NodeServicesShape | src/generators/dockerHelper.js:53-59 | with Tessera node i is at 2i and its transaction manager at 2i+1; without Tessera node i is at i |
| DockerHelper.ServicePlanShape | src/generators/dockerHelper.js:53-62 | the plan has 2n entries with Tessera and n without, plus one for cakeshop; it holds every node service, each transaction manager iff Tessera, and the cakeshop iff cakeshop, which then comes last |
| DockerHelper.ServiceNameInjective | src/generators/dockerHelper.js:124-162 | different services have different names (node<n>, txmanager<n>, cakeshop) |
| DockerHelper.ServiceNamesDistinct | src/generators/dockerHelper.js:53-62 | no two services of the compose file share a name |
| DockerHelper.BuildNodeService | src/generators/dockerHelper.js:113-139 | the node service text is one newline followed by the service's lines joined with newlines |
| DockerHelper.NodeServicePorts | src/generators/dockerHelper.js:123-138 | the node service is named node<i+1>; it maps the host's rpc, ws and graphQl ports to the container's; its address is the node's quorum IP |
| DockerHelper.NodeServiceTxManager | src/generators/dockerHelper.js:115-121 | `depends_on` is present iff Tessera; with Tessera it depends on txmanager<i+1> and uses tm.ipc; without, PRIVATE_CONFIG=ignore |
| DockerHelper.BuildTesseraService | src/generators/dockerHelper.js:141-157 | the transaction manager text is one newline followed by its lines joined with newlines |
| DockerHelper.TesseraServiceShape | src/generators/dockerHelper.js:141-157 | the service is named txmanager<i+1>, maps the third-party port and has the node's tm IP as its address |
| DockerHelper.BuildCakeshopService | src/generators/dockerHelper.js:159-173 | the cakeshop text is one newline followed by its lines joined with newlines |
| DockerHelper.CakeshopServiceShape | src/generators/dockerHelper.js:159-173 | the service is named cakeshop, maps the cakeshop port to 8999 and has cidrhost(subnet, 2) as its address |
| DockerHelper.ServiceMountsAndJoins | src/generators/dockerHelper.js:113-173 | every service mounts its volume at /qdata and joins the network `<name>-net` |
| DockerHelper.ServiceVolumeDeclared | src/generators/dockerHelper.js:113-189 | every volume a service mounts is declared in the end block, and so is the network |
| DockerHelper.DependenciesInPlan | src/generators/dockerHelper.js:53-59 | with Tessera every transaction manager a node depends on is in the plan |
| DockerHelper.BuildEndService | src/generators/dockerHelper.js:175-189 | the end block, whose volume lines the template joins with newlines, is the network head lines, then the volume lines (an empty line when there are no nodes), then the cakeshop volume, each preceded by a newline |
| DockerHelper.EndServiceVolumes | src/generators/dockerHelper.js:186-188 | exactly one volume `<name>-vol<i+1>` per node, in node order and all distinct, then always `<name>-cakeshopvol` |
| DockerHelper.VolumeNameInjective | src/generators/dockerHelper.js:187 | volumes of different nodes have different names |
| Validators.TrimStartSkipsWhitespace | src/questions/validators.js:4 | leading JavaScript white space is skipped whole |
| Validators.TrimStartIsSuffix | src/questions/validators.js:4 | trimming only removes characters from the front |
| Validators.TrimStartSkipsOnlyWhitespace | src/questions/validators.js:4 | what trimming removes is white space only |
| Validators.ParseInt | src/questions/validators.js:4 | empty or all-white-space text is NaN; a negative result comes only from text whose first non-space character is '-' |
| Validators.ParseIntOfDigitStart | src/questions/validators.js:4 | text starting with a digit parses as its digit run |
| Validators.ParseIntOfMinus | src/questions/validators.js:4 | a minus sign before a digit run parses as the negated run |
| Validators.ReadDigitsOfNatToString | src/questions/validators.js:4 | the decimal text of m followed by a non-digit reads as m |
| Validators.ParseIntOfIntToString | src/questions/validators.js:4 | parseInt reads back the text of any integer, whatever non-digit text follows it |
| Validators.ParseIntSkipsWhitespace | src/questions/validators.js:4 | leading white space does not change what parseInt reads |
| Validators.ParseIntWithoutDigits | src/questions/validators.js:4 | text without a single digit is NaN |
| Validators.ValidateNumberStringInRange | src/questions/validators.js:3-9 | true iff the parsed number is in [low, high]; out-of-range and NaN input give the `Number must be between low and high (inclusive)` message |
| Validators.RangeOfNumeral | src/questions/validators.js:3-9 | on the text of n the validator accepts iff low <= n <= high |
| Validators.ValidateNetworkId | src/questions/validators.js:11-19 | the exact text "1" gets the mainnet message; a negative parse gets the positivity message; everything else, zero and NaN included, is accepted |
| Validators.NetworkIdOfNumeral | src/questions/validators.js:11-19 | on the text of n, the validator accepts iff n >= 0 and n != 1 |
| Validators.NetworkIdAcceptsPaddedMainnet | src/questions/validators.js:12-18 | "01" parses to 1 yet is accepted |
| Validators.ValidateNetworkIdIntended | src/questions/validators.js:11-19 | every input that parses to 1 gets the mainnet message; accepted iff NaN or a non-negative value other than 1 |
| Validators.IntendedDiffersOnlyOnMainnetSpellings | src/questions/validators.js:11-19 | the intended and the written validator differ exactly on inputs other than "1" that parse to 1 |
| Validators.TransformCakeshopAnswer | src/questions/validators.js:21-26 | 'none' iff the answer is not 'Yes'; for 'Yes', 0.11.0-RC2-J11 iff Java 11 or later and 0.11.0-RC2 otherwise |

## Left out

**Effects and external processes**
- File system effects are not performed. The model states which folders,
  copies and writes are asked for, not the I/O:
  - `createNetwork`'s remove, create and write;
  - the `createFolder`, `copyFile`, `writeJsonFile` and `writeScript` calls;
  - `initDockerCompose`'s writes;
  - `generateResourcesLocally`.
- `executeSync` and its try/catch (networkCreator.js:54-59) are external
  process execution. The model states the commands but not their outcome.
- `info` and `error` logging are output only.

**Collaborators not part of this model**
- `generateKeys`, `generateConsensusConfig` and `createConfig` are not part
  of this model. The Tessera config is the `WriteTesseraConfig` effect with
  createConfig's arguments.
- `buildKubernetesResource` and `buildCakeshopDir` are not part of this
  model either.
- `sanitize-filename`, `buildDockerIp`, `cidrhost` and `formatNewLine` are
  given functions of `Host`, and their results are opaque.
- `isRaft`, `isTessera`, `isCakeshop`, `isBash`, `isDocker`,
  `isKubernetes`, `isQuorum260Plus` and `isJava11Plus` are booleans or the
  deployment datatype.
- `removeTrailingSlash` (pathUtils) is not part of this model, and its code
  is not shown. The model assumes that it drops one final '/'.
  `NormalizeAppendsSlash`, `NormalizeIdempotent` and
  `NormalizeKeepsTrailingSlash` rest on that assumption; in particular, a
  registry ending in "//" keeps both slashes only under it.

**Approximations**
- `joinPath` normalisation is not modelled. Paths are lists of segments.
  `out/config/permissioned-nodes.json` stays one segment, as the source
  passes it.
- Reading files is not modelled; the text read is a parameter instead:
  - the enode id files;
  - the permissioned-nodes text after the container ran;
  - the YAML definition templates.
- `LATEST_QUBERNETES` is a parameter.
- Numbers are unbounded integers. Ports render in decimal. JavaScript
  number precision, exponent notation and the parsing of very long digit
  strings are not modelled.
- `parseInt` is modelled for radix 10 only: no `0x` prefix and no numeric
  separators. The white space it skips is the set in `IsJsWhitespace`.

**Not modelled at all**
- The contents of the `scripts` module are not part of this model. Only
  the choice and order of scripts are.
- `src/questions/index.js` is not part of this model; it is the interactive
  prompt flow.
- `src/questions/questions.js` is not part of this model; it holds static
  prompt descriptors.
- The snapshot tests of the bash builder are not part of this model.

## Findings

| source | as written | input that shows it | evidently intended | confidence | as-written member | corrected member |
|---|---|---|---|---|---|---|
| src/questions/validators.js:12-18 | the mainnet guard compares the raw text with "1", while the sign test parses the input | "01" (likewise " 1" and "+1") parses to 1 and is accepted | every input that parses to 1 is rejected as mainnet | not executed | Validators.NetworkIdAcceptsPaddedMainnet | Validators.ValidateNetworkIdIntended |
