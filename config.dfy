/**
 * The resolved network configuration record that the generators read
 * (`config.network`, `config.nodes`, `config.containerPorts`), and the
 * collaborators whose code is not part of this model.
 */
module Config {

  /** Where the network runs: local processes, docker-compose, or Kubernetes. */
  datatype Deployment = Bash | Docker | Kubernetes

  /** A node's quorum endpoint: the host-side ports and the address other nodes dial. */
  datatype QuorumEndpoint = QuorumEndpoint(
    ip: string,
    devP2pPort: nat,
    rpcPort: nat,
    wsPort: nat,
    graphQlPort: nat,
    raftPort: nat)

  /** A node's Tessera transaction-manager endpoint; read only when Tessera is in use. */
  datatype TmEndpoint = TmEndpoint(
    ip: string,
    thirdPartyPort: nat,
    p2pPort: nat)

  datatype Node = Node(quorum: QuorumEndpoint, tm: TmEndpoint)

  /**
   * `config.network`. The flags stand for the NetworkConfig predicates applied to the
   * corresponding strings: raft == isRaft(consensus), tessera == isTessera(transactionManager),
   * cakeshop == isCakeshop(cakeshop); quorum260Plus == isQuorum260Plus(quorumVersion).
   */
  datatype Network = Network(
    name: string,
    consensus: string,
    raft: bool,
    transactionManager: string,
    tessera: bool,
    deployment: Deployment,
    cakeshop: bool,
    cakeshopPort: nat,
    quorumVersion: string,
    quorum260Plus: bool,
    generateKeys: bool,
    configDir: string)

  /** The in-container ports shared by every node's container. */
  datatype QuorumContainerPorts = QuorumContainerPorts(
    p2pPort: nat,
    raftPort: nat,
    rpcPort: nat,
    wsPort: nat,
    graphQlPort: nat)

  datatype TmContainerPorts = TmContainerPorts(p2pPort: nat, thirdPartyPort: nat)

  datatype ContainerPorts = ContainerPorts(
    dockerSubnet: string,
    quorum: QuorumContainerPorts,
    tm: TmContainerPorts)

  datatype NetworkConfig = NetworkConfig(
    network: Network,
    nodes: seq<Node>,
    containerPorts: ContainerPorts)

  /**
   * Collaborators outside the model, taken as given functions so that the
   * model's contracts can name their results: the working directory, the
   * filename sanitiser, the subnet helpers and the template newline helper.
   */
  datatype Host = Host(
    cwd: string,
    sanitize: string -> string,
    buildDockerIp: (string, string) -> string,
    cidrhost: (string, nat) -> string,
    formatNewLine: string -> string)

  /** A filesystem path as its list of segments, in the order joinPath receives them. */
  type Path = seq<string>
}
