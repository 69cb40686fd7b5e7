/** The resource types of the API, field for field; pointers are options, named string types are strings. */
module Types {
  import opened Wrappers
  import opened Json

  datatype Problem = Problem(
    detail: Option<string>, instance: Option<string>, status: Option<Int32>, title: string, kind: string)

  datatype Health = Health(
    path: Option<string>, status: string, kind: Option<string>, uptime: Option<Int64>, version: Option<string>)

  datatype KubernetesHints = KubernetesHints(
    clusterIp: Option<string>, nodePorts: Option<GoMap<Int32>>, selector: Option<GoMap<string>>)

  datatype KubernetesState = KubernetesState(
    clusterIp: Option<string>, externalIps: Option<Slice<string>>, selector: Option<GoMap<string>>,
    kind: Option<string>)

  datatype ProviderHints = ProviderHints(kubernetes: Option<KubernetesHints>, additional: GoMap<Any>)

  datatype NetworkMetadata = NetworkMetadata(
    labels: Option<GoMap<string>>, name: string, namespace_: Option<string>)

  datatype PortSpec = PortSpec(
    name: Option<string>, nodePort: Option<Int32>, port: Int32, protocol: Option<string>, targetPort: Option<Int32>)

  datatype NetworkSpec = NetworkSpec(
    metadata: NetworkMetadata, ports: Slice<PortSpec>, providerHints: Option<ProviderHints>,
    routingLevel: Option<string>, serviceType: string)

  datatype Network = Network(
    createTime: Option<string>, id: Option<string>, kubernetes: Option<KubernetesState>, path: Option<string>,
    spec: NetworkSpec, status: Option<string>, updateTime: Option<string>)

  datatype NetworkList = NetworkList(nextPageToken: Option<string>, results: Option<Slice<Network>>)
}
