/** The cluster as API version 2019-12-31-preview shows it to users. */
module External {
  import opened Wrappers

  datatype ClusterProfile = ClusterProfile(domain: string, version: string, resourceGroupId: string)

  datatype ConsoleProfile = ConsoleProfile(url: string)

  datatype ServicePrincipalProfile = ServicePrincipalProfile(clientId: string, clientSecret: string)

  datatype NetworkProfile = NetworkProfile(podCidr: string, serviceCidr: string)

  datatype MasterProfile = MasterProfile(vmSize: string, subnetId: string)

  datatype WorkerProfile = WorkerProfile(name: string, vmSize: string, diskSizeGB: int, subnetId: string, count: int)

  datatype APIServerProfile = APIServerProfile(visibility: string, url: string, ip: string)

  datatype IngressProfile = IngressProfile(name: string, visibility: string, ip: string)

  datatype Properties = Properties(
    provisioningState: string,
    clusterProfile: ClusterProfile,
    consoleProfile: ConsoleProfile,
    servicePrincipalProfile: ServicePrincipalProfile,
    networkProfile: NetworkProfile,
    masterProfile: MasterProfile,
    workerProfiles: Option<seq<WorkerProfile>>,
    apiserverProfile: APIServerProfile,
    ingressProfiles: Option<seq<IngressProfile>>)

  datatype Cluster = Cluster(
    id: string,
    name: string,
    typ: string,
    location: string,
    tags: Option<map<string, string>>,
    properties: Properties)
}
