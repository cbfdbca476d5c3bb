/**
 The cluster as the service stores it.  Every struct keeps the JSON fields it does
 not know in `missing`; nil slices and maps are `None`.
 */
module Internal {
  import opened Wrappers

  type Missing = map<string, string>

  datatype ClusterProfile = ClusterProfile(missing: Missing, domain: string, version: string, resourceGroupId: string)

  datatype ConsoleProfile = ConsoleProfile(missing: Missing, url: string)

  datatype ServicePrincipalProfile = ServicePrincipalProfile(missing: Missing, tenantId: string, clientId: string, clientSecret: string)

  datatype NetworkProfile = NetworkProfile(missing: Missing, podCidr: string, serviceCidr: string, privateEndpointIp: string)

  datatype MasterProfile = MasterProfile(missing: Missing, vmSize: string, subnetId: string)

  datatype WorkerProfile = WorkerProfile(missing: Missing, name: string, vmSize: string, diskSizeGB: int, subnetId: string, count: int)

  datatype APIServerProfile = APIServerProfile(missing: Missing, visibility: string, url: string, ip: string)

  datatype IngressProfile = IngressProfile(missing: Missing, name: string, visibility: string, ip: string)

  datatype Install = Install(missing: Missing, now: int, phase: int)

  datatype Properties = Properties(
    missing: Missing,
    provisioningState: string,
    failedProvisioningState: string,
    clusterProfile: ClusterProfile,
    consoleProfile: ConsoleProfile,
    servicePrincipalProfile: ServicePrincipalProfile,
    networkProfile: NetworkProfile,
    masterProfile: MasterProfile,
    workerProfiles: Option<seq<WorkerProfile>>,
    apiserverProfile: APIServerProfile,
    ingressProfiles: Option<seq<IngressProfile>>,
    install: Option<Install>,
    storageSuffix: string,
    sshKey: Option<int>,
    adminKubeconfig: string,
    kubeadminPassword: string)

  datatype Cluster = Cluster(
    missing: Missing,
    id: string,
    name: string,
    typ: string,
    location: string,
    tags: Option<map<string, string>>,
    properties: Properties)
}
