/** The records the driver exchanges with the hosting provider's XML-RPC API
    (rpc.gandi.net), reduced to the fields the driver reads or sends. */
module Wire {

  /** `operation.info`: an asynchronous operation and its status ("DONE", "BILL", ...) */
  datatype OperationInfo = OperationInfo(id: int, status: string)

  datatype IpInfo = IpInfo(ip: string)

  datatype NetworkInterface = NetworkInterface(ips: seq<IpInfo>)

  /** `hosting.vm.info`: the VM's id, its provider state and its network interfaces */
  datatype VmInfo = VmInfo(id: int, state: string, ifaces: seq<NetworkInterface>)

  datatype DatacenterInfo = DatacenterInfo(id: int)

  datatype ImageInfo = ImageInfo(diskId: int)

  /** The filter of `hosting.image.list` */
  datatype ImageFilter = ImageFilter(name: string, dcId: int)

  /** The VM half of `hosting.vm.create_from` */
  datatype VmCreateRequest = VmCreateRequest(
    dcId: int, hostname: string, memory: int, cores: int,
    ipVersion: int, sshKey: string, runCommand: string)

  /** The disk half of `hosting.vm.create_from` */
  datatype DiskCreateRequest = DiskCreateRequest(name: string, dcId: int, size: int)

  /** The remote procedures the driver calls, with the arguments that follow the API key */
  datatype Call =
    | OperationStatus(op: int)
    | VmDetails(vmId: int)
    | VmSearch(hostname: string)
    | DatacenterSearch(dcCode: string)
    | ImageSearch(filter: ImageFilter)
    | VmCreateFrom(vm: VmCreateRequest, disk: DiskCreateRequest, srcDiskId: int)
    | VmStart(vmId: int)
    | VmStop(vmId: int)
    | VmDelete(vmId: int)
    | VmReboot(vmId: int)

  /** The XML-RPC method name of each call */
  function ProcedureName(call: Call): string
  {
    match call
    case OperationStatus(_) => "operation.info"
    case VmDetails(_) => "hosting.vm.info"
    case VmSearch(_) => "hosting.vm.list"
    case DatacenterSearch(_) => "hosting.datacenter.list"
    case ImageSearch(_) => "hosting.image.list"
    case VmCreateFrom(_, _, _) => "hosting.vm.create_from"
    case VmStart(_) => "hosting.vm.start"
    case VmStop(_) => "hosting.vm.stop"
    case VmDelete(_) => "hosting.vm.delete"
    case VmReboot(_) => "hosting.vm.reboot"
  }

  /** Where a request goes (the endpoint `Url`) and the API key sent as its first parameter */
  datatype Client = Client(url: string, apiKey: string)

  datatype Request = Request(client: Client, call: Call)

  /** What the service can answer: a fault, or a value of one of the result types */
  datatype Reply =
    | Fault(message: string)
    | Operation(op: OperationInfo)
    | OperationList(ops: seq<OperationInfo>)
    | Vm(vm: VmInfo)
    | VmList(vms: seq<VmInfo>)
    | DatacenterList(dcs: seq<DatacenterInfo>)
    | ImageList(images: seq<ImageInfo>)

  /** Whether a non-fault reply decodes into the result type the driver passes for `call` */
  predicate Fits(call: Call, reply: Reply)
  {
    match call
    case OperationStatus(_) => reply.Operation?
    case VmDetails(_) => reply.Vm?
    case VmSearch(_) => reply.VmList?
    case DatacenterSearch(_) => reply.DatacenterList?
    case ImageSearch(_) => reply.ImageList?
    case VmCreateFrom(_, _, _) => reply.OperationList?
    case VmStart(_) => reply.Operation?
    case VmStop(_) => reply.Operation?
    case VmDelete(_) => reply.Operation?
    case VmReboot(_) => reply.Operation?
  }
}
