/** The Gandi driver record and its operations. Each operation that talks
    to the provider takes the remote service `api` (an oracle) and is proved
    to perform exactly the run its function in module Gandi describes. */
module GandiDriver {
  import opened Wire
  import opened Rpc
  import opened Gandi
  import MachineState

  /** The six values `SetConfigFromFlags` reads: gandi-api-key, gandi-image,
      gandi-datacenter, gandi-url, gandi-memory and gandi-core */
  datatype DriverOptions = DriverOptions(
    apiKey: string, image: string, datacenter: string, url: string, memory: int, core: int)

  class Driver {
    var apiKey: string
    var url: string
    var vmId: int
    var image: string
    var ipAddress: string
    var datacenter: string
    var memory: int
    var core: int
    var machineName: string  // of the embedded base driver
    var storePath: string    // of the embedded base driver

    /** `NewDriver`: the default image and datacenter, every other field at
        its zero value but the machine name and the store path */
    constructor NewDriver(hostName: string, storePath: string)
      ensures image == DefaultImage && datacenter == DefaultDatacenter
      ensures machineName == hostName && this.storePath == storePath
      ensures apiKey == "" && url == "" && vmId == 0 && ipAddress == "" && memory == 0 && core == 0
    {
      apiKey := "";
      url := "";
      vmId := 0;
      image := DefaultImage;
      ipAddress := "";
      datacenter := DefaultDatacenter;
      memory := 0;
      core := 0;
      machineName := hostName;
      this.storePath := storePath;
    }

    /** Where requests go and the key they carry */
    function Endpoint(): Client
      reads this
    {
      Client(url, apiKey)
    }

    /** What `Create` reads besides the endpoint */
    function CreateSettings(): Settings
      reads this
    {
      Settings(datacenter, image, machineName, memory, core)
    }

    /** `SetConfigFromFlags`: all six values are copied, even when the API
        key is missing, which is then the one error */
    method SetConfigFromFlags(flags: DriverOptions) returns (err: Option<Error>)
      modifies this`apiKey, this`image, this`datacenter, this`url, this`memory, this`core
      ensures apiKey == flags.apiKey && image == flags.image && datacenter == flags.datacenter
      ensures url == flags.url && memory == flags.memory && core == flags.core
      ensures err.Some? <==> flags.apiKey == ""
      ensures err.Some? ==> err.value == MissingApiKey
    {
      apiKey := flags.apiKey;
      image := flags.image;
      datacenter := flags.datacenter;
      url := flags.url;
      memory := flags.memory;
      core := flags.core;
      if apiKey == "" {
        return Some(MissingApiKey);
      }
      return None;
    }

    function DriverName(): (name: string)
      ensures name == "gandi"
    {
      "gandi"
    }

    /** `GetIP`: the recorded address, unless it is unset ("" or "0") */
    function GetIP(): (r: Result<string>)
      reads this
      ensures r.Failure? <==> ipAddress == "" || ipAddress == "0"
      ensures r.Success? ==> r.value == ipAddress
      ensures r.Failure? ==> r.error == IpNotSet
    {
      if ipAddress == "" || ipAddress == "0" then Failure(IpNotSet) else Success(ipAddress)
    }

    /** `GetSSHHostname`: the same answer as `GetIP` */
    function GetSSHHostname(): (r: Result<string>)
      reads this
      ensures r.Success? <==> ipAddress != "" && ipAddress != "0"
      ensures r.Success? ==> r.value == ipAddress
      ensures r.Failure? ==> r.error == IpNotSet
    {
      GetIP()
    }

    /** `GetURL`: the docker URL of the recorded address, whose host part is
        exactly that address; `GetIP`'s error otherwise */
    function GetURL(): (r: Result<string>)
      reads this
      ensures r.Success? <==> GetIP().Success?
      ensures r.Success? ==> r.value == "tcp://" + ipAddress + ":2376" && UrlHost(r.value) == Some(ipAddress)
      ensures r.Failure? ==> r.error == GetIP().error
    {
      var ip := GetIP();
      if ip.Failure? then Failure(ip.error) else Success(DockerUrl(ip.value))
    }

    /** `waitForOp`: poll the operation until "DONE"; only re-polled
        statuses are checked against "BILL", "WAIT" and "RUN" */
    method WaitForOp(api: Api, op: int) returns (v: Verdict<()>)
      modifies api
      ensures Performs(api, old(api.sent), v, WaitRun(Endpoint(), op, old(api.replies)))
    {
      var req := Request(Endpoint(), OperationStatus(op));
      ghost var replies0 := api.replies;
      ghost var polled := [req];
      var res := api.Call(req);
      if !res.Ok? {
        return Abort(res);
      }
      var status := res.value.op.status;
      while status != "DONE"
        invariant api.sent == old(api.sent) + polled
        invariant status == "DONE" ==>
                    WaitRun(Endpoint(), op, replies0) == Run(Ok(()), polled, api.replies)
        invariant status != "DONE" ==>
                    var r := Repoll(Endpoint(), op, api.replies);
                    WaitRun(Endpoint(), op, replies0) == Run(r.verdict, polled + r.sent, r.rest)
        decreases |api.replies|
      {
        res := api.Call(req);
        polled := polled + [req];
        if !res.Ok? {
          return Abort(res);
        }
        status := res.value.op.status;
        if status == "DONE" {
          return Ok(());
        }
        if status != "BILL" && status != "WAIT" && status != "RUN" {
          return Fail(BadOperationStatus(op, status));
        }
      }
      return Ok(());
    }

    /** `GetState`: one `hosting.vm.info` call, the provider state mapped to
        the generic one; Error together with the error when the call fails */
    method GetState(api: Api) returns (v: Verdict<(MachineState.State, Option<Error>)>)
      modifies api
      ensures Performs(api, old(api.sent), v, GetStateRun(Endpoint(), vmId, old(api.replies)))
    {
      var res := api.Call(Request(Endpoint(), VmDetails(vmId)));
      match res
      case Hang => return Hang;
      case Fail(e) => return Ok((MachineState.Error, Some(e)));
      case Ok(reply) => return Ok((StateOf(reply.vm.state), None));
    }

    /** The shape shared by `Start`, `Stop`, `Restart` and the delete step
        of `Remove`: one action call, then wait for its operation */
    method VmOperation(api: Api, call: Call) returns (v: Verdict<()>)
      requires IsVmAction(call)
      modifies api
      ensures Performs(api, old(api.sent), v, VmOperationRun(Endpoint(), call, old(api.replies)))
    {
      var res := api.Call(Request(Endpoint(), call));
      if !res.Ok? {
        return Abort(res);
      }
      v := WaitForOp(api, res.value.op.id);
    }

    method Start(api: Api) returns (v: Verdict<()>)
      modifies api
      ensures Performs(api, old(api.sent), v, VmOperationRun(Endpoint(), VmStart(vmId), old(api.replies)))
    {
      v := VmOperation(api, VmStart(vmId));
    }

    method Stop(api: Api) returns (v: Verdict<()>)
      modifies api
      ensures Performs(api, old(api.sent), v, VmOperationRun(Endpoint(), VmStop(vmId), old(api.replies)))
    {
      v := VmOperation(api, VmStop(vmId));
    }

    method Restart(api: Api) returns (v: Verdict<()>)
      modifies api
      ensures Performs(api, old(api.sent), v, VmOperationRun(Endpoint(), VmReboot(vmId), old(api.replies)))
    {
      v := VmOperation(api, VmReboot(vmId));
    }

    /** `Kill` is `Stop` */
    method Kill(api: Api) returns (v: Verdict<()>)
      modifies api
      ensures Performs(api, old(api.sent), v, VmOperationRun(Endpoint(), VmStop(vmId), old(api.replies)))
    {
      v := Stop(api);
    }

    /** `Remove`: stop first only when `GetState` says Running, abort if
        the stop fails, then delete; an error of `GetState` is ignored */
    method Remove(api: Api) returns (v: Verdict<()>)
      modifies api
      ensures Performs(api, old(api.sent), v, RemoveRun(Endpoint(), vmId, old(api.replies)))
    {
      ghost var c := Endpoint();
      ghost var replies0 := api.replies;
      ghost var sent0 := api.sent;
      RemovePhases(c, vmId, replies0);
      ghost var stRun := GetStateRun(c, vmId, replies0);
      var st := GetState(api);
      if st.Hang? {
        return Hang;
      }
      ghost var stopRun: Run<()> := Run(Ok(()), [], api.replies);
      if st.value.0 == MachineState.Running {
        stopRun := VmOperationRun(c, VmStop(vmId), api.replies);
        var stopped := Stop(api);
        if !stopped.Ok? {
          return stopped;
        }
      }
      AppendAssoc(sent0, stRun.sent, stopRun.sent);
      ghost var sent1 := api.sent;
      ghost var delRun := VmOperationRun(c, VmDelete(vmId), api.replies);
      v := VmOperation(api, VmDelete(vmId));
      AppendAssoc(sent0, stRun.sent + stopRun.sent, delRun.sent);
    }

    method DatacenterByCode(api: Api, code: string) returns (v: Verdict<DatacenterInfo>)
      modifies api
      ensures Performs(api, old(api.sent), v, DatacenterByCodeRun(Endpoint(), code, old(api.replies)))
    {
      var res := api.Call(Request(Endpoint(), DatacenterSearch(code)));
      if !res.Ok? {
        return Abort(res);
      }
      if |res.value.dcs| != 1 {
        return Fail(NotFound("Datacenter"));
      }
      return Ok(res.value.dcs[0]);
    }

    method ImageByName(api: Api, name: string, zoneId: int) returns (v: Verdict<ImageInfo>)
      modifies api
      ensures Performs(api, old(api.sent), v, ImageByNameRun(Endpoint(), name, zoneId, old(api.replies)))
    {
      var res := api.Call(Request(Endpoint(), ImageSearch(ImageFilter(name, zoneId))));
      if !res.Ok? {
        return Abort(res);
      }
      if |res.value.images| != 1 {
        return Fail(NotFound("Image"));
      }
      return Ok(res.value.images[0]);
    }

    method VmById(api: Api, id: int) returns (v: Verdict<VmInfo>)
      modifies api
      ensures Performs(api, old(api.sent), v, VmByIdRun(Endpoint(), id, old(api.replies)))
    {
      var res := api.Call(Request(Endpoint(), VmDetails(id)));
      if !res.Ok? {
        return Abort(res);
      }
      return Ok(res.value.vm);
    }

    method VmByName(api: Api, name: string) returns (v: Verdict<VmInfo>)
      modifies api
      ensures Performs(api, old(api.sent), v, VmByNameRun(Endpoint(), name, old(api.replies)))
    {
      var res := api.Call(Request(Endpoint(), VmSearch(name)));
      if !res.Ok? {
        return Abort(res);
      }
      if |res.value.vms| != 1 {
        return Fail(NotFound("Vm"));
      }
      v := VmById(api, res.value.vms[0].id);
    }

    /** `Create`, given the outcome of creating the SSH key: only `vmId`
        and `ipAddress` change, and only as the run of `CreateRun` assigns
        them */
    method Create(api: Api, sshKey: Result<string>) returns (v: Verdict<()>)
      modifies this`vmId, this`ipAddress, api
      ensures var o := CreateRun(Endpoint(), CreateSettings(), sshKey, old(api.replies));
              Performs(api, old(api.sent), v, o.run) &&
              vmId == o.vmId.GetOr(old(vmId)) && ipAddress == o.ipAddress.GetOr(old(ipAddress))
    {
      if sshKey.Failure? {
        return Fail(sshKey.error);
      }
      ghost var sent0 := api.sent;
      ghost var dcRun := DatacenterByCodeRun(Endpoint(), datacenter, api.replies);
      var dc := DatacenterByCode(api, datacenter);
      if !dc.Ok? {
        return Abort(dc);
      }
      ghost var imageRun := ImageByNameRun(Endpoint(), image, dc.value.id, api.replies);
      var img := ImageByName(api, image, dc.value.id);
      if !img.Ok? {
        return Abort(img);
      }
      AppendAssoc(sent0, dcRun.sent, imageRun.sent);
      ghost var sent1 := api.sent;
      ghost var launchRun := LaunchRun(Endpoint(), CreateSettings(), sshKey.value, dc.value, img.value, api.replies);
      v := Launch(api, sshKey.value, dc.value, img.value);
      AppendAssoc(sent0, dcRun.sent + imageRun.sent, launchRun.run.sent);
    }

    /** The tail of `Create` once the datacenter and the image are found */
    method Launch(api: Api, sshKey: string, dc: DatacenterInfo, img: ImageInfo) returns (v: Verdict<()>)
      modifies this`vmId, this`ipAddress, api
      ensures var o := LaunchRun(Endpoint(), CreateSettings(), sshKey, dc, img, old(api.replies));
              Performs(api, old(api.sent), v, o.run) &&
              vmId == o.vmId.GetOr(old(vmId)) && ipAddress == o.ipAddress.GetOr(old(ipAddress))
    {
      ghost var sent0 := api.sent;
      var res := api.Call(Request(Endpoint(), CreateFromCall(CreateSettings(), sshKey, dc, img)));
      if !res.Ok? {
        return Abort(res);
      }
      var ops := res.value.ops;
      if |ops| <= 2 {
        return Fail(IndexOutOfRange(2, |ops|));
      }
      ghost var sent1 := api.sent;
      ghost var waitRun := WaitRun(Endpoint(), ops[2].id, api.replies);
      var waited := WaitForOp(api, ops[2].id);
      if !waited.Ok? {
        return waited;
      }
      ghost var sent2 := api.sent;
      ghost var recordRun := RecordRun(Endpoint(), machineName, api.replies);
      v := Record(api);
      AppendAssoc(sent0, sent1[|sent0|..], waitRun.sent);
      AppendAssoc(sent0, sent1[|sent0|..] + waitRun.sent, recordRun.run.sent);
    }

    /** The VM is found again by name and its id and first IP recorded */
    method Record(api: Api) returns (v: Verdict<()>)
      modifies this`vmId, this`ipAddress, api
      ensures var o := RecordRun(Endpoint(), machineName, old(api.replies));
              Performs(api, old(api.sent), v, o.run) &&
              vmId == o.vmId.GetOr(old(vmId)) && ipAddress == o.ipAddress.GetOr(old(ipAddress))
    {
      var vm := VmByName(api, machineName);
      if !vm.Ok? {
        return Abort(vm);
      }
      vmId := vm.value.id;
      var ifaces := vm.value.ifaces;
      if |ifaces| == 0 || |ifaces[0].ips| == 0 {
        return Fail(IndexOutOfRange(0, 0));
      }
      ipAddress := ifaces[0].ips[0].ip;
      return Ok(());
    }
  }
}
