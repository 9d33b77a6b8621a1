/** The container listing of src/containers.rs: each raw listing entry the
    runtime returns becomes a `Types.Container`. */
module Containers {
  import opened Wrappers
  import opened Errors
  import Runtime
  import Types
  import Seqs

  predicate StartsWithSlash(s: string) {
    |s| > 0 && s[0] == '/'
  }

  /** `strip_prefix('/').unwrap_or(name)`: at most one leading slash goes. */
  function StripSlash(s: string): (r: string)
    ensures StartsWithSlash(s) ==> s == "/" + r
    ensures !StartsWithSlash(s) ==> r == s
    ensures |r| == if StartsWithSlash(s) then |s| - 1 else |s|
  {
    if StartsWithSlash(s) then s[1..] else s
  }

  /** Stripping undoes prepending one slash. */
  lemma StripSlashUndoesPrefix(x: string)
    ensures StripSlash("/" + x) == x
  {
  }

  /** Exactly one slash goes: a name with two leading slashes keeps the second. */
  lemma StripSlashRemovesOnlyOne(x: string)
    ensures StripSlash("//" + x) == "/" + x
  {
  }

  /** The container's display name: the first reported name with its leading
      slash stripped; none when the runtime reports no names or an empty list. */
  function PrimaryName(names: Option<seq<string>>): (name: Option<string>)
    ensures name.None? <==> names.None? || |names.value| == 0
    ensures name.Some? && StartsWithSlash(names.value[0]) ==> names.value[0] == "/" + name.value
    ensures name.Some? && !StartsWithSlash(names.value[0]) ==> name.value == names.value[0]
  {
    match names
    case None => None
    case Some(ns) => if |ns| == 0 then None else Some(StripSlash(ns[0]))
  }

  /** Names after the first never affect the display name. */
  lemma PrimaryNameIgnoresLaterNames(first: string, rest1: seq<string>, rest2: seq<string>)
    ensures PrimaryName(Some([first] + rest1)) == PrimaryName(Some([first] + rest2))
    ensures PrimaryName(Some([first] + rest1)) == Some(StripSlash(first))
  {
  }

  /** The host IPs of the published ports, in listing order, skipping ports
      without an IP. */
  function HostIps(ports: seq<Runtime.PortSummary>): (ips: seq<string>)
    ensures |ips| <= |ports|
    ensures forall ip :: ip in ips ==> exists p :: p in ports && p.ip == Some(ip)
  {
    Seqs.FilterMap((p: Runtime.PortSummary) => p.ip, ports)
  }

  /** HostIps keeps exactly the ports carrying an IP, in their order: output k
      is the IP of the k-th such port. */
  lemma HostIpsInOrder(ports: seq<Runtime.PortSummary>)
    ensures var kept := Seqs.Kept((p: Runtime.PortSummary) => p.ip, ports);
      && |HostIps(ports)| == |kept|
      && (forall k :: 0 <= k < |kept| ==> ports[kept[k]].ip == Some(HostIps(ports)[k]))
      && (forall j, k :: 0 <= j < k < |kept| ==> kept[j] < kept[k])
      && (forall i :: 0 <= i < |ports| && ports[i].ip.Some? ==> i in kept)
  {
    Seqs.FilterMapSelectsKept((p: Runtime.PortSummary) => p.ip, ports);
    Seqs.KeptComplete((p: Runtime.PortSummary) => p.ip, ports);
  }

  /** When every port carries an IP, none is lost and positions line up. */
  lemma HostIpsAllPresent(ports: seq<Runtime.PortSummary>)
    requires forall i :: 0 <= i < |ports| ==> ports[i].ip.Some?
    ensures |HostIps(ports)| == |ports|
    ensures forall i :: 0 <= i < |ports| ==> HostIps(ports)[i] == ports[i].ip.value
  {
    Seqs.FilterMapAllPresent((p: Runtime.PortSummary) => p.ip, ports);
  }

  /** When no port carries an IP, the IP list is empty (but present). */
  lemma HostIpsNonePresent(ports: seq<Runtime.PortSummary>)
    requires forall i :: 0 <= i < |ports| ==> ports[i].ip.None?
    ensures HostIps(ports) == []
  {
    Seqs.FilterMapNonePresent((p: Runtime.PortSummary) => p.ip, ports);
  }

  /** Ports of concatenated listings map to the concatenated IP lists. */
  lemma HostIpsAppend(a: seq<Runtime.PortSummary>, b: seq<Runtime.PortSummary>)
    ensures HostIps(a + b) == HostIps(a) + HostIps(b)
  {
    Seqs.FilterMapAppend((p: Runtime.PortSummary) => p.ip, a, b);
  }

  /** The per-entry mapping: name from the first name, status and state copied,
      ports reduced to their host IPs; absent stays absent. */
  function ToContainer(item: Runtime.ContainerSummary): (c: Types.Container)
    ensures c.name.None? <==> item.names.None? || |item.names.value| == 0
    ensures c.name.Some? ==> c.name.value == StripSlash(item.names.value[0])
    ensures c.status == item.status
    ensures c.state == item.state
    ensures c.ports.None? <==> item.ports.None?
    ensures c.ports.Some? ==> |c.ports.value| <= |item.ports.value|
    ensures c.ports.Some? ==> c.ports.value == HostIps(item.ports.value)
  {
    Types.Container(
      name := PrimaryName(item.names),
      status := item.status,
      state := item.state,
      ports := match item.ports
        case None => None
        case Some(ps) => Some(HostIps(ps)))
  }

  /** A runtime entry with every field absent maps to a container with every
      field absent, whatever its other fields hold. */
  lemma ToContainerAllAbsent(item: Runtime.ContainerSummary)
    requires item.names.None? && item.status.None? && item.state.None? && item.ports.None?
    ensures ToContainer(item) == Types.Container(None, None, None, None)
  {
  }

  /** `list_containers`: a failed runtime call becomes a `DockerError` carrying
      its message and no list; otherwise every entry is mapped, in order. */
  function ListContainers(response: Result<seq<Runtime.ContainerSummary>, ApiError>): (r: Result<seq<Types.Container>, CommandError>)
    ensures r.Failure? <==> response.Failure?
    ensures response.Failure? ==> r.error == DockerError(response.error.text)
    ensures response.Success? ==> |r.value| == |response.value|
    ensures response.Success? ==> forall i :: 0 <= i < |r.value| ==> r.value[i] == ToContainer(response.value[i])
  {
    match response
    case Failure(err) => Failure(FromApiError(err))
    case Success(items) => Success(Seqs.Map(ToContainer, items))
  }

  /** Listing concatenated runtime responses gives the concatenated listings. */
  lemma ListContainersAppend(a: seq<Runtime.ContainerSummary>, b: seq<Runtime.ContainerSummary>)
    ensures ListContainers(Success(a + b)).value == ListContainers(Success(a)).value + ListContainers(Success(b)).value
  {
  }
}
