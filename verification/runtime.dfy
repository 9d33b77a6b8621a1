/** The raw records the runtime client hands back. Most fields are optional,
    as the wire data may omit them; the image listing entry's id, tags and size
    and a port's private port number are always present. Only the fields the
    mappings read are modelled, plus a few they deliberately ignore. */
module Runtime {
  import opened Wrappers

  /** The state the runtime reports for a container. The mappings only copy
      it, so the variant set shown here is illustrative and does not affect
      any result. */
  datatype ContainerState = Created | Running | Paused | Restarting | Removing | Exited | Dead | Unknown

  /** One published port of a container listing entry. */
  datatype PortSummary = PortSummary(ip: Option<string>, privatePort: nat, publicPort: Option<nat>)

  /** One entry of the container listing. */
  datatype ContainerSummary = ContainerSummary(
    id: Option<string>,
    names: Option<seq<string>>,
    status: Option<string>,
    state: Option<ContainerState>,
    ports: Option<seq<PortSummary>>)

  /** One entry of the image listing. */
  datatype ImageSummary = ImageSummary(id: string, repoTags: seq<string>, size: int)

  /** The image inspect response; `parent` is the parent image reported by the
      runtime, which the mapping does not read. */
  datatype ImageInspect = ImageInspect(
    id: Option<string>,
    parent: Option<string>,
    repoTags: Option<seq<string>>,
    created: Option<string>,
    size: Option<int>,
    author: Option<string>)
}
