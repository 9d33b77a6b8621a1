/** The application's domain records handed to the presentation layer. */
module Types {
  import opened Wrappers
  import Runtime

  /** A listed container: its display name, status text, state and the host
      IPs of its published ports. */
  datatype Container = Container(
    name: Option<string>,
    status: Option<string>,
    state: Option<Runtime.ContainerState>,
    ports: Option<seq<string>>)

  /** A listed image, with the fields the image listing copies. */
  datatype Image = Image(id: string, repoTags: seq<string>, size: int)
}
