# Record normalisation of a Docker desktop client

The application lists containers and images of the local Docker engine and
shows them in a desktop window. Every call to the engine goes through the
`bollard` client and returns raw records in which most fields are optional.
The exceptions in this model are the image listing entry's `id`, `repo_tags`
and `size`, and a port's private port number.
The application then turns those records into its own domain records. This
project models that normalisation as pure functions and proves its
properties:

- **Container listing** (`list_containers`). Each raw entry becomes a
  `Container`. The name is the first reported name with one leading `/`
  removed. Status and state are copied. Ports become the host IPs of the
  ports that carry one, in order. The list keeps its length and order.
- **Image listing** (`list_images`). Id, repository tags and size of each
  entry are copied.
- **Image inspection** (`detail_image_by_id`). Id, tags, creation time, size
  and author are copied. `parent_id` is always present and holds the decimal
  rendering of the calling process's parent PID.
- **Errors**. A failed engine call becomes `DockerError` with the client
  error's message text. No partial result is returned.

Modules: `Wrappers` (Option, Result), `Seqs` (map and filter-map over
sequences, with a reference definition of which positions filter-map keeps),
`Errors` (src/error.rs), `Runtime` (the engine's raw records), `Types`
(src/types.rs), `Decimal` (u32 to text), `Containers` (src/containers.rs),
`Images` (src/image.rs).

Engine calls and the OS call are inputs. A call's outcome is a
`Result<raw records, ApiError>`, where `ApiError` carries the client error's
`to_string()` text. The parent PID is a `Decimal.u32` parameter.

Notable behaviour of the code, which the model keeps:

- `parent_id` is the process's parent PID, not the parent image digest. The
  raw inspect record's `parent` field is ignored. `DetailImageParentIgnoresResponse`
  states this.
- Only one leading `/` is stripped, so `//x` becomes `/x`. A listed name may
  therefore still start with `/`.
- Absent ports stay absent. A present but IP-less port list becomes an empty list.

The `Image` record used by `list_images` is not defined in src/types.rs.
It is declared here with the three fields that src/image.rs:30-34 fills. The
raw records' field types come from the `bollard` models, which are not part of
this model. The image listing entry is assumed to have non-optional `id`,
`repo_tags` and `size`.

## Model

| member | source | states |
|---|---|---|
| Errors.Display | src/error.rs:4-10 | the text of an error is its variant's fixed prefix ("Docker API error: " or "Unexpected error: ") followed by the carried message |
| Errors.DisplayInjective | src/error.rs:6-9 | two errors with the same text are the same error: the rendering loses neither the variant nor the message |
| Errors.FromApiError | src/containers.rs:17 | a client failure becomes a `DockerError` whose text is the prefix followed by the failure's message |
| Seqs.Map | src/containers.rs:19-33 | mapping a sequence keeps its length, and output i is the function applied to input i |
| Seqs.FilterMap | src/containers.rs:31 | filter-map yields at most as many items as the input, and each one is the present value of some input |
| Seqs.FilterMapAppend | src/containers.rs:31 | filter-map of a concatenation is the concatenation of the filter-maps, so relative order is kept |
| Seqs.Kept | src/containers.rs:31 | the reference for filter-map: the positions it lists are in range, carry a value, and ascend strictly |
| Seqs.KeptComplete | src/containers.rs:31 | every position that carries a value is listed by the reference, so filter-map drops nothing present |
| Seqs.FilterMapSelectsKept | src/containers.rs:31 | output k is the value at the k-th listed position, so filter-map yields exactly the present values, in input order |
| Seqs.FilterMapAllPresent | src/containers.rs:31 | when every input has a value, the output has the same length and lines up position by position |
| Seqs.FilterMapNonePresent | src/containers.rs:31 | when no input has a value, the output is empty |
| Containers.StripSlash | src/containers.rs:25 | a name starting with `/` loses exactly that one character; any other name is unchanged |
| Containers.StripSlashUndoesPrefix | src/containers.rs:25 | stripping is the inverse of prepending one `/` |
| Containers.StripSlashRemovesOnlyOne | src/containers.rs:25 | a name with two leading slashes keeps the second one |
| Containers.PrimaryName | src/containers.rs:22-26 | the name is absent exactly when names are absent or the list is empty; otherwise it is the first name with at most one leading `/` removed |
| Containers.PrimaryNameIgnoresLaterNames | src/containers.rs:23-25 | names after the first never change the result |
| Containers.HostIps | src/containers.rs:29-31 | the host IP list is no longer than the port list, and every IP in it is the IP of one of the ports |
| Containers.HostIpsInOrder | src/containers.rs:29-31 | IP k is the IP of the k-th port that carries one; every port with an IP contributes, in listing order |
| Containers.HostIpsAllPresent | src/containers.rs:29-31 | when every port carries an IP, IP i is port i's IP |
| Containers.HostIpsNonePresent | src/containers.rs:29-31 | when no port carries an IP, the list is empty |
| Containers.HostIpsAppend | src/containers.rs:29-31 | the IPs of concatenated port lists are the concatenated IP lists |
| Containers.ToContainer | src/containers.rs:21-32 | name absent exactly when the names are absent or empty, else the stripped first name; status and state equal the input's; ports absent exactly when the input's are, else the host IPs, no more of them than ports |
| Containers.ToContainerAllAbsent | src/containers.rs:21-32 | an entry with every mapped field absent becomes a container with every field absent |
| Containers.ListContainers | src/containers.rs:8-36 | the call fails exactly when the engine call fails, with a `DockerError` carrying its message; on success the list has the engine's length and item i is the mapping of entry i |
| Containers.ListContainersAppend | src/containers.rs:19-33 | listing concatenated engine responses gives the concatenated listings |
| Images.ToImage | src/image.rs:30-34 | id, repository tags and size equal the engine entry's |
| Images.ToImageLossless | src/image.rs:30-34 | the engine entry can be rebuilt from the mapped image |
| Images.ListImages | src/image.rs:18-38 | the call fails exactly when the engine call fails, with a `DockerError` carrying its message; on success length is kept and image i has entry i's id, tags and size |
| Images.DetailImage | src/image.rs:40-58 | fails exactly when the inspect call fails, with a `DockerError` carrying its message; on success id, tags, created, size and author equal the response's, and `parentId` is the canonical decimal text of the supplied PID: non-empty, all digits, no leading zero unless it is "0", and parsing back to the PID |
| Images.DetailImageParentIgnoresResponse | src/image.rs:51 | `parentId` is the same for any two inspect responses, including their reported parent image |
| Images.DetailImageParentIdentifiesPid | src/image.rs:51 | equal `parentId`s imply equal PIDs |
| Images.DetailImageAllAbsent | src/image.rs:49-56 | a response with every field absent yields details whose copied fields are all absent while `parentId` is present |
| Decimal.ToString | src/image.rs:51 | the rendering of a number is non-empty, all decimal digits, and has no leading zero unless it is "0" |
| Decimal.ParseToString | src/image.rs:51 | parsing the rendering of n gives n back |
| Decimal.ToStringInjective | src/image.rs:51 | distinct numbers render to distinct strings |

## Left out

- src/main.rs: the process entry, the connection with `unwrap`, the console print and the window. These are I/O and presentation with no decision logic.
- The `bollard` calls `list_containers`, `list_images` and `inspect_image`, with their options (`all: true`). They are network I/O through a library outside this model. Their outcomes are inputs.
- `os::unix::process::parent_id()` is an OS call. Its value is the `parentPid` input.
- The unused imports (`Config`, `CreateContainerOptions`, `KillContainerOptions`, `LogsOptions`, `StopContainerOptions`, `ContainerCreateBody`, `HostConfig`, `HashMap`). No behaviour is attached to them.
- `UnexpectedError` is declared and rendered, but nothing produces it.
- Create, start, stop, kill, remove, prune, pull, container inspection, error classification by message text and port-mapping parsing. src/containers.rs and src/image.rs implement none of these.
- Raw records hold only the fields the mappings read, plus a few ignored ones (`id`, `parent`, the port numbers). Sizes are unbounded integers. The mappings only copy them, so the 64-bit width of the source never matters.
- src/image.rs is not declared as a module in src/main.rs, so the image functions are unreachable in the built program. They are modelled as written.
