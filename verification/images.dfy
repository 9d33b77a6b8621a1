/** The image listing and image inspection of src/image.rs. */
module Images {
  import opened Wrappers
  import opened Errors
  import Runtime
  import Types
  import Seqs
  import Decimal

  /** The inspected image handed to the presentation layer. */
  datatype ImageDetails = ImageDetails(
    id: Option<string>,
    parentId: Option<string>,
    repoTags: Option<seq<string>>,
    created: Option<string>,
    size: Option<int>,
    author: Option<string>)

  /** The per-entry listing mapping: id, tags and size copied unchanged. */
  function ToImage(item: Runtime.ImageSummary): (img: Types.Image)
    ensures img.id == item.id
    ensures img.repoTags == item.repoTags
    ensures img.size == item.size
  {
    Types.Image(id := item.id, repoTags := item.repoTags, size := item.size)
  }

  /** No field is lost: the runtime entry can be rebuilt from the image. */
  lemma ToImageLossless(item: Runtime.ImageSummary)
    ensures Runtime.ImageSummary(ToImage(item).id, ToImage(item).repoTags, ToImage(item).size) == item
  {
  }

  /** `list_images`: a failed runtime call becomes a `DockerError` carrying its
      message and no list; otherwise every entry is mapped, in order. */
  function ListImages(response: Result<seq<Runtime.ImageSummary>, ApiError>): (r: Result<seq<Types.Image>, CommandError>)
    ensures r.Failure? <==> response.Failure?
    ensures response.Failure? ==> r.error == DockerError(response.error.text)
    ensures response.Success? ==> |r.value| == |response.value|
    ensures response.Success? ==> forall i :: 0 <= i < |r.value| ==>
      && r.value[i].id == response.value[i].id
      && r.value[i].repoTags == response.value[i].repoTags
      && r.value[i].size == response.value[i].size
  {
    match response
    case Failure(err) => Failure(FromApiError(err))
    case Success(items) => Success(Seqs.Map(ToImage, items))
  }

  /** `detail_image_by_id`: a failed inspect becomes a `DockerError` carrying
      its message and no details; otherwise id, tags, creation time, size and
      author are copied, and `parentId` is the decimal rendering of the calling
      process's parent PID, supplied as `parentPid`. */
  function DetailImage(response: Result<Runtime.ImageInspect, ApiError>, parentPid: Decimal.u32): (r: Result<ImageDetails, CommandError>)
    ensures r.Failure? <==> response.Failure?
    ensures response.Failure? ==> r.error == DockerError(response.error.text)
    ensures response.Success? ==>
      && r.value.id == response.value.id
      && r.value.repoTags == response.value.repoTags
      && r.value.created == response.value.created
      && r.value.size == response.value.size
      && r.value.author == response.value.author
    ensures r.Success? ==> r.value.parentId.Some?
    ensures r.Success? ==> forall i :: 0 <= i < |r.value.parentId.value| ==> Decimal.IsDigit(r.value.parentId.value[i])
    ensures r.Success? ==> Decimal.Parse(r.value.parentId.value) == parentPid as nat
    ensures r.Success? ==> |r.value.parentId.value| >= 1
    ensures r.Success? ==> r.value.parentId.value[0] == '0' ==> r.value.parentId.value == "0"
    ensures r.Success? ==> r.value.parentId == Some(Decimal.ToString(parentPid as nat))
  {
    match response
    case Failure(err) => Failure(FromApiError(err))
    case Success(res) =>
      Decimal.ParseToString(parentPid as nat);
      Success(ImageDetails(
        id := res.id,
        parentId := Some(Decimal.ToString(parentPid as nat)),
        repoTags := res.repoTags,
        created := res.created,
        size := res.size,
        author := res.author))
  }

  /** `parentId` does not depend on the inspect response at all, not even on
      the parent image the runtime reports: only the PID input decides it. */
  lemma DetailImageParentIgnoresResponse(res1: Runtime.ImageInspect, res2: Runtime.ImageInspect, parentPid: Decimal.u32)
    ensures DetailImage(Success(res1), parentPid).value.parentId == DetailImage(Success(res2), parentPid).value.parentId
  {
  }

  /** Different PIDs give different `parentId`s, whatever the responses. */
  lemma DetailImageParentIdentifiesPid(res1: Runtime.ImageInspect, res2: Runtime.ImageInspect, pid1: Decimal.u32, pid2: Decimal.u32)
    requires DetailImage(Success(res1), pid1).value.parentId == DetailImage(Success(res2), pid2).value.parentId
    ensures pid1 == pid2
  {
  }

  /** A response with every field absent yields details with every copied
      field absent; only `parentId` is present. */
  lemma DetailImageAllAbsent(parentPid: Decimal.u32, parent: Option<string>)
    ensures var d := DetailImage(Success(Runtime.ImageInspect(None, parent, None, None, None, None)), parentPid).value;
      d.id.None? && d.repoTags.None? && d.created.None? && d.size.None? && d.author.None? && d.parentId.Some?
  {
  }
}
