/** The records exchanged with the image service. */
module Types {
  import opened Wrappers

  /**
    The generation parameters posted to the submission endpoint. `id` is not
    part of the declared record: the dispatchers add it after a successful
    submission, so it is None until then.
   */
  datatype GenRequest = GenRequest(
    admin: bool,
    alternateMode: bool,
    aspectRatio: Option<string>,
    count: int,
    detailPassStrength: int,
    fast: bool,
    genre: string,
    height: int,
    lightingFilter: string,
    lightingFilterColor: string,
    lightingFilterNegativeColor: string,
    lightingFilterStrength: int,
    negativePrompt: string,
    prompt: string,
    saturation: int,
    style: string,
    width: int,
    id: Option<string>)

  /**
    A message on the service's event socket: the server id of the request it
    is about, its `type` field and its `data.status` field. The progress
    value and the image list are only logged or rendered, so they are not kept.
   */
  datatype ProgressMessage = ProgressMessage(id: string, kind: string, status: string)

  /** The socket message reports a finished request. */
  predicate IsFinished(msg: ProgressMessage)
  {
    msg.status == "FINISHED"
  }
}
