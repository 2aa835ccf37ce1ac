/**
 * The Space configuration the two diagnostic routes share: the Space URL
 * falls back to the project's own Space, the token is optional, and both
 * talk to Gradio's `/gradio_api/call/predict` endpoint.
 */
module GradioSpace {
  import opened Wrappers
  import opened JsonValue
  import opened Http

  /** `NEXT_PUBLIC_HF_SPACE_URL` and `HF_TOKEN`; `None` when unset. */
  datatype Config = Config(spaceUrl: Option<string>, token: Option<string>)

  const DefaultSpaceUrl := "https://wangpe-2e2-f5-tts.hf.space"

  /** `process.env.NEXT_PUBLIC_HF_SPACE_URL || DefaultSpaceUrl`. */
  function SpaceUrl(cfg: Config): (url: string)
    ensures Present(cfg.spaceUrl) ==> url == cfg.spaceUrl.value
    ensures !Present(cfg.spaceUrl) ==> url == DefaultSpaceUrl
  {
    if Present(cfg.spaceUrl) then cfg.spaceUrl.value else DefaultSpaceUrl
  }

  /** `...(HF_TOKEN && { Authorization })`: the header is sent only when a token is set. */
  function Authorization(cfg: Config): (auth: Option<string>)
    ensures auth.Some? <==> Present(cfg.token)
    ensures auth.Some? ==> auth.value == Bearer(cfg.token.value)
  {
    if Present(cfg.token) then Some(Bearer(cfg.token.value)) else None
  }

  function SubmitCall(cfg: Config, payload: Json): Call {
    Call(POST, SpaceUrl(cfg) + "/gradio_api/call/predict", Authorization(cfg), JsonBody(payload))
  }

  function EventUrl(cfg: Config, eventId: Json): string {
    SpaceUrl(cfg) + "/gradio_api/call/predict/" + ToJsString(eventId)
  }

  function PollCall(cfg: Config, url: string): Call {
    Call(GET, url, Authorization(cfg), NoBody)
  }
}
