/** The outbound call to the hosted Llama chat-completions endpoint, shared by
    the server (server/app.py) and the test harness (test_pipeline.py). The
    call itself is network I/O: what comes back is an input of the model. */
module Llama {
  import opened Json
  import opened Wrappers
  import opened Text

  /** Endpoint used when LLAMA_API_URL is not set. */
  const DefaultApiUrl := "https://api.llama.com/v1/chat/completions"

  const ModelName := "Llama-4-Maverick-17B-128E-Instruct-FP8"

  /** What the image is wrapped in for the model: a JPEG data URL. It is
      written in pieces only so that the verifier can read single characters
      of it cheaply. */
  const JpegUrlPrefix := "data:image/" + "jpeg;base64,"

  /** What `requests.post(...)`, `raise_for_status()` and `response.json()`
      together produce: a decoded JSON body, an exception of the
      `requests.exceptions.RequestException` family (transport failure, an
      HTTP error status, or an undecodable body), or any other exception.
      The text is `str(e)` of the exception. */
  datatype Reply =
    | Replied(body: Json)
    | RequestFailed(text: string)
    | Crashed(text: string)

  /** One request to the model: the headers and the JSON payload that matter. */
  datatype Call = Call(url: string, authorization: string, model: string, prompt: string, imageUrl: string)

  /** `os.getenv("LLAMA_API_URL", default)`: the default only when unset. */
  function ApiUrl(setting: Option<string>): string {
    if setting.Some? then setting.value else DefaultApiUrl
  }

  /** `if not LLAMA_API_KEY`: a key that is unset or empty is missing. */
  predicate KeyMissing(apiKey: Option<string>) {
    apiKey.None? || apiKey.value == ""
  }

  /** The request the Python code builds: bearer authorization, the fixed model,
      one user message holding the text prompt and the image as a JPEG data URL. */
  function MakeCall(url: string, apiKey: string, prompt: string, base64Image: string): (c: Call)
    ensures StartsWith(c.authorization, "Bearer ") && c.authorization[|"Bearer "|..] == apiKey
    ensures StartsWith(c.imageUrl, JpegUrlPrefix) && c.imageUrl[|JpegUrlPrefix|..] == base64Image
    ensures c.url == url && c.prompt == prompt && c.model == ModelName
  {
    Call(url, "Bearer " + apiKey, ModelName, prompt, JpegUrlPrefix + base64Image)
  }
}
