/** The Flask backend (server/app.py): the `/process-image` handler and
    `process_image_with_llama`. Both are branching over their inputs; the
    request to the model is an input (`Reply`) and the texts the Python runtime
    puts into its exceptions come from `Py`. */
module Server {
  import opened Json
  import opened Wrappers
  import opened Text
  import opened Llama

  const NoImageError := "No image data provided"
  const MissingKeyError := "LLAMA_API_KEY not found in environment"

  // The two long prefixes are written in pieces only so that the verifier can
  // read single characters of them cheaply.
  const TranslatorPrefix := "You are a language translator. " + "What is the object in this image? " +
    "Provide a direct translation of the text in the image into "
  const TourGuidePrefix := "You are a tour guide. " + "You are looking at an image and describing it in "
  const SignLanguagePrefix := "Describe this image " + "for a sign language app in "

  /** The response envelope: `{"success": True, "result": ...}` or `{"error": ...}`. */
  datatype Envelope = Succeeded(result: Json) | Failed(error: string)

  /** The JSON object `jsonify` sends for an envelope. */
  function EnvelopeJson(e: Envelope): (j: Json)
    ensures j.Obj?
    ensures e.Succeeded? ==>
      j.fields.Keys == {"success", "result"} && j.fields["success"] == Bool(true) && j.fields["result"] == e.result
    ensures e.Failed? ==> j.fields.Keys == {"error"} && j.fields["error"] == Str(e.error)
    ensures "success" in j.fields <==> e.Succeeded?
  {
    match e
    case Succeeded(r) => Obj(map["success" := Bool(true), "result" := r])
    case Failed(msg) => Obj(map["error" := Str(msg)])
  }

  /** An exception raised by the handler's own code. */
  datatype Fault =
    | NotIterable(data: Json)       // `'image' in data` on a number or a boolean
    | NotSubscriptable(data: Json)  // `data['image']` on a list or a string
    | NoStartswith(image: Json)     // `image_data.startswith(...)` on a non-string
    | NoSecondPart                  // `image_data.split(',')[1]` with no comma
    | NoLower(context: Json)        // `context.lower()` on a non-string

  /** What the Python runtime supplies: `str(e)` of a raised fault, and `str(v)`
      of a non-string value formatted into the prompt. */
  datatype Py = Py(faultText: Fault -> string, str: Json -> string)

  /** Outcome of `request.get_json()`: the decoded body (`Null` for JSON `null`
      or no body), or the text of the exception Flask raises for a body it
      refuses. */
  datatype Body = Decoded(data: Json) | Refused(text: string)

  /** The `LLAMA_API_URL` and `LLAMA_API_KEY` settings as `os.getenv` reads
      them: `None` when unset. */
  datatype Config = Config(apiUrl: Option<string>, apiKey: Option<string>)

  /** An HTTP response, and the model call made on the way (if any). */
  datatype Handled = Handled(status: int, envelope: Envelope, call: Option<Call>)

  /** What `process_image_with_llama` returns, and the model call it made. */
  datatype Answer = Answer(envelope: Envelope, call: Option<Call>)

  datatype Attempt<T> = Done(value: T) | Raised(fault: Fault)

  /** Python truthiness of a decoded JSON value: `None`, `False`, zero and
      the empty string, list and dict are false. */
  predicate Truthy(v: Json)
    ensures !Truthy(v) <==> v in {Null, Bool(false), Num(0), Str(""), Arr([]), Obj(map[])}
  {
    match v
    case Null => false
    case Bool(b) => b
    case Num(n) => n != 0
    case Str(s) => s != ""
    case Arr(a) => a != []
    case Obj(m) => m != map[]
  }

  /** `not data or 'image' not in data` is true, where `in` means key
      membership for a dict, element membership for a list and substring for a
      string (for a truthy number or boolean `in` raises instead). */
  predicate NoImage(data: Json)
    ensures !Truthy(data) ==> NoImage(data)
    ensures data.Obj? ==> (NoImage(data) <==> "image" !in data.fields)
    ensures data.Num? || data.Bool? ==> (NoImage(data) <==> !Truthy(data))
  {
    !Truthy(data) ||
    match data
    case Obj(m) => "image" !in m
    case Arr(a) => Str("image") !in a
    case Str(s) => !Contains(s, "image")
    case _ => false
  }

  /** Lines 86-90: the validation and `data['image']`. */
  datatype Lookup = Missing | Broken(fault: Fault) | Found(image: Json, fields: map<string, Json>)

  function LookupImage(data: Json): (r: Lookup)
    ensures r.Missing? <==> NoImage(data)
    ensures r.Found? <==> data.Obj? && "image" in data.fields
    ensures r.Found? ==> r.fields == data.fields && r.image == data.fields["image"]
  {
    if !Truthy(data) then Missing
    else
      match data
      case Obj(m) => if "image" in m then Found(m["image"], m) else Missing
      case Arr(a) => if Str("image") in a then Broken(NotSubscriptable(data)) else Missing
      case Str(s) => if Contains(s, "image") then Broken(NotSubscriptable(data)) else Missing
      case _ => Broken(NotIterable(data))
  }

  /** Lines 90-92: a `data:image...` string is cut down to its second
      comma-separated segment; any other string is forwarded as it is. */
  function StripDataUrl(image: Json): (r: Attempt<string>)
    ensures !image.Str? ==> r == Raised(NoStartswith(image))
    ensures image.Str? && !StartsWith(image.s, "data:image") ==> r == Done(image.s)
    ensures image.Str? && StartsWith(image.s, "data:image") && ',' !in image.s ==> r == Raised(NoSecondPart)
    ensures image.Str? && StartsWith(image.s, "data:image") && ',' in image.s ==>
      r.Done? &&
      var s, i := image.s, IndexOf(image.s, ',').value;
      ',' !in s[..i] && ',' !in r.value && StartsWith(s[i + 1..], r.value) &&
      (i + 1 + |r.value| == |s| || s[i + 1 + |r.value|] == ',')
  {
    match image
    case Str(s) =>
      if !StartsWith(s, "data:image") then Done(s)
      else
        var parts := Split(s, ',');
        if |parts| < 2 then Raised(NoSecondPart)
        else
          SecondPart(s, ',');
          Done(parts[1])
    case _ => Raised(NoStartswith(image))
  }

  /** `data.get(key, default)`: the default only when the key is absent (an
      explicit `null` is kept). */
  function Get(fields: map<string, Json>, key: string, default: Json): (v: Json)
    ensures key in fields ==> v == fields[key]
    ensures key !in fields ==> v == default
  {
    if key in fields then fields[key] else default
  }

  /** Which prompt `context.lower()` selects. */
  datatype PromptKind = Translate | Describe | SignLanguage

  function KindOf(context: string): (k: PromptKind)
    ensures k == Translate <==> Lower(context) == "translate"
    ensures k == Describe <==> Lower(context) == "describe"
  {
    if Lower(context) == "translate" then Translate
    else if Lower(context) == "describe" then Describe
    else SignLanguage
  }

  function PrefixOf(k: PromptKind): string {
    match k
    case Translate => TranslatorPrefix
    case Describe => TourGuidePrefix
    case SignLanguage => SignLanguagePrefix
  }

  /** Lines 27-32: the prompt for a context, ending in the language and a period. */
  function ServerPrompt(context: string, language: string): (p: string)
    ensures p == PrefixOf(KindOf(context)) + language + "."
    ensures EndsWith(p, language + ".")
  {
    var prompt :=
      if Lower(context) == "translate" then TranslatorPrefix + language + "."
      else if Lower(context) == "describe" then TourGuidePrefix + language + "."
      else SignLanguagePrefix + language + ".";
    assert prompt[|prompt| - |language + "."|..] == language + ".";
    prompt
  }

  lemma PrefixLetters()
    ensures TranslatorPrefix[0] == 'Y' && TranslatorPrefix[10] == 'l'
    ensures TourGuidePrefix[0] == 'Y' && TourGuidePrefix[10] == 't'
    ensures SignLanguagePrefix[0] == 'D'
  {
  }

  /** Distinct prompt kinds put distinct text in front of the language. */
  lemma PrefixDetermines(k1: PromptKind, l1: string, k2: PromptKind, l2: string)
    requires PrefixOf(k1) + l1 + "." == PrefixOf(k2) + l2 + "."
    ensures k1 == k2 && l1 == l2
  {
    var p := PrefixOf(k1) + l1 + ".";
    var p1, p2 := PrefixOf(k1), PrefixOf(k2);
    assert p[0] == p1[0] && p[0] == p2[0];
    assert p[10] == p1[10] && p[10] == p2[10];
    if k1 != k2 {
      PrefixLetters();
      assert false;
    }
    assert l1 == p[|p1|..|p| - 1];
  }

  /** The prompt determines both the branch taken and the language. */
  lemma PromptDetermines(c1: string, l1: string, c2: string, l2: string)
    requires ServerPrompt(c1, l1) == ServerPrompt(c2, l2)
    ensures KindOf(c1) == KindOf(c2) && l1 == l2
  {
    PrefixDetermines(KindOf(c1), l1, KindOf(c2), l2);
  }

  /** The prompt depends on the context only up to ASCII case. */
  lemma KindIgnoresCase(context: string)
    ensures KindOf(Lower(context)) == KindOf(context)
  {
    LowerIdempotent(context);
  }

  /** `f"... {language}."`: a string is used as it is, anything else as `str(v)`. */
  function LanguageText(language: Json, py: Py): (t: string)
    ensures language.Str? ==> t == language.s
    ensures !language.Str? ==> t == py.str(language)
  {
    if language.Str? then language.s else py.str(language)
  }

  /** The envelope made from the model's reply (lines 63-76). */
  function ReplyEnvelope(reply: Reply): (e: Envelope)
    ensures e.Succeeded? <==> reply.Replied?
    ensures reply.Replied? ==> e.result == reply.body
    ensures reply.RequestFailed? ==> e.error == "API request failed: " + reply.text
    ensures reply.Crashed? ==> e.error == "Unexpected error: " + reply.text
  {
    match reply
    case Replied(j) => Succeeded(j)
    case RequestFailed(t) => Failed("API request failed: " + t)
    case Crashed(t) => Failed("Unexpected error: " + t)
  }

  /** `process_image_with_llama(base64_image, language, context)`. */
  function ProcessWithLlama(image: string, language: Json, context: Json, cfg: Config, reply: Reply, py: Py): (a: Answer)
    ensures a.call.Some? <==> context.Str? && !KeyMissing(cfg.apiKey)
    ensures a.call.Some? ==>
      a.call.value == MakeCall(ApiUrl(cfg.apiUrl), cfg.apiKey.value, ServerPrompt(context.s, LanguageText(language, py)), image) &&
      a.envelope == ReplyEnvelope(reply)
    ensures !context.Str? ==> a.envelope == Failed("Unexpected error: " + py.faultText(NoLower(context)))
    ensures context.Str? && KeyMissing(cfg.apiKey) ==> a.envelope == Failed(MissingKeyError)
    ensures a.envelope.Failed? ==> a.envelope.error != ""
  {
    match context
    case Str(c) =>
      var prompt := ServerPrompt(c, LanguageText(language, py));
      if KeyMissing(cfg.apiKey) then Answer(Failed(MissingKeyError), None)
      else
        var call := MakeCall(ApiUrl(cfg.apiUrl), cfg.apiKey.value, prompt, image);
        Answer(ReplyEnvelope(reply), Some(call))
    case _ => Answer(Failed("Unexpected error: " + py.faultText(NoLower(context))), None)
  }

  /** The `/process-image` handler. */
  function ProcessImage(body: Body, cfg: Config, reply: Reply, py: Py): (h: Handled)
    ensures h.status == 400 <==> body.Decoded? && NoImage(body.data)
    ensures h.status == 400 ==> h.envelope == Failed(NoImageError) && h.call.None?
    ensures h.status == 500 ==> h.call.None? && h.envelope.Failed? && StartsWith(h.envelope.error, "Server error: ")
    ensures h.status == 200 || h.status == 400 || h.status == 500
    ensures h.envelope.Succeeded? ==> h.status == 200 && h.call.Some? && reply == Replied(h.envelope.result)
    ensures h.call.Some? ==> !KeyMissing(cfg.apiKey) && h.call.value.model == ModelName
    ensures h.call.Some? && cfg.apiUrl.Some? ==> h.call.value.url == cfg.apiUrl.value
    ensures h.call.Some? && cfg.apiUrl.None? ==> h.call.value.url == DefaultApiUrl
    ensures h.envelope.Failed? ==> h.envelope.error != ""
  {
    match body
    case Refused(t) => Handled(500, Failed("Server error: " + t), None)
    case Decoded(data) =>
      match LookupImage(data)
      case Missing => Handled(400, Failed(NoImageError), None)
      case Broken(f) => Handled(500, Failed("Server error: " + py.faultText(f)), None)
      case Found(image, fields) =>
        match StripDataUrl(image)
        case Raised(f) => Handled(500, Failed("Server error: " + py.faultText(f)), None)
        case Done(imageData) =>
          var language := Get(fields, "language", Str("English"));
          var context := Get(fields, "context", Str("describe"));
          var a := ProcessWithLlama(imageData, language, context, cfg, reply, py);
          Handled(200, a.envelope, a.call)
  }

  /** A `data:image...` string without a comma ends in a 500 with a server
      error, before any model call. */
  lemma DataUrlWithoutComma(m: map<string, Json>, cfg: Config, reply: Reply, py: Py)
    requires "image" in m && m["image"].Str?
    requires StartsWith(m["image"].s, "data:image") && ',' !in m["image"].s
    ensures var h := ProcessImage(Decoded(Obj(m)), cfg, reply, py);
      h == Handled(500, Failed("Server error: " + py.faultText(NoSecondPart)), None)
  {
  }

  /** A dict body whose image is a usable string and whose optional fields are
      strings: the language defaults to English, the context to `describe`,
      and the model receives the prompt for them and the stripped image. */
  lemma StringRequest(m: map<string, Json>, cfg: Config, reply: Reply, py: Py)
    requires "image" in m && m["image"].Str?
    requires !StartsWith(m["image"].s, "data:image") || ',' in m["image"].s
    requires "language" in m ==> m["language"].Str?
    requires "context" in m ==> m["context"].Str?
    ensures var h := ProcessImage(Decoded(Obj(m)), cfg, reply, py);
      var language := if "language" in m then m["language"].s else "English";
      var context := if "context" in m then m["context"].s else "describe";
      h.status == 200 &&
      (KeyMissing(cfg.apiKey) ==> h == Handled(200, Failed(MissingKeyError), None)) &&
      (!KeyMissing(cfg.apiKey) ==>
        h.envelope == ReplyEnvelope(reply) &&
        h.call == Some(MakeCall(ApiUrl(cfg.apiUrl), cfg.apiKey.value, ServerPrompt(context, language), StripDataUrl(m["image"]).value)))
  {
  }

  /** With neither a language nor a context in the body, the model is asked
      for a tour-guide description in English. */
  lemma DefaultPrompt(m: map<string, Json>, cfg: Config, reply: Reply, py: Py)
    requires "image" in m && m["image"].Str?
    requires !StartsWith(m["image"].s, "data:image") || ',' in m["image"].s
    requires "language" !in m && "context" !in m
    requires !KeyMissing(cfg.apiKey)
    ensures var h := ProcessImage(Decoded(Obj(m)), cfg, reply, py);
      h.call.Some? && h.call.value.prompt == TourGuidePrefix + "English."
  {
    StringRequest(m, cfg, reply, py);
    DescribeIsDescribe();
  }

  /** The default context selects the tour-guide prompt. It is a lemma of its
      own so that the comparisons of the context with the literals stay out of
      the context of the lemmas that use it. */
  lemma DescribeIsDescribe()
    ensures KindOf("describe") == Describe
  {
  }
}
