/** How the three parts meet: the request the browser component sends is one
    the server accepts, the component stores the server's envelope in its state
    as the server decided it, and the test harness asks the model the server's
    questions except when translating. */
module Pipeline {
  import opened Json
  import opened Wrappers
  import opened Text
  import opened Llama
  import Server
  import Harness
  import CameraFeed

  /** `JSON.stringify({image, language, context})` as the server decodes it. */
  function RequestJson(r: CameraFeed.ProcessRequest): (j: Json)
    ensures j.Obj? && j.fields.Keys == {"image", "language", "context"}
    ensures j.fields["image"] == Str(r.image)
    ensures j.fields["language"] == Str(r.language) && j.fields["context"] == Str(r.context)
  {
    Obj(map["image" := Str(r.image), "language" := Str(r.language), "context" := Str(r.context)])
  }

  /** Whatever the frame, language and context, the component's request is
      never refused for a missing image. */
  lemma ClientRequestHasImage(r: CameraFeed.ProcessRequest, cfg: Server.Config, reply: Reply, py: Server.Py)
    ensures Server.ProcessImage(Server.Decoded(RequestJson(r)), cfg, reply, py).status != 400
  {
  }

  /** The first comma of a JPEG frame is the one that ends its prefix. */
  lemma FrameComma(payload: string)
    requires ',' !in payload
    ensures IndexOf(JpegUrlPrefix + payload, ',') == Some(|JpegUrlPrefix| - 1)
  {
    var s, p := JpegUrlPrefix + payload, JpegUrlPrefix;
    assert |p| == 23 && p[22] == ',';
    assert forall k :: 0 <= k < 22 ==> p[k] != ',';
    assert s[22] == ',';
    var i := IndexOf(s, ',').value;
    assert forall k :: 0 <= k < i ==> s[..i][k] == s[k];
    assert forall k :: 23 <= k < |s| ==> s[k] == payload[k - 23];
  }

  /** The server cuts a JPEG frame down to exactly its base64 payload. */
  lemma FrameStripped(payload: string)
    requires ',' !in payload
    ensures StartsWith(JpegUrlPrefix + payload, "data:image") && ',' in JpegUrlPrefix + payload
    ensures Server.StripDataUrl(Str(JpegUrlPrefix + payload)) == Server.Done(payload)
  {
    var s, p := JpegUrlPrefix + payload, JpegUrlPrefix;
    assert StartsWith(s, "data:image") by {
      assert s[..|"data:image"|] == p[..10];
    }
    FrameComma(payload);
    assert s[22] == ',';
    assert s[23..] == payload;
    var stripped := Server.StripDataUrl(Str(s));
    assert forall k :: 23 <= k < |s| ==> s[k] == payload[k - 23];
    assert stripped.Done? && StartsWith(payload, stripped.value);
  }

  /** A captured JPEG frame (`toDataURL('image/jpeg', ...)` writes the same
      prefix the server puts back in front of the image) reaches the model
      unchanged, with the prompt for the chosen context and language; without
      a key the server answers 200 with the missing-key error and calls
      nothing. */
  lemma FrameReachesModel(r: CameraFeed.ProcessRequest, payload: string, cfg: Server.Config, reply: Reply, py: Server.Py)
    requires r.image == JpegUrlPrefix + payload && ',' !in payload
    ensures var h := Server.ProcessImage(Server.Decoded(RequestJson(r)), cfg, reply, py);
      h.status == 200 &&
      (KeyMissing(cfg.apiKey) ==> h == Server.Handled(200, Server.Failed(Server.MissingKeyError), None)) &&
      (!KeyMissing(cfg.apiKey) ==>
        h.envelope == Server.ReplyEnvelope(reply) &&
        h.call == Some(MakeCall(ApiUrl(cfg.apiUrl), cfg.apiKey.value, Server.ServerPrompt(r.context, r.language), payload)) &&
        h.call.value.imageUrl == r.image)
  {
    FrameStripped(payload);
    Server.StringRequest(RequestJson(r).fields, cfg, reply, py);
  }

  /** The component stores the server's envelope as the server meant it: a
      success as its result, a failure as its error text. */
  lemma EnvelopeRecorded(e: Server.Envelope)
    requires e.Failed? ==> e.error != ""
    ensures var state := CameraFeed.Resolve(CameraFeed.Received(Server.EnvelopeJson(e)));
      (e.Succeeded? ==>
        state == CameraFeed.Resolution(e.result, Null, CameraFeed.Status(Str(CameraFeed.ProcessedMessage), CameraFeed.Success))) &&
      (e.Failed? ==>
        state == CameraFeed.Resolution(Null, Str(e.error), CameraFeed.Status(Str(e.error), CameraFeed.Error)))
  {
  }

  /** Every response of the handler, whatever its status, reaches the
      component's state as success exactly when the server succeeded. */
  lemma ResponseRecorded(body: Server.Body, cfg: Server.Config, reply: Reply, py: Server.Py)
    ensures var h := Server.ProcessImage(body, cfg, reply, py);
      var state := CameraFeed.Resolve(CameraFeed.Received(Server.EnvelopeJson(h.envelope)));
      (state.status.kind == CameraFeed.Success <==> h.envelope.Succeeded?) &&
      (h.envelope.Succeeded? ==> state.processedResult == h.envelope.result) &&
      (h.envelope.Failed? ==> state.processingError == Str(h.envelope.error))
  {
    EnvelopeRecorded(Server.ProcessImage(body, cfg, reply, py).envelope);
  }

  /** The two values the component's context menu offers select the
      tour-guide and the translator prompt; the sign-language prompt is only
      reached by other contexts. */
  lemma MenuContexts()
    ensures Server.KindOf("describe") == Server.Describe
    ensures Server.KindOf("translate") == Server.Translate
  {
    Server.DescribeIsDescribe();
  }

  /** The harness sends the server's prompt for every context except
      `translate`, whose prompt it spells one space shorter. */
  lemma HarnessMatchesServer(context: string, language: string)
    ensures Harness.HarnessPrompt(context, language) == Server.ServerPrompt(context, language) <==>
      Server.KindOf(context) != Server.Translate
    ensures Server.KindOf(context) == Server.Translate ==>
      |Server.ServerPrompt(context, language)| == |Harness.HarnessPrompt(context, language)| + 1
  {
  }
}
