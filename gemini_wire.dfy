/** What the two Gemini clients put on and take off the wire: HTTP outcomes,
    `EnsureSuccessStatusCode`, and the `generateContent` request body with its
    ordered list of parts. Base64 encoding is left abstract: an inline-data part
    carries the bytes it encodes. */
module GeminiWire {
  import opened Runtime
  import opened Text

  /** A response as the client sees it; `statusName` is `StatusCode.ToString()`. */
  datatype HttpResponse = HttpResponse(statusCode: nat, statusName: string, reasonPhrase: Option<string>, body: string)

  /** Awaiting a send: a response, or the exception the send (or a policy around it) raised. */
  datatype HttpOutcome = Responded(response: HttpResponse) | Raised(error: Exception)

  /** `HttpResponseMessage.IsSuccessStatusCode`. */
  predicate IsSuccessStatusCode(statusCode: nat) {
    200 <= statusCode <= 299
  }

  const NotSuccessPrefix := "Response status code does not indicate success: "

  /** The message of the exception `EnsureSuccessStatusCode` throws. */
  function EnsureSuccessMessage(r: HttpResponse): (m: string)
    ensures NotSuccessPrefix <= m
  {
    var code := NotSuccessPrefix + NatToString(r.statusCode);
    match r.reasonPhrase
    case Some(reason) => if |reason| > 0 then code + " (" + reason + ")." else code + "."
    case None => code + "."
  }

  /** `EnsureSuccessStatusCode`: nothing for a 2xx status, otherwise the
      `HttpRequestException` it throws. */
  function EnsureSuccessStatusCode(r: HttpResponse): (e: Option<Exception>)
    ensures e.None? <==> IsSuccessStatusCode(r.statusCode)
    ensures e.Some? ==> e.value.HttpRequest? && NotSuccessPrefix <= e.value.Message()
  {
    if IsSuccessStatusCode(r.statusCode) then None else Some(HttpRequest(EnsureSuccessMessage(r)))
  }

  const JpegMime := "image/jpeg"
  const WavMime := "audio/wav"

  /** `{ text = ... }` or `{ inline_data = { mime_type, data } }`. */
  datatype RequestPart = TextPart(text: string) | InlineDataPart(mimeType: string, data: Bytes)

  /** The integer settings of `generationConfig`; `temperature` and `topP` are
      floating point and not part of this model. */
  datatype GenerationConfig = GenerationConfig(topK: nat, maxOutputTokens: nat, responseMimeType: Option<string>)

  datatype SafetySetting = SafetySetting(category: string, threshold: string)

  /** The body of a `generateContent` call: one `user` content holding the parts. */
  datatype WireRequest = WireRequest(
    role: string,
    parts: seq<RequestPart>,
    generationConfig: GenerationConfig,
    safetySettings: seq<SafetySetting>)

  function JpegPart(image: Bytes): RequestPart {
    InlineDataPart(JpegMime, image)
  }

  /** One JPEG part per image, in order. */
  function ImageParts(images: seq<Bytes>): (parts: seq<RequestPart>)
    ensures |parts| == |images|
    ensures forall i :: 0 <= i < |images| ==> parts[i] == JpegPart(images[i])
  {
    seq(|images|, i requires 0 <= i < |images| => JpegPart(images[i]))
  }

  /** The layout both clients promise: the prompt first, then one JPEG part per
      image in order, then a WAV part exactly when there is audio, and nothing else. */
  ghost predicate MultiModalLayout(parts: seq<RequestPart>, prompt: string, images: seq<Bytes>, audio: Option<Bytes>) {
    && |parts| == 1 + |images| + (if audio.Some? then 1 else 0)
    && parts[0] == TextPart(prompt)
    && (forall i :: 0 <= i < |images| ==> parts[1 + i] == JpegPart(images[i]))
    && (audio.Some? ==> parts[|parts| - 1] == InlineDataPart(WavMime, audio.value))
  }

  /** The WAV part, when there is audio. */
  function AudioParts(audio: Option<Bytes>): seq<RequestPart> {
    if audio.Some? then [InlineDataPart(WavMime, audio.value)] else []
  }

  /** Concatenating the prompt part, the image parts and the audio part gives the layout. */
  lemma ConcatenationHasLayout(prompt: string, images: seq<Bytes>, audio: Option<Bytes>)
    ensures MultiModalLayout([TextPart(prompt)] + ImageParts(images) + AudioParts(audio), prompt, images, audio)
  {
    var head := [TextPart(prompt)] + ImageParts(images);
    var parts := head + AudioParts(audio);
    assert |head| == 1 + |images|;
    forall i | 0 <= i < |images|
      ensures parts[1 + i] == JpegPart(images[i])
    {
      assert parts[1 + i] == head[1 + i] == ImageParts(images)[i];
    }
    if audio.Some? {
      assert parts[|parts| - 1] == AudioParts(audio)[0];
    }
  }

  /** The layout pins the parts down completely. */
  lemma LayoutDetermines(p: seq<RequestPart>, q: seq<RequestPart>, prompt: string, images: seq<Bytes>,
                         audio: Option<Bytes>)
    requires MultiModalLayout(p, prompt, images, audio)
    requires MultiModalLayout(q, prompt, images, audio)
    ensures p == q
  {
    assert |p| == |q|;
    forall j | 0 <= j < |p|
      ensures p[j] == q[j]
    {
      if j == 0 {
      } else if j <= |images| {
        assert p[1 + (j - 1)] == JpegPart(images[j - 1]);
        assert q[1 + (j - 1)] == JpegPart(images[j - 1]);
      } else {
        assert audio.Some? && j == |p| - 1;
      }
    }
  }

  /** The last part is a WAV part exactly when there is audio, and no earlier
      part is a WAV part. */
  lemma AudioPartIsLastIffAudio(parts: seq<RequestPart>, prompt: string, images: seq<Bytes>, audio: Option<Bytes>)
    requires MultiModalLayout(parts, prompt, images, audio)
    ensures parts[|parts| - 1].InlineDataPart? && parts[|parts| - 1].mimeType == WavMime <==> audio.Some?
    ensures forall i :: 0 <= i < |parts| - 1 ==> !(parts[i].InlineDataPart? && parts[i].mimeType == WavMime)
  {
    assert JpegMime != WavMime by { assert JpegMime[0] != WavMime[0]; }
    if audio.None? && |images| > 0 {
      assert parts[|parts| - 1] == parts[1 + (|images| - 1)] == JpegPart(images[|images| - 1]);
    }
    forall i | 0 <= i < |parts| - 1
      ensures !(parts[i].InlineDataPart? && parts[i].mimeType == WavMime)
    {
      if i > 0 {
        assert parts[1 + (i - 1)] == JpegPart(images[i - 1]);
      }
    }
  }
}
