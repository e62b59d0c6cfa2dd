/** The root controller of the editor: the picked image, its data URL, the
    prompt, the generated image, the loading flag and the error message, as
    the upload, generate and reset handlers change them. */
module App {
  import opened Wrappers
  import opened Strings
  import opened Env

  /** The parts of a picked `File` the controller reads. */
  datatype ImageFile = ImageFile(name: string, mimeType: string)

  /** The arguments of one call to the image generator. */
  datatype GenerateRequest = GenerateRequest(base64Data: Option<string>, mimeType: string, prompt: string)

  const ReadFailedMessage: string := "Failed to read image file."
  const MissingInputMessage: string := "Please upload an image and enter a prompt."
  const GenerateFailedMessage: string := "Failed to generate image. Please try again."

  /** The six state fields at one moment. */
  datatype AppState = AppState(
    sourceImage: Option<ImageFile>,
    sourceImageUrl: Option<string>,
    prompt: string,
    generatedImageUrl: Option<string>,
    isLoading: bool,
    error: Option<string>)

  /** The state the page starts in and `handleReset` returns to. */
  const Initial: AppState := AppState(None, None, "", None, false, None)

  /** The call `handleGenerate` makes, or none when its guard stops it: an
      image must be picked, its data URL read and non-empty, and the prompt
      non-empty (an untrimmed check). The generator receives the second
      comma-separated field of the data URL. */
  function RequestFor(sourceImage: Option<ImageFile>, sourceImageUrl: Option<string>, prompt: string): (r: Option<GenerateRequest>)
    ensures r.Some? <==> sourceImage.Some? && Present(sourceImageUrl) && prompt != ""
    ensures r.Some? ==> r.value.mimeType == sourceImage.value.mimeType && r.value.prompt == prompt
    ensures r.Some? ==> r.value.base64Data == Field(Split(sourceImageUrl.value, ','), 1)
  {
    if sourceImage.None? || !Present(sourceImageUrl) || prompt == "" then None
    else Some(GenerateRequest(Field(Split(sourceImageUrl.value, ','), 1), sourceImage.value.mimeType, prompt))
  }

  /** For a data URL `header,payload` in which neither part holds a comma,
      the generator receives exactly the payload. */
  lemma RequestCarriesPayload(file: ImageFile, header: string, payload: string, prompt: string)
    requires ',' !in header && ',' !in payload && prompt != ""
    ensures RequestFor(Some(file), Some(header + "," + payload), prompt)
      == Some(GenerateRequest(Some(payload), file.mimeType, prompt))
  {
    assert Join([header, payload], [',']) == header + "," + payload;
    SplitJoin([header, payload], ',');
  }

  /** A data URL without a comma gives the generator `undefined`. */
  lemma RequestWithoutComma(file: ImageFile, url: string, prompt: string)
    requires ',' !in url && url != "" && prompt != ""
    ensures RequestFor(Some(file), Some(url), prompt) == Some(GenerateRequest(None, file.mimeType, prompt))
  {
  }

  class AppController {
    var sourceImage: Option<ImageFile>
    var sourceImageUrl: Option<string>
    var prompt: string
    var generatedImageUrl: Option<string>
    var isLoading: bool
    var error: Option<string>

    function State(): AppState
      reads this
    {
      AppState(sourceImage, sourceImageUrl, prompt, generatedImageUrl, isLoading, error)
    }

    constructor ()
      ensures State() == Initial
    {
      sourceImage := None;
      sourceImageUrl := None;
      prompt := "";
      generatedImageUrl := None;
      isLoading := false;
      error := None;
    }

    /** `setPrompt` from the prompt field. */
    method SetPrompt(p: string)
      modifies this
      ensures State() == old(State()).(prompt := p)
    {
      prompt := p;
    }

    /** `handleImageUpload`, given the outcome of reading the file as a data
        URL (`None` when the read failed): the file is kept, the previous
        result and message are cleared, and a failed read leaves no URL and
        the read-failure message. */
    method HandleImageUpload(file: ImageFile, read: Option<string>)
      modifies this
      ensures sourceImage == Some(file) && sourceImageUrl == read && generatedImageUrl == None
      ensures error == (if read.None? then Some(ReadFailedMessage) else None)
      ensures prompt == old(prompt) && isLoading == old(isLoading)
    {
      sourceImage := Some(file);
      error := None;
      generatedImageUrl := None;
      match read {
        case Some(url) =>
          sourceImageUrl := Some(url);
        case None =>
          error := Some(ReadFailedMessage);
          sourceImageUrl := None;
      }
    }

    /** `handleGenerate`, given what the generator would do with the request
        (`Ok` with the new image's URL, or `Err` when it throws). Without an
        image, a URL or a prompt only the message changes and nothing is
        sent; otherwise the request of `RequestFor` is sent, the result or
        the failure message is stored, and loading ends false either way. */
    method HandleGenerate(generate: GenerateRequest -> Result<string, string>) returns (sent: Option<GenerateRequest>)
      modifies this
      ensures sent == RequestFor(old(sourceImage), old(sourceImageUrl), old(prompt))
      ensures sourceImage == old(sourceImage) && sourceImageUrl == old(sourceImageUrl) && prompt == old(prompt)
      ensures sent.None? ==> State() == old(State()).(error := Some(MissingInputMessage))
      ensures sent.Some? ==> !isLoading
      ensures sent.Some? ==>
        match generate(sent.value)
        case Ok(url) => generatedImageUrl == Some(url) && error == None
        case Err(_) => generatedImageUrl == None && error == Some(GenerateFailedMessage)
    {
      if sourceImage.None? || !Present(sourceImageUrl) || prompt == "" {
        error := Some(MissingInputMessage);
        return None;
      }
      isLoading := true;
      error := None;
      generatedImageUrl := None;
      var request := GenerateRequest(Field(Split(sourceImageUrl.value, ','), 1), sourceImage.value.mimeType, prompt);
      sent := Some(request);
      var outcome := generate(request);
      match outcome {
        case Ok(url) =>
          generatedImageUrl := Some(url);
        case Err(_) =>
          error := Some(GenerateFailedMessage);
      }
      isLoading := false;
    }

    /** `handleReset`: every field goes back to its initial value, whatever
        the state was, so a second reset changes nothing. */
    method HandleReset()
      modifies this
      ensures State() == Initial
    {
      sourceImage := None;
      sourceImageUrl := None;
      prompt := "";
      generatedImageUrl := None;
      error := None;
      isLoading := false;
    }
  }

  /** Resetting twice leaves the same state as resetting once, and a reset
      page refuses to generate until an image and a prompt are given. */
  method ResetThenGenerate(c: AppController, generate: GenerateRequest -> Result<string, string>) returns (sent: Option<GenerateRequest>)
    modifies c
    ensures c.State() == Initial.(error := Some(MissingInputMessage)) && sent == None
  {
    c.HandleReset();
    c.HandleReset();
    assert c.State() == Initial;
    sent := c.HandleGenerate(generate);
  }
}
