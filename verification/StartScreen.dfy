/** The intake screen: reading an uploaded file, and when the submit button is enabled. */
module StartScreen {
  import opened Wrappers
  import opened JsString
  import opened Types

  /**
   * `disabled={isLoading || (!text.trim() && !file)}`: an empty trimmed string
   * is falsy, so the button is off while loading, or when the text is blank
   * and no file is loaded.
   */
  function SubmitDisabled(isLoading: bool, text: string, file: Option<FileData>): (disabled: bool)
    ensures disabled <==> isLoading || (AllWhiteSpace(text) && file.None?)
  {
    isLoading || (Trim(text) == "" && file.None?)
  }

  /**
   * The button is enabled exactly when nothing is loading and there is either
   * a character of the text that is not white space or a loaded file.
   */
  lemma SubmitEnabledIff(isLoading: bool, text: string, file: Option<FileData>)
    ensures !SubmitDisabled(isLoading, text, file) <==>
      !isLoading && ((exists i :: 0 <= i < |text| && !IsWhiteSpace(text[i])) || file.Some?)
  {
  }

  /** An enabled button always carries something to analyse: a non-empty text or a file. */
  lemma EnabledHasInput(isLoading: bool, text: string, file: Option<FileData>)
    requires !SubmitDisabled(isLoading, text, file)
    ensures !isLoading && (text != "" || file.Some?)
  {
  }

  /**
   * `result.split(',')[1]`: the segment between the first and the second
   * comma of a data URL (to the end when there is no second comma), or
   * `undefined` when the URL holds no comma at all.
   */
  function DataUrlPayload(url: string): (r: Option<string>)
    ensures r.None? <==> ',' !in url
    ensures r.Some? ==> ',' !in r.value
  {
    SplitSingle(url);
    var pieces := SplitOnComma(url);
    if |pieces| >= 2 then Some(pieces[1]) else None
  }

  /** The payload of `header,payload` is `payload`, for a header and payload without commas. */
  lemma DataUrlRoundTrip(header: string, payload: string)
    requires ',' !in header && ',' !in payload
    ensures DataUrlPayload(header + "," + payload) == Some(payload)
  {
    SplitJoin([header, payload]);
    assert JoinWithComma([header, payload]) == header + "," + payload;
  }

  /**
   * The `onloadend` handler: the file's payload from the data URL, and its
   * declared type unchanged. `None` stands for the case where the source
   * would store `undefined` as the payload.
   */
  function FileFromDataUrl(url: string, mimeType: string): (r: Option<FileData>)
    ensures r.Some? <==> ',' in url
    ensures r.Some? ==> r.value.mimeType == mimeType && Some(r.value.base64) == DataUrlPayload(url)
  {
    match DataUrlPayload(url)
    case Some(payload) => Some(FileData(payload, mimeType))
    case None => None
  }
}
