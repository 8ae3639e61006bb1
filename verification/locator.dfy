/** The blob locator: the first inline script whose text carries the data
    marker, cut from its first `{` to the end and handed to the decoder. */
module BlobLocator {
  import opened Wrappers
  import opened Json
  import opened Text

  const Marker := "pdpData"

  /** Reference definition of the search: the first text, in document order,
      that contains the marker. */
  function FirstMarked(texts: seq<string>): (r: Option<string>)
    ensures r.None? <==> forall j :: 0 <= j < |texts| ==> !Contains(texts[j], Marker)
    ensures r.Some? ==> exists i :: 0 <= i < |texts| && texts[i] == r.value
                                    && Contains(r.value, Marker)
                                    && forall j :: 0 <= j < i ==> !Contains(texts[j], Marker)
  {
    if texts == [] then None
    else if Contains(texts[0], Marker) then Some(texts[0])
    else
      var r := FirstMarked(texts[1..]);
      if r.Some? then
        var i :| 0 <= i < |texts[1..]| && texts[1..][i] == r.value
                 && forall j :: 0 <= j < i ==> !Contains(texts[1..][j], Marker);
        assert texts[i + 1] == r.value;
        assert forall j :: 0 <= j < i + 1 ==> !Contains(texts[j], Marker) by {
          forall j | 0 <= j < i + 1 ensures !Contains(texts[j], Marker) {
            if j > 0 { assert texts[j] == texts[1..][j - 1]; }
          }
        }
        r
      else
        assert forall j :: 0 <= j < |texts| ==> !Contains(texts[j], Marker) by {
          forall j | 0 <= j < |texts| ensures !Contains(texts[j], Marker) {
            if j > 0 { assert texts[j] == texts[1..][j - 1]; }
          }
        }
        r
  }

  /** The scan over the page's script texts: stop at the first one that
      contains the marker. */
  method LocateScript(texts: seq<string>) returns (found: Option<string>)
    ensures found == FirstMarked(texts)
  {
    found := None;
    var i := 0;
    while i < |texts|
      invariant 0 <= i <= |texts|
      invariant forall j :: 0 <= j < i ==> !Contains(texts[j], Marker)
    {
      if Contains(texts[i], Marker) {
        found := Some(texts[i]);
        break;
      }
      i := i + 1;
    }
  }

  /** From the located script (if any) to the decoded value: 500 when no
      script was found (or its text is empty), when the text has no `{`, and
      when the decoder rejects the suffix that starts at the first `{`. */
  function DecodeBlob(scriptText: Option<string>, loads: string -> Option<JsonValue>): (r: Result<JsonValue, int>)
    ensures scriptText.None? ==> r == Err(ServerError)
    ensures scriptText.Some? && '{' !in scriptText.value ==> r == Err(ServerError)
    ensures scriptText.Some? && '{' in scriptText.value ==>
              exists i :: 0 <= i < |scriptText.value| && scriptText.value[i] == '{'
                          && '{' !in scriptText.value[..i]
                          && r == (match loads(scriptText.value[i..])
                                   case None => Err(ServerError)
                                   case Some(v) => Ok(v))
  {
    if scriptText.None? || scriptText.value == "" then Err(ServerError)
    else
      var text := scriptText.value;
      match IndexOf(text, '{')
      case None => Err(ServerError)
      case Some(i) =>
        match loads(text[i..])
        case None => Err(ServerError)
        case Some(v) => Ok(v)
  }
}
