/**
 * The recon image client's work after the image-generation call returns
 * (generateSatelliteIntelligence in services/geminiService.ts): the first
 * content part that carries inline data becomes a base64 data URI.
 */
module ReconClient {
  import opened Wrappers

  /** A binary payload inside a content part: its media type and its base64 text. */
  datatype InlineData = InlineData(mimeType: string, data: string)

  /** One content part of the first candidate; only its inline data matters here. */
  datatype Part = Part(inlineData: Option<InlineData>)

  /** `data:<mimeType>;base64,<data>`. */
  function DataUri(d: InlineData): (uri: string)
    ensures |uri| == |d.mimeType| + |d.data| + 13
    ensures uri[..5] == "data:" && uri[5..5 + |d.mimeType|] == d.mimeType
    ensures uri[5 + |d.mimeType|..13 + |d.mimeType|] == ";base64,"
    ensures uri[|uri| - |d.data|..] == d.data
  {
    "data:" + d.mimeType + ";base64," + d.data
  }

  /** `k` is the first part that carries inline data. */
  predicate FirstImageAt(parts: seq<Part>, k: int) {
    && 0 <= k < |parts| && parts[k].inlineData.Some?
    && forall j :: 0 <= j < k ==> parts[j].inlineData.None?
  }

  /**
   * Scan the parts of the first candidate for an image. `parts` is `None`
   * when the response has no first candidate with content parts: reading them
   * throws, and the client swallows the error into `null`.
   */
  method SatelliteImageUri(parts: Option<seq<Part>>) returns (r: Option<string>)
    ensures r.Some? <==> parts.Some? && exists k :: 0 <= k < |parts.value| && parts.value[k].inlineData.Some?
    ensures r.Some? ==> exists k :: FirstImageAt(parts.value, k) && r.value == DataUri(parts.value[k].inlineData.value)
  {
    if parts.None? {
      return None;
    }
    var ps := parts.value;
    for i := 0 to |ps|
      invariant forall j :: 0 <= j < i ==> ps[j].inlineData.None?
    {
      if ps[i].inlineData.Some? {
        assert FirstImageAt(ps, i);
        return Some(DataUri(ps[i].inlineData.value));
      }
    }
    return None;
  }
}
