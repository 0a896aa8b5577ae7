/** `Embodiment`: a reply ready to be written to the transport. */
module Embodiments {
  import opened Wrappers
  import opened Values

  /** The body of an embodiment: a buffer (possibly absent) or a stream. */
  datatype Payload = Buffered(data: Option<Value>) | Streamed(stream: nat)

  class Embodiment {
    var httpCode: int
    var location: Option<string>
    var mimeType: string
    var body: Payload
    var cookiesData: seq<string>
    var additionalHeaders: map<string, string>

    /** `new Embodiment(mimeType, code = 200, data)`: no location, no cookies, no extra headers yet. */
    constructor (mimeType: string, code: int := 200, data: Payload := Buffered(None))
      ensures this.mimeType == mimeType && httpCode == code && body == data
      ensures location == None && cookiesData == [] && additionalHeaders == map[]
    {
      this.httpCode := code;
      this.body := data;
      this.mimeType := mimeType;
      this.location := None;
      this.cookiesData := [];
      this.additionalHeaders := map[];
    }

    /** `addSetCookie(cookie)`: one more Set-Cookie value, after the others. */
    method AddSetCookie(cookie: string)
      modifies this
      ensures cookiesData == old(cookiesData) + [cookie]
      ensures httpCode == old(httpCode) && location == old(location) && mimeType == old(mimeType)
      ensures body == old(body) && additionalHeaders == old(additionalHeaders)
    {
      cookiesData := cookiesData + [cookie];
    }

    /** `setAdditionalHeaders(headers)`: the given headers replace the previous ones wholesale. */
    method SetAdditionalHeaders(headers: map<string, string>)
      modifies this
      ensures additionalHeaders == headers
      ensures httpCode == old(httpCode) && location == old(location) && mimeType == old(mimeType)
      ensures body == old(body) && cookiesData == old(cookiesData)
    {
      additionalHeaders := headers;
    }
  }
}
