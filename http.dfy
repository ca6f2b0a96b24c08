/**
 * The parts of a net/http Request that the application reads or changes:
 * the method (which the override middleware rewrites in place), the URL
 * path, the HX-Request header and the submitted form. Go parses the form at
 * most once per request: the first ParseForm (called directly or through
 * FormValue) reports the parse error, and every later call returns none.
 */
module Http {

  class Request {
    var httpMethod: string
    const path: string
    /** The HX-Request header; "" when the header is absent. */
    const hxRequest: string
    /**
     * The decoded form as the request's first parse yields it, first value of
     * each key: for a POST the middleware's FormValue parses first, through
     * ParseMultipartForm (query string plus a urlencoded or multipart body);
     * for any other method the handler's ParseForm parses first (query string
     * plus a urlencoded body only).
     */
    const form: map<string, string>
    /** Whether that first parse reports an error. */
    const formMalformed: bool
    /** Whether the form has been parsed already (r.Form != nil). */
    var parsed: bool

    constructor (httpMethod: string, path: string, hxRequest: string, form: map<string, string>, formMalformed: bool)
      ensures this.httpMethod == httpMethod && this.path == path && this.hxRequest == hxRequest
      ensures this.form == form && this.formMalformed == formMalformed && !parsed
    {
      this.httpMethod := httpMethod;
      this.path := path;
      this.hxRequest := hxRequest;
      this.form := form;
      this.formMalformed := formMalformed;
      parsed := false;
    }

    /** The value FormValue yields for `key`: "" when the form has no such key. */
    function Field(key: string): (v: string)
      ensures key !in form ==> v == ""
      ensures key in form ==> v == form[key]
    {
      if key in form then form[key] else ""
    }

    /** ParseForm: only the first call can report an error. */
    method ParseForm() returns (err: bool)
      modifies this`parsed
      ensures parsed
      ensures err <==> !old(parsed) && formMalformed
    {
      err := !parsed && formMalformed;
      parsed := true;
    }

    /** FormValue: parses the form when that has not happened yet, ignoring any error. */
    method FormValue(key: string) returns (v: string)
      modifies this`parsed
      ensures parsed && v == Field(key)
    {
      if !parsed {
        var _ := ParseForm();
      }
      v := Field(key);
    }
  }
}
