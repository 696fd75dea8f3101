/**
 * The validator on a profile's `url`: a known value must parse as a URL with both
 * a scheme and a host. The URL parser of Go's standard library is a parameter:
 * None stands for a parse error, Some for the parsed URL.
 */
module ValidUrlValidator {
  import opened Framework

  datatype Validator = Validator(max: int, min: int)

  /** The parts of a parsed URL the validator looks at. */
  datatype ParsedUrl = ParsedUrl(scheme: string, host: string)

  type UrlParser = string -> Option<ParsedUrl>

  function ValidURL(): (v: Validator)
    ensures v.min == 0 && v.max == 0
  {
    Validator(0, 0)
  }

  /** A fixed text: the bounds, which this validator never reads, do not appear in it. */
  function Description(v: Validator): (s: string)
    ensures s == "The URL must be a valid URL."
  {
    "The URL must be a valid URL."
  }

  function MarkdownDescription(v: Validator): (s: string)
    ensures s == Description(v)
  {
    "The URL must be a valid URL."
  }

  function InvalidUrlError(path: AttributePath): Diagnostic {
    AttributeErrorDiagnostic(path, "Invalid URL.", "The URL is not a valid URL")
  }

  /** A string the validator accepts: it parses, with a non-empty scheme and a non-empty host. */
  predicate WellFormed(parse: UrlParser, s: string) {
    parse(s).Some? && parse(s).value.scheme != "" && parse(s).value.host != ""
  }

  /**
   * The diagnostics Validate appends: the conversion diagnostics, then one attribute
   * error exactly when a known value is not well formed; null and unknown pass.
   */
  function ValidationDiagnostics(v: Validator, parse: UrlParser, req: ValidateAttributeRequest): (r: seq<Diagnostic>)
    ensures HasError(req.config.diagnostics) ==> r == req.config.diagnostics
    ensures !req.config.record.Known? ==> r == req.config.diagnostics
    ensures !HasError(req.config.diagnostics) && req.config.record.Known? ==>
              r == req.config.diagnostics
                   + (if WellFormed(parse, req.config.record.value) then [] else [InvalidUrlError(req.path)])
  {
    var conversion := req.config.diagnostics;
    if HasError(conversion) then conversion
    else
      match req.config.record
      case Unknown => conversion
      case Null => conversion
      case Known(s) =>
        match parse(s)
        case None => conversion + [InvalidUrlError(req.path)]
        case Some(u) =>
          if u.scheme == "" || u.host == "" then conversion + [InvalidUrlError(req.path)] else conversion
  }

  /** `validURLValidator.Validate`; `diagnostics` is `resp.Diagnostics`. */
  method Validate(v: Validator, parse: UrlParser, req: ValidateAttributeRequest, diagnostics: Diagnostics)
    modifies diagnostics
    ensures diagnostics.items == old(diagnostics.items) + ValidationDiagnostics(v, parse, req)
  {
    var url := req.config.record;
    var diags := req.config.diagnostics;
    diagnostics.Append(diags);
    if HasError(diags) {
      return;
    }
    if url.Unknown? {
      return;
    }
    if url.Null? {
      return;
    }
    var u := parse(url.value);
    if u.None? || u.value.scheme == "" || u.value.host == "" {
      diagnostics.AddAttributeError(req.path, "Invalid URL.", "The URL is not a valid URL");
      return;
    }
  }

  /**
   * Whatever the parser, a string it reads without a scheme is rejected; Go's parser
   * reads "invalid url" as a bare path, so that value is rejected with this text.
   */
  lemma SchemelessUrlRejected(parse: UrlParser, path: AttributePath, s: string)
    requires parse(s).Some? && parse(s).value.scheme == ""
    ensures ValidationDiagnostics(ValidURL(), parse, ValidateAttributeRequest(path, Decoded(Known(s), [])))
            == [AttributeErrorDiagnostic(path, "Invalid URL.", "The URL is not a valid URL")]
  {
    assert !HasError([]);
  }
}
