/**
 * The validator on a profile's `name`: a null or empty name is rejected, an unknown
 * one is left for later.
 */
module BlankNameValidator {
  import opened Framework
  import TweetLengthValidator

  datatype Validator = Validator(max: int, min: int)

  /** The validator the profile schema uses: both bounds are Go's zero value. */
  function BlankName(): (v: Validator)
    ensures v.min == 0 && v.max == 0
  {
    Validator(0, 0)
  }

  /** The same text as the tweet-length validator's description, formatted with this validator's bounds. */
  function Description(v: Validator): (s: string)
    ensures v == BlankName() ==> s == "Tweet length must be between 0 and 0 characters."
  {
    TweetLengthValidator.LengthDescription(v.min, v.max)
  }

  function MarkdownDescription(v: Validator): (s: string)
    ensures s == Description(v)
  {
    TweetLengthValidator.LengthDescription(v.min, v.max)
  }

  function BlankError(path: AttributePath): Diagnostic {
    AttributeErrorDiagnostic(path, "Invalid account name.", "Name can't be blank.")
  }

  /**
   * The diagnostics Validate appends: the conversion diagnostics, then one attribute
   * error exactly when the value is null or the empty string.
   */
  function ValidationDiagnostics(v: Validator, req: ValidateAttributeRequest): (r: seq<Diagnostic>)
    ensures HasError(req.config.diagnostics) ==> r == req.config.diagnostics
    ensures req.config.record.Unknown? ==> r == req.config.diagnostics
    ensures !HasError(req.config.diagnostics) && !req.config.record.Unknown? ==>
              r == req.config.diagnostics + (if req.config.record == Null || req.config.record == Known("") then [BlankError(req.path)] else [])
  {
    var conversion := req.config.diagnostics;
    if HasError(conversion) then conversion
    else
      match req.config.record
      case Unknown => conversion
      case Null => conversion + [BlankError(req.path)]
      case Known(s) => if |s| == 0 then conversion + [BlankError(req.path)] else conversion
  }

  /** `blankNameValidator.Validate`; `diagnostics` is `resp.Diagnostics`. */
  method Validate(v: Validator, req: ValidateAttributeRequest, diagnostics: Diagnostics)
    modifies diagnostics
    ensures diagnostics.items == old(diagnostics.items) + ValidationDiagnostics(v, req)
  {
    var str := req.config.record;
    var diags := req.config.diagnostics;
    diagnostics.Append(diags);
    if HasError(diags) {
      return;
    }
    if str.Unknown? {
      return;
    }
    if str.Null? || TweetLengthValidator.Utf8Length(str.value) == 0 {
      diagnostics.AddAttributeError(req.path, "Invalid account name.", "Name can't be blank.");
      return;
    }
  }

  /** A known name with no conversion error is accepted exactly when it is not empty. */
  lemma KnownNameAcceptedIff(path: AttributePath, s: string)
    ensures ValidationDiagnostics(BlankName(), ValidateAttributeRequest(path, Decoded(Known(s), []))) == [] <==> s != ""
  {
    assert !HasError([]);
  }

}
