/**
 * The validator on a tweet's `text`: a known value must be between `Min` and `Max`
 * long, where the length is Go's `len`, the number of UTF-8 bytes.
 */
module TweetLengthValidator {
  import opened Framework

  datatype Validator = Validator(max: int, min: int)

  /** The validator the tweet schema uses. */
  function TweetLength(): (v: Validator)
    ensures v.min == 1 && v.max == 280
  {
    Validator(280, 1)
  }

  /** The description text, shared with the blank-name validator, which formats it the same way. */
  function LengthDescription(min: int, max: int): string {
    "Tweet length must be between " + FormatInt(min) + " and " + FormatInt(max) + " characters."
  }

  /** The text Terraform shows for the validator; the tweet schema's bounds read as 1 and 280. */
  function Description(v: Validator): (s: string)
    ensures v == TweetLength() ==> s == "Tweet length must be between 1 and 280 characters."
  {
    LengthDescription(v.min, v.max)
  }

  function MarkdownDescription(v: Validator): (s: string)
    ensures s == Description(v)
  {
    LengthDescription(v.min, v.max)
  }


  /** Number of bytes UTF-8 uses for one Unicode scalar value. */
  function Utf8Width(c: char): (n: nat)
    ensures 1 <= n <= 4
  {
    if c as int < 0x80 then 1
    else if c as int < 0x800 then 2
    else if c as int < 0x1_0000 then 3
    else 4
  }

  /** Go's `len` of a string: its length in UTF-8 bytes. */
  function Utf8Length(s: string): nat {
    if s == [] then 0 else Utf8Width(s[0]) + Utf8Length(s[1..])
  }

  function LengthError(path: AttributePath, v: Validator, n: int): Diagnostic {
    AttributeErrorDiagnostic(path, "Invalid Tweet Length",
      "Tweet length must be between " + FormatInt(v.min) + " and " + FormatInt(v.max)
      + " characters, got: " + FormatInt(n) + " characters.")
  }

  /**
   * The diagnostics Validate appends: the conversion diagnostics, then at most one
   * attribute error, present exactly when a known value's byte length is out of bounds.
   */
  function ValidationDiagnostics(v: Validator, req: ValidateAttributeRequest): (r: seq<Diagnostic>)
    ensures HasError(req.config.diagnostics) ==> r == req.config.diagnostics
    ensures !req.config.record.Known? ==> r == req.config.diagnostics
    ensures !HasError(req.config.diagnostics) && req.config.record.Known? ==>
              var n := Utf8Length(req.config.record.value);
              && (r == req.config.diagnostics <==> v.min <= n <= v.max)
              && (r != req.config.diagnostics ==> r == req.config.diagnostics + [LengthError(req.path, v, n)])
  {
    var conversion := req.config.diagnostics;
    if HasError(conversion) then conversion
    else
      match req.config.record
      case Unknown => conversion
      case Null => conversion
      case Known(s) =>
        var n := Utf8Length(s);
        if n < v.min || n > v.max then conversion + [LengthError(req.path, v, n)] else conversion
  }

  /** `tweetLengthValidator.Validate`; `diagnostics` is `resp.Diagnostics`. */
  method Validate(v: Validator, req: ValidateAttributeRequest, diagnostics: Diagnostics)
    modifies diagnostics
    ensures diagnostics.items == old(diagnostics.items) + ValidationDiagnostics(v, req)
  {
    var str := req.config.record;
    var diags := req.config.diagnostics;
    diagnostics.Append(diags);
    if HasError(diags) {
      return;
    }
    if str.Unknown? || str.Null? {
      return;
    }
    var strLen := Utf8Length(str.value);
    if strLen < v.min || strLen > v.max {
      diagnostics.AddAttributeError(req.path, "Invalid Tweet Length",
        "Tweet length must be between " + FormatInt(v.min) + " and " + FormatInt(v.max)
        + " characters, got: " + FormatInt(strLen) + " characters.");
      return;
    }
  }

  /** A string's byte length lies between its number of characters and four times that. */
  lemma {:induction false} Utf8LengthBounds(s: string)
    ensures |s| <= Utf8Length(s) <= 4 * |s|
  {
    if s != [] {
      Utf8LengthBounds(s[1..]);
    }
  }

  /** For ASCII text, bytes and characters coincide. */
  lemma {:induction false} Utf8LengthOfAscii(s: string)
    requires forall i | 0 <= i < |s| :: s[i] as int < 0x80
    ensures Utf8Length(s) == |s|
  {
    if s != [] {
      Utf8LengthOfAscii(s[1..]);
    }
  }

  /** A string of `n` copies of one character is `n` times that character's width long. */
  lemma {:induction false} Utf8LengthOfRepeated(c: char, n: nat)
    ensures Utf8Length(seq(n, _ => c)) == n * Utf8Width(c)
  {
    if n > 0 {
      var s := seq(n, _ => c);
      assert s[1..] == seq(n - 1, _ => c);
      Utf8LengthOfRepeated(c, n - 1);
    }
  }

  /** With the tweet bounds, a known value with no conversion error is accepted iff it has 1 to 280 bytes. */
  lemma TweetLengthAcceptsIff(path: AttributePath, s: string)
    ensures ValidationDiagnostics(TweetLength(), ValidateAttributeRequest(path, Decoded(Known(s), []))) == []
            <==> 1 <= Utf8Length(s) <= 280
  {
    assert !HasError([]);
  }

  /** The empty tweet is rejected. */
  lemma EmptyTweetRejected(path: AttributePath)
    ensures ValidationDiagnostics(TweetLength(), ValidateAttributeRequest(path, Decoded(Known(""), [])))
            == [LengthError(path, TweetLength(), 0)]
  {
    assert !HasError([]);
  }

  /** Every tweet of 1 to 70 characters fits, whatever characters it uses. */
  lemma ShortTweetAccepted(path: AttributePath, s: string)
    requires 1 <= |s| <= 70
    ensures ValidationDiagnostics(TweetLength(), ValidateAttributeRequest(path, Decoded(Known(s), []))) == []
  {
    Utf8LengthBounds(s);
    TweetLengthAcceptsIff(path, s);
  }

  /** Every tweet of more than 280 characters is rejected. */
  lemma LongTweetRejected(path: AttributePath, s: string)
    requires |s| > 280
    ensures ValidationDiagnostics(TweetLength(), ValidateAttributeRequest(path, Decoded(Known(s), [])))
            == [LengthError(path, TweetLength(), Utf8Length(s))]
  {
    Utf8LengthBounds(s);
    assert !HasError([]);
  }

  /** For ASCII text the check is exactly "1 to 280 characters". */
  lemma AsciiTweetAcceptedIff(path: AttributePath, s: string)
    requires forall i | 0 <= i < |s| :: s[i] as int < 0x80
    ensures ValidationDiagnostics(TweetLength(), ValidateAttributeRequest(path, Decoded(Known(s), []))) == []
            <==> 1 <= |s| <= 280
  {
    Utf8LengthOfAscii(s);
    TweetLengthAcceptsIff(path, s);
  }

  /**
   * The check counts bytes, not characters: 71 copies of a four-byte emoji are 71
   * characters, well under 280, and are still rejected as 284 bytes long.
   */
  lemma EmojiTweetRejected(path: AttributePath)
    ensures var s := seq(71, _ => '\U{1F600}');
            && |s| == 71
            && ValidationDiagnostics(TweetLength(), ValidateAttributeRequest(path, Decoded(Known(s), [])))
               == [LengthError(path, TweetLength(), 284)]
  {
    Utf8LengthOfRepeated('\U{1F600}', 71);
    assert !HasError([]);
  }
}
