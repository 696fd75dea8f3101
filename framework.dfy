/**
 * The parts of the Terraform plugin framework that the provider's code works
 * with: three-state attribute values, diagnostics, and the response objects that
 * every validator, resource and data-source operation updates in place.
 */
module Framework {

  datatype Option<+T> = None | Some(value: T) {
    function GetOr(default: T): T {
      if Some? then value else default
    }
  }

  /**
   * A `types.String`, `types.Int64` or `types.Bool`: a value that is not yet known
   * at plan time, an explicit null, or a concrete value.
   */
  datatype Attr<T> = Unknown | Null | Known(value: T) {
    /** The Go `.Value` field: the concrete value, or the zero value when unknown or null. */
    function ValueOr(zero: T): T {
      if Known? then value else zero
    }
  }

  /**
   * Go's `x.Value = v` on a `types.*` field: a known attribute takes the new value; a
   * null or unknown one keeps its flag, and the framework writes it out as null or
   * unknown whatever value it holds.
   */
  function AssignValue<T(==)>(a: Attr<T>, v: T): (r: Attr<T>)
    ensures SameFlag(r, a) && Holds(r, v)
  {
    if a.Known? then Known(v) else a
  }

  /** Both attributes are known, both null, or both unknown. */
  predicate SameFlag<T>(a: Attr<T>, b: Attr<T>) {
    a.Known? == b.Known? && a.Null? == b.Null?
  }

  /** The attribute, when known, holds `v`. */
  predicate Holds<T(==)>(a: Attr<T>, v: T) {
    a.Known? ==> a.value == v
  }

  type StringAttr = Attr<string>
  type Int64Attr = Attr<int>
  type BoolAttr = Attr<bool>

  function StringValue(a: StringAttr): string { a.ValueOr("") }
  function Int64Value(a: Int64Attr): int { a.ValueOr(0) }
  function BoolValue(a: BoolAttr): bool { a.ValueOr(false) }

  /** `types.Int64.String()` */
  function Int64String(a: Int64Attr): string {
    match a
    case Unknown => "<unknown>"
    case Null => "<null>"
    case Known(n) => FormatInt(n)
  }

  /** The decimal text `fmt`'s `%d` verb produces. */
  function FormatInt(n: int): string {
    if n < 0 then "-" + FormatNat(-n) else FormatNat(n)
  }

  function FormatNat(n: nat): (s: string)
    ensures |s| > 0
    ensures forall i | 0 <= i < |s| :: '0' <= s[i] <= '9'
  {
    if n < 10 then [DigitChar(n)] else FormatNat(n / 10) + [DigitChar(n % 10)]
  }

  function DigitChar(d: nat): (c: char)
    requires d < 10
    ensures '0' <= c <= '9'
  {
    "0123456789"[d]
  }

  datatype Severity = ErrorSeverity | WarningSeverity

  /** The steps of `path.Path`, from the schema root to the attribute. */
  type AttributePath = seq<string>

  datatype Diagnostic = Diagnostic(severity: Severity, summary: string, detail: string, path: Option<AttributePath>)

  function ErrorDiagnostic(summary: string, detail: string): Diagnostic {
    Diagnostic(ErrorSeverity, summary, detail, None)
  }

  function WarningDiagnostic(summary: string, detail: string): Diagnostic {
    Diagnostic(WarningSeverity, summary, detail, None)
  }

  function AttributeErrorDiagnostic(path: AttributePath, summary: string, detail: string): Diagnostic {
    Diagnostic(ErrorSeverity, summary, detail, Some(path))
  }

  /** `diag.Diagnostics.HasError()` */
  predicate HasError(ds: seq<Diagnostic>) {
    exists d :: d in ds && d.severity == ErrorSeverity
  }

  /** The state a response carries back: null once the resource is removed, otherwise a record. */
  datatype Tracked<R> = Removed | Stored(record: R)

  /** The result of `Get`/`ValueAs`: the decoded record and the conversion diagnostics. */
  datatype Decoded<R> = Decoded(record: R, diagnostics: seq<Diagnostic>)

  /**
   * `tfsdk.ValidateAttributeRequest` as a string validator sees it after `ValueAs`:
   * the attribute's path and the decoded value with the conversion diagnostics.
   */
  datatype ValidateAttributeRequest = ValidateAttributeRequest(path: AttributePath, config: Decoded<StringAttr>)

  /**
   * What one operation does: the remote request it issues (None when it stops
   * before any remote call), the response state, and the response diagnostics.
   */
  datatype Effect<R, C> = Effect(call: Option<C>, state: Tracked<R>, diagnostics: seq<Diagnostic>)

  /** `diag.Diagnostics`, a list that operations append to through a pointer. */
  class Diagnostics {
    var items: seq<Diagnostic>

    constructor ()
      ensures items == []
    {
      items := [];
    }

    method Append(ds: seq<Diagnostic>)
      modifies this
      ensures items == old(items) + ds
    {
      items := items + ds;
    }

    method AddError(summary: string, detail: string)
      modifies this
      ensures items == old(items) + [ErrorDiagnostic(summary, detail)]
    {
      items := items + [ErrorDiagnostic(summary, detail)];
    }

    method AddWarning(summary: string, detail: string)
      modifies this
      ensures items == old(items) + [WarningDiagnostic(summary, detail)]
    {
      items := items + [WarningDiagnostic(summary, detail)];
    }

    method AddAttributeError(path: AttributePath, summary: string, detail: string)
      modifies this
      ensures items == old(items) + [AttributeErrorDiagnostic(path, summary, detail)]
    {
      items := items + [AttributeErrorDiagnostic(path, summary, detail)];
    }
  }

  /** The response of a resource or data-source operation: its state and its diagnostics. */
  class Response<R> {
    var state: Tracked<R>
    const diagnostics: Diagnostics

    constructor (state: Tracked<R>)
      ensures this.state == state && fresh(diagnostics) && diagnostics.items == []
    {
      this.state := state;
      diagnostics := new Diagnostics();
    }

    /** `State.Set` */
    method Set(record: R)
      modifies this
      ensures state == Stored(record)
    {
      state := Stored(record);
    }

    /** `State.RemoveResource` */
    method RemoveResource()
      modifies this
      ensures state == Removed
    {
      state := Removed;
    }
  }

  /** The state an operation receives in its request (`req.State`); the framework hands it over by value. */
  class Request<R> {
    var state: Tracked<R>

    constructor (state: Tracked<R>)
      ensures this.state == state
    {
      this.state := state;
    }

    /** `req.State.Set` */
    method Set(record: R)
      modifies this
      ensures state == Stored(record)
    {
      state := Stored(record);
    }
  }

  lemma HasErrorAppend(a: seq<Diagnostic>, b: seq<Diagnostic>)
    ensures HasError(a + b) <==> HasError(a) || HasError(b)
  {
    if HasError(a + b) {
      var d :| d in a + b && d.severity == ErrorSeverity;
      assert d in a || d in b;
    }
    if HasError(a) {
      var d :| d in a && d.severity == ErrorSeverity;
      assert d in a + b;
    }
    if HasError(b) {
      var d :| d in b && d.severity == ErrorSeverity;
      assert d in a + b;
    }
  }
}
