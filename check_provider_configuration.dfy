/**
 * The gate that the list, follow and tweet data-source operations pass first: an
 * unconfigured provider adds one error and reports failure.
 */
module ProviderConfiguration {
  import opened Framework

  const NotConfiguredSummary := "Provider not configured"

  const NotConfigured := ErrorDiagnostic(NotConfiguredSummary,
    "The provider is not configured. Please configure the provider before using it.")

  /**
   * `utils.CheckProviderConfiguration`; `d` is the caller's diagnostics. The result
   * is Go's `error`: None for nil.
   */
  method CheckProviderConfiguration(d: Diagnostics, configured: bool) returns (err: Option<string>)
    modifies d
    ensures err.Some? <==> !configured
    ensures err.Some? ==> err.value == "Provider not configured"
    ensures configured ==> d.items == old(d.items)
    ensures !configured ==> d.items == old(d.items) + [NotConfigured]
  {
    if !configured {
      d.AddError(
        "Provider not configured",
        "The provider is not configured. Please configure the provider before using it.");
      return Some("Provider not configured");
    }
    return None;
  }
}
