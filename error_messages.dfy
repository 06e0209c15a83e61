/** The error messages the guarded endpoints report. Their texts are not
    part of this model; these stand-ins are distinct strings, and the
    originals are assumed distinct too. */
module ErrorMessages {
  /** The message for a WordPress endpoint called before a base URL was set. */
  const EmptyWordPressBaseUrl: string := "EMPTY_WP_BASE_URL"

  /** The message for a WooCommerce endpoint called before a base URL was set. */
  const EmptyWooBaseUrl: string := "EMPTY_WOO_BASE_URL"
}
