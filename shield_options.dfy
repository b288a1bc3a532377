/**
 * The plugin's single option record, `velvet_posts_shield_options`: its four
 * keys, the defaults written on activation, and the isset-view through which
 * the frontend reads it.
 */
module ShieldOptions {
  import opened PhpValues

  const EnableShieldKey := "enable_shield"
  const ShieldedPostTypesKey := "shielded_post_types"
  const ShieldMessageKey := "shield_message"
  const RedirectToLoginKey := "redirect_to_login"

  const OptionKeys: set<string> :=
    {EnableShieldKey, ShieldedPostTypesKey, ShieldMessageKey, RedirectToLoginKey}

  /** The message shown when none is configured (translation is not modelled). */
  const DefaultMessage := "This content is shielded. Please log in to view."

  /** The record `activate` writes when none exists. */
  const DefaultOptions: PhpArray := map[
    EnableShieldKey := VBool(false),
    ShieldedPostTypesKey := VArray([VStr("post")]),
    ShieldMessageKey := VStr(DefaultMessage),
    RedirectToLoginKey := VBool(false)]

  /**
   * A fully populated, well-typed record: exactly the four keys, two
   * booleans, a list of post-type names and a message string.
   */
  predicate WellFormed(a: PhpArray) {
    && a.Keys == OptionKeys
    && a[EnableShieldKey].VBool?
    && a[RedirectToLoginKey].VBool?
    && a[ShieldMessageKey].VStr?
    && a[ShieldedPostTypesKey].VArray?
    && forall j :: 0 <= j < |a[ShieldedPostTypesKey].elems| ==> a[ShieldedPostTypesKey].elems[j].VStr?
  }

  /**
   * The record as the frontend reads `$this->options`: each field is
   * `Some` exactly when `isset` holds for its key.
   */
  datatype Options = Options(
    enableShield: Option<Value>,
    shieldedPostTypes: Option<Value>,
    shieldMessage: Option<Value>,
    redirectToLogin: Option<Value>)

  function View(a: PhpArray): Options {
    Options(
      Isset(a, EnableShieldKey),
      Isset(a, ShieldedPostTypesKey),
      Isset(a, ShieldMessageKey),
      Isset(a, RedirectToLoginKey))
  }

  /** A well-formed record reads back through `isset` without losing a field. */
  lemma WellFormedReadsBack(a: PhpArray)
    requires WellFormed(a)
    ensures View(a) == Options(
              Some(a[EnableShieldKey]), Some(a[ShieldedPostTypesKey]),
              Some(a[ShieldMessageKey]), Some(a[RedirectToLoginKey]))
  {
  }

  /** The activation defaults are a well-formed record. */
  lemma DefaultsWellFormed()
    ensures WellFormed(DefaultOptions)
  {
  }
}
