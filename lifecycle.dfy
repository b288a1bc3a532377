/**
 * The `velvet_posts_shield_options` row of the WordPress options table and
 * the operations that change it: activation (`add_option`, which writes only
 * when the row is absent), deactivation (`delete_option`), saving the
 * settings form (`register_setting` runs `sanitize_options` before storing),
 * and the read the plugin object does when it is built (`get_option` with
 * `array()` as fallback).
 */
module Lifecycle {
  import opened PhpValues
  import opened ShieldOptions
  import opened WordPress
  import opened Sanitizer
  import opened Frontend

  class OptionStore {
    /** The stored record, or `None` when the option does not exist. */
    var record: Option<PhpArray>

    /** The invariant the plugin's own writes keep: any stored record is well-formed. */
    predicate Valid()
      reads this
    {
      record.Some? ==> WellFormed(record.value)
    }

    /** A site where the plugin has never been activated. */
    constructor ()
      ensures Valid()
      ensures record == None
    {
      record := None;
    }

    /** `activate`: store the defaults, but never overwrite an existing record. */
    method Activate()
      modifies this
      ensures old(Valid()) ==> Valid()
      ensures old(record).Some? ==> record == old(record)
      ensures old(record).None? ==> record == Some(DefaultOptions)
    {
      DefaultsWellFormed();
      if record.None? {
        record := Some(DefaultOptions);
      }
    }

    /** `deactivate`: delete the record entirely. */
    method Deactivate()
      modifies this
      ensures Valid()
      ensures record == None
    {
      record := None;
    }

    /** A settings-form submission: the sanitized input replaces the record. */
    method SaveSettings(input: PhpArray, registry: seq<string>, wp: Api)
      modifies this
      ensures Valid()
      ensures record == Some(Sanitize(input, registry, wp))
    {
      var sanitized := SanitizeOptions(input, registry, wp);
      record := Some(sanitized);
    }

    /**
     * `get_option( 'velvet_posts_shield_options', array() )` read through
     * `isset`: a missing record reads as a record with no field set.
     */
    method Load() returns (o: Options)
      ensures record.None? ==> o == Options(None, None, None, None)
      ensures record.Some? ==> o == View(record.value)
      ensures Valid() && record.Some? ==> o == Options(
                Some(record.value[EnableShieldKey]), Some(record.value[ShieldedPostTypesKey]),
                Some(record.value[ShieldMessageKey]), Some(record.value[RedirectToLoginKey]))
    {
      if Valid() && record.Some? {
        WellFormedReadsBack(record.value);
      }
      o := View(if record.Some? then record.value else map[]);
    }
  }

  /**
   * Activation on a fresh site followed by a request: the defaults leave
   * every request unshielded; a saved form survives a second activation and
   * deactivation removes it.
   */
  method LifecycleScenario(input: PhpArray, registry: seq<string>, wp: Api, req: Request)
  {
    var store := new OptionStore();
    store.Activate();
    var o := store.Load();
    NoShieldWithoutSettings(req);
    assert Decide(o, req) == Allow;

    store.SaveSettings(input, registry, wp);
    store.Activate();
    assert store.record == Some(Sanitize(input, registry, wp));

    o := store.Load();
    assert o.shieldedPostTypes == Some(VArray(SanitizedPostTypes(input, registry, wp.sanitizeKey)));

    store.Deactivate();
    o := store.Load();
    assert !IsShieldActive(o, req);
  }
}
