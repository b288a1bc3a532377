/**
 * `sanitize_options`: turns the raw settings form into a fully populated
 * option record. It never fails; ill-typed or unknown input degrades to
 * `false`, the empty list or the default message.
 */
module Sanitizer {
  import opened PhpValues
  import opened ShieldOptions
  import opened WordPress

  /**
   * `in_array( $post_type, $public_post_types, true )`: a strict match
   * against the registered public post-type names, so only a string can match.
   */
  predicate IsPublicPostType(v: Value, registry: seq<string>) {
    v.VStr? && v.s in registry
  }

  /**
   * The post types the `foreach` loop appends: `sanitize_key( $t )` for each
   * input element `$t` that is a registered public post type, in input order.
   */
  function PublicPostTypes(items: seq<Value>, registry: seq<string>, key: string -> string): (r: seq<Value>)
    ensures |r| <= |items|
    ensures forall j :: 0 <= j < |r| ==> r[j].VStr?
  {
    if items == [] then []
    else
      var last := items[|items| - 1];
      PublicPostTypes(items[..|items| - 1], registry, key)
      + (if IsPublicPostType(last, registry) then [VStr(key(last.s))] else [])
  }

  /** The `shielded_post_types` field: empty unless the input key holds an array. */
  function SanitizedPostTypes(input: PhpArray, registry: seq<string>, key: string -> string): seq<Value> {
    match Isset(input, ShieldedPostTypesKey)
    case Some(VArray(items)) => PublicPostTypes(items, registry, key)
    case _ => []
  }

  /** The record `sanitize_options` returns for `input`. */
  function Sanitize(input: PhpArray, registry: seq<string>, wp: Api): (r: PhpArray)
    ensures WellFormed(r)
  {
    map[
      EnableShieldKey := VBool(SetAndTruthy(Isset(input, EnableShieldKey))),
      ShieldedPostTypesKey := VArray(SanitizedPostTypes(input, registry, wp.sanitizeKey)),
      ShieldMessageKey := VStr(
        match Isset(input, ShieldMessageKey)
        case Some(m) => wp.ksesPost(m)
        case None => DefaultMessage),
      RedirectToLoginKey := VBool(SetAndTruthy(Isset(input, RedirectToLoginKey)))]
  }

  /**
   * `sanitize_options` as the source runs it: the record is built key by key
   * and the post types are appended inside a loop.
   */
  method SanitizeOptions(input: PhpArray, registry: seq<string>, wp: Api) returns (newInput: PhpArray)
    ensures WellFormed(newInput)
    ensures newInput == Sanitize(input, registry, wp)
  {
    newInput := map[];
    var enable := Isset(input, EnableShieldKey);
    newInput := newInput[EnableShieldKey := VBool(enable.Some? && Truthy(enable.value))];

    var postTypes: seq<Value> := [];
    var selected := Isset(input, ShieldedPostTypesKey);
    if selected.Some? && selected.value.VArray? {
      var items := selected.value.elems;
      var i := 0;
      while i < |items|
        invariant 0 <= i <= |items|
        invariant postTypes == PublicPostTypes(items[..i], registry, wp.sanitizeKey)
      {
        var postType := items[i];
        assert items[..i + 1][..i] == items[..i];
        if postType.VStr? && postType.s in registry {
          postTypes := postTypes + [VStr(wp.sanitizeKey(postType.s))];
        }
        i := i + 1;
      }
      assert items[..|items|] == items;
    }
    newInput := newInput[ShieldedPostTypesKey := VArray(postTypes)];

    var message := Isset(input, ShieldMessageKey);
    newInput := newInput[ShieldMessageKey := VStr(if message.Some? then wp.ksesPost(message.value) else DefaultMessage)];

    var redirect := Isset(input, RedirectToLoginKey);
    newInput := newInput[RedirectToLoginKey := VBool(redirect.Some? && Truthy(redirect.value))];
  }

  // ---------------------------------------------------------------------
  // The post-type filter

  /** Filtering a concatenation filters each part: input order is kept. */
  lemma {:induction false} PublicPostTypesAppend(xs: seq<Value>, ys: seq<Value>, registry: seq<string>, key: string -> string)
    ensures PublicPostTypes(xs + ys, registry, key)
         == PublicPostTypes(xs, registry, key) + PublicPostTypes(ys, registry, key)
  {
    if ys == [] {
      assert xs + ys == xs;
    } else {
      var init := ys[..|ys| - 1];
      assert (xs + ys)[..|xs + ys| - 1] == xs + init;
      assert (xs + ys)[|xs + ys| - 1] == ys[|ys| - 1];
      PublicPostTypesAppend(xs, init, registry, key);
    }
  }

  /**
   * An output entry is exactly `sanitize_key` of a string input entry that is
   * a registered public post type; every such entry contributes one.
   */
  lemma {:induction false} PublicPostTypesMembers(items: seq<Value>, registry: seq<string>, key: string -> string, v: Value)
    ensures v in PublicPostTypes(items, registry, key)
        <==> exists t :: t in items && IsPublicPostType(t, registry) && v == VStr(key(t.s))
  {
    if items != [] {
      var init := items[..|items| - 1];
      var last := items[|items| - 1];
      assert items == init + [last];
      PublicPostTypesMembers(init, registry, key, v);
      if exists t :: t in items && IsPublicPostType(t, registry) && v == VStr(key(t.s)) {
        var t :| t in items && IsPublicPostType(t, registry) && v == VStr(key(t.s));
        if t != last {
          assert t in init;
        }
      }
    }
  }

  /** When every entry is a registered public post type, each one is kept, in place. */
  lemma {:induction false} PublicPostTypesAllKept(items: seq<Value>, registry: seq<string>, key: string -> string)
    requires forall j :: 0 <= j < |items| ==> items[j].VStr? && items[j].s in registry
    ensures |PublicPostTypes(items, registry, key)| == |items|
    ensures forall j :: 0 <= j < |items| ==> PublicPostTypes(items, registry, key)[j] == VStr(key(items[j].s))
  {
    if items != [] {
      PublicPostTypesAllKept(items[..|items| - 1], registry, key);
    }
  }

  /** When no entry is a registered public post type, nothing is kept. */
  lemma {:induction false} PublicPostTypesNoneKept(items: seq<Value>, registry: seq<string>, key: string -> string)
    requires forall j :: 0 <= j < |items| ==> !IsPublicPostType(items[j], registry)
    ensures PublicPostTypes(items, registry, key) == []
  {
    if items != [] {
      PublicPostTypesNoneKept(items[..|items| - 1], registry, key);
    }
  }

  /**
   * WordPress registers post types under names `sanitize_key` leaves
   * unchanged.
   */
  ghost predicate RegisteredNamesAreKeys(registry: seq<string>, key: string -> string) {
    forall t :: t in registry ==> key(t) == t
  }

  /** Filtering an already filtered list changes nothing. */
  lemma {:induction false} PublicPostTypesIdempotent(items: seq<Value>, registry: seq<string>, key: string -> string)
    requires RegisteredNamesAreKeys(registry, key)
    ensures PublicPostTypes(PublicPostTypes(items, registry, key), registry, key)
         == PublicPostTypes(items, registry, key)
  {
    if items != [] {
      var init := items[..|items| - 1];
      var last := items[|items| - 1];
      var head := PublicPostTypes(init, registry, key);
      var tail := if IsPublicPostType(last, registry) then [VStr(key(last.s))] else [];
      PublicPostTypesIdempotent(init, registry, key);
      PublicPostTypesAppend(head, tail, registry, key);
      if IsPublicPostType(last, registry) {
        assert key(last.s) == last.s;
        assert tail[..0] == [];
      } else {
        assert tail == [];
      }
    }
  }

  // ---------------------------------------------------------------------
  // The whole record

  /**
   * Each field of the sanitized record in terms of the input: the flags are
   * `false` when absent and the `(bool)` cast otherwise; the message is the
   * default when absent and `wp_kses_post` of the input otherwise; the post
   * types are empty unless the input holds an array.
   */
  lemma SanitizeFields(input: PhpArray, registry: seq<string>, wp: Api)
    ensures var r := Sanitize(input, registry, wp);
      && (Isset(input, EnableShieldKey).None? ==> r[EnableShieldKey] == VBool(false))
      && (Isset(input, EnableShieldKey).Some? ==> r[EnableShieldKey] == VBool(Truthy(input[EnableShieldKey])))
      && (Isset(input, RedirectToLoginKey).None? ==> r[RedirectToLoginKey] == VBool(false))
      && (Isset(input, RedirectToLoginKey).Some? ==> r[RedirectToLoginKey] == VBool(Truthy(input[RedirectToLoginKey])))
      && (Isset(input, ShieldMessageKey).None? ==> r[ShieldMessageKey] == VStr(DefaultMessage))
      && (Isset(input, ShieldMessageKey).Some? ==> r[ShieldMessageKey] == VStr(wp.ksesPost(input[ShieldMessageKey])))
      && (!(ShieldedPostTypesKey in input && input[ShieldedPostTypesKey].VArray?) ==> r[ShieldedPostTypesKey] == VArray([]))
      && (ShieldedPostTypesKey in input && input[ShieldedPostTypesKey].VArray? ==>
            r[ShieldedPostTypesKey] == VArray(PublicPostTypes(input[ShieldedPostTypesKey].elems, registry, wp.sanitizeKey)))
  {
  }

  /** `wp_kses_post` leaves its own output, and the default message, unchanged. */
  ghost predicate KsesStable(wp: Api) {
    && (forall v :: wp.ksesPost(VStr(wp.ksesPost(v))) == wp.ksesPost(v))
    && wp.ksesPost(VStr(DefaultMessage)) == DefaultMessage
  }

  /** Saving the settings form twice stores the same record as saving it once. */
  lemma SanitizeIdempotent(input: PhpArray, registry: seq<string>, wp: Api)
    requires RegisteredNamesAreKeys(registry, wp.sanitizeKey)
    requires KsesStable(wp)
    ensures Sanitize(Sanitize(input, registry, wp), registry, wp) == Sanitize(input, registry, wp)
  {
    var selected := Isset(input, ShieldedPostTypesKey);
    if selected.Some? && selected.value.VArray? {
      PublicPostTypesIdempotent(selected.value.elems, registry, wp.sanitizeKey);
    }
  }

  /** The activation defaults are what saving them through the form would store. */
  lemma DefaultsAreSanitized(registry: seq<string>, wp: Api)
    requires "post" in registry && wp.sanitizeKey("post") == "post"
    requires wp.ksesPost(VStr(DefaultMessage)) == DefaultMessage
    ensures Sanitize(DefaultOptions, registry, wp) == DefaultOptions
  {
    var d := DefaultOptions;
    assert Isset(d, ShieldedPostTypesKey) == Some(VArray([VStr("post")]));
    assert [VStr("post")][..0] == [];
    assert PublicPostTypes([VStr("post")], registry, wp.sanitizeKey) == [VStr("post")];
    assert Isset(d, ShieldMessageKey) == Some(VStr(DefaultMessage));
    assert Isset(d, EnableShieldKey) == Some(VBool(false));
    assert Isset(d, RedirectToLoginKey) == Some(VBool(false));
  }

  /** A selection naming an unregistered type keeps only the registered one. */
  lemma DropsUnregisteredType(wp: Api)
    requires wp.sanitizeKey("post") == "post"
    ensures var input := map[ShieldedPostTypesKey := VArray([VStr("post"), VStr("custom_unregistered")])];
      Sanitize(input, ["post", "page"], wp)[ShieldedPostTypesKey] == VArray([VStr("post")])
  {
  }
}
