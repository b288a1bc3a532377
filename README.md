# Velvet Posts Shield — a Dafny model

Velvet Posts Shield is a WordPress plugin. It hides single posts of selected
post types from visitors who are not logged in. Depending on one setting it
either redirects them to the login page or replaces the post body with a
message and a login link. This project models the plugin's one class,
`Velvet_Posts_Shield`:

- **the option record** `velvet_posts_shield_options` (`shield_options.dfy`).
  It has four keys, its activation defaults and the `isset` view through
  which the frontend reads it.
- **`sanitize_options`** (`sanitizer.dfy`). It turns the raw settings form
  into a fully populated record. It is modelled twice: as the loop that
  appends accepted post types (`SanitizeOptions`) and as the function that
  specifies it (`Sanitize`).
- **the shield condition and the two frontend hooks** (`frontend.dfy`).
  `is_shield_active_for_current_post`, the `template_redirect` stage and the
  `the_content` stage, plus the request as a whole (`Respond`). `Decide` is an
  independent statement of the three-way decision that the two hooks
  together implement.
- **activation, deactivation, saving and loading** (`lifecycle.dfy`). A class
  holds the stored record as an `Option`.

PHP values are a datatype (`php_values.dfy`). It covers null, booleans,
integers, strings and arrays, together with PHP's `(bool)` cast, its
`(array)` cast and `isset`. The WordPress functions the plugin calls
(`sanitize_key`, `wp_kses_post`, `wp_login_url`, `esc_url`) are
uninterpreted: they are function-valued fields of `WordPress.Api`
(`wordpress.dfy`). The registered public post types
(`get_post_types( array( 'public' => true ) )`) are a `seq<string>`
parameter. The request context is a parameter too: `is_user_logged_in()`,
`is_singular()`, `get_post_type()` and `get_permalink()`.

Three details of the code shape the model:

- The sanitizer keeps an empty message. It only tests `isset`. The default
  message replaces an empty one only when the content filter displays it
  (`empty()` also treats `"0"` as empty).
- The stored post types are a list in input order. A duplicate selection is
  kept twice. They are not a set.
- A stored post-type list that is not an array is read with PHP's `(array)`
  cast. `get_post_type()` returning `false` is kept as `false`, so strict
  `in_array` behaves exactly as in PHP.

## Model

| member | source | states |
|---|---|---|
| `ShieldOptions.WellFormedReadsBack` | velvet-posts-shield.php:169-189 | a stored record with all four keys reads back through `isset` with every field present and unchanged |
| `ShieldOptions.DefaultsWellFormed` | velvet-posts-shield.php:386-391 | the activation defaults have exactly the four keys, with booleans, a list of names and a message string |
| `Sanitizer.PublicPostTypes` | velvet-posts-shield.php:174-183 | the accepted post types are never more than the input entries, and each one is a string |
| `Sanitizer.Sanitize` | velvet-posts-shield.php:169-190 | for any input the sanitized record has exactly the four keys and every value has its type: it never fails |
| `Sanitizer.SanitizeOptions` | velvet-posts-shield.php:169-190 | building the record key by key, with the loop that appends accepted post types, yields exactly `Sanitize` of the input |
| `Sanitizer.PublicPostTypesAppend` | velvet-posts-shield.php:177-182 | filtering a concatenation gives the filtered parts in the same order, so input order is kept |
| `Sanitizer.PublicPostTypesMembers` | velvet-posts-shield.php:176-181 | a value is in the result exactly when it is `sanitize_key` of an input string that strictly matches a registered public post type |
| `Sanitizer.PublicPostTypesAllKept` | velvet-posts-shield.php:177-182 | when every entry is registered, each is kept at its own position as `sanitize_key` of itself |
| `Sanitizer.PublicPostTypesNoneKept` | velvet-posts-shield.php:174-183 | when no entry is a registered string, the result is empty |
| `Sanitizer.PublicPostTypesIdempotent` | velvet-posts-shield.php:176-181 | re-filtering an accepted list changes nothing, given that registered names are fixed by `sanitize_key` |
| `Sanitizer.SanitizeFields` | velvet-posts-shield.php:172-187 | flags are `false` when absent and the `(bool)` cast otherwise; the message is the default when absent and `wp_kses_post` of the input otherwise; post types are empty unless the input holds an array |
| `Sanitizer.SanitizeIdempotent` | velvet-posts-shield.php:169-190 | sanitizing a sanitized record returns it unchanged |
| `Sanitizer.DefaultsAreSanitized` | velvet-posts-shield.php:386-391 | the activation defaults are a fixed point of the sanitizer when `post` is registered |
| `Sanitizer.DropsUnregisteredType` | velvet-posts-shield.php:176-181 | with registry `post`, `page`, the selection `post`, `custom_unregistered` is stored as `post` alone |
| `Frontend.IsShieldActive` | velvet-posts-shield.php:353-379 | the early-return chain is active exactly when the shield is set and truthy, the visitor is anonymous, the view is singular and the post type is strictly in the stored list |
| `Frontend.ShieldPostContentRedirect` | velvet-posts-shield.php:299-311 | redirects exactly when the shield is active and `redirect_to_login` is set and truthy, and then to `wp_login_url` of the permalink |
| `Frontend.ShownMessage` | velvet-posts-shield.php:331-334 | the default message whenever the stored one is unset or `empty()` (null, `false`, `0`, `""`, `"0"`, an empty array); `wp_kses_post` of the stored one only when it is set and truthy |
| `Frontend.ShieldBlock` | velvet-posts-shield.php:336-345 | the block holds the message and then the escaped login URL at fixed positions between constant markup |
| `Frontend.ShieldPostContentMessage` | velvet-posts-shield.php:320-346 | passes the content unchanged exactly when `redirect_to_login` is truthy or the shield is inactive; otherwise replaces it with the block of the shown message and the escaped login URL |
| `Frontend.HooksNeverBothAct` | velvet-posts-shield.php:299-329 | the redirect and the replacement never both act; when the redirect acts, the content filter would pass the content through |
| `Frontend.RespondFollowsDecision` | velvet-posts-shield.php:299-346 | one request through both hooks gives the page for Allow, the block for BlockWithMessage and the login redirect for BlockWithRedirect |
| `Frontend.AllowCases` | velvet-posts-shield.php:354-375 | each failed check alone gives Allow: shield unset or falsy, logged-in visitor, non-singular view, post type not selected |
| `Frontend.NoShieldWithoutSettings` | velvet-posts-shield.php:355-357 | with no stored record, or with the activation defaults, every request is allowed (fail-open) |
| `Frontend.SavedPostTypesByName` | velvet-posts-shield.php:370-375 | for a sanitized record, a post type is shielded exactly when its name is in the stored list, and a missing post type never is |
| `Lifecycle.OptionStore.Activate` | velvet-posts-shield.php:385-394 | an existing record is left untouched; with none, the defaults are stored |
| `Lifecycle.OptionStore.Deactivate` | velvet-posts-shield.php:400-403 | the record is removed entirely |
| `Lifecycle.OptionStore.SaveSettings` | velvet-posts-shield.php:66 | a form submission stores the sanitized input, and the record stays well-formed |
| `Lifecycle.OptionStore.Load` | velvet-posts-shield.php:38 | a missing record reads as one with no field set; otherwise the stored record is read through `isset`, and a saved (well-formed) record reads back with all four fields present and unchanged |

## Left out

- The admin page is not modelled: the menu entry, the settings section and fields, the field callbacks, the options page and the inline CSS (velvet-posts-shield.php:52-161, 195-293). They only print HTML.
- Hook registration is framework wiring (velvet-posts-shield.php:37-47, 407-418). The model keeps only the order it implies: `template_redirect` runs before `the_content`, and a redirect ends the request.
- `sanitize_key`, `wp_kses_post`, `wp_login_url` and `esc_url` are uninterpreted functions. `wp_safe_redirect`'s fallback for hosts it does not allow is not modelled, and `exit` is the end of the response.
- `wp_kses_post` is assumed to return a string. A crafted form post can send the message as an array (`shield_message[]=…`), and kses would then return an array, which would be stored as the message. An array-valued stored message is not modelled.
- `Respond` and `RespondFollowsDecision` assume one `the_content` call per request, and that this call sees the same post type and permalink as `template_redirect`. WordPress runs `the_content` once per rendered post, each time with that post as the global `$post`. Requests that render several posts are not modelled.
- `esc_html__` translation is not modelled. The default message and the link text are the English strings.
- The plugin object's `$options` field is loaded once in the constructor and never reassigned. Both hooks therefore take it as one `Options` value, not as a field of an object.
- PHP floats and objects are not values of the model. Neither are the keys of nested arrays: the plugin only iterates over such arrays and searches them.
- A post type whose registered name is numeric becomes an integer key in PHP, so `array_keys` would return an integer that a strict match never accepts. The model treats every registered name as a string.
- `get_permalink()` returning `false` is not modelled. The permalink is always a string.
- Sanitize input that is not an array is not modelled separately. In PHP, `isset` on a scalar or null input is false for every key, so that input sanitizes like the empty map, which the model covers.
- `SanitizeIdempotent`: it is proved only under two assumptions about WordPress functions whose code is not part of this model. First, registered post-type names are fixed points of `sanitize_key`. Second, `wp_kses_post` leaves its own output, and the default message, unchanged.
- Concurrent writes to the option between the two hooks of one request are not modelled. Both hooks read the same snapshot.
