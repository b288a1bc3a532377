/**
 * The WordPress core functions the plugin calls. Their code is not part of
 * this model, so each one is an uninterpreted function handed to the model.
 */
module WordPress {
  import opened PhpValues

  datatype Api = Api(
    sanitizeKey: string -> string,  // sanitize_key
    ksesPost: Value -> string,      // wp_kses_post
    loginUrl: string -> string,     // wp_login_url( $redirect )
    escUrl: string -> string)       // esc_url
}
