/** The WordPress helpers the plugins call, uninterpreted: nothing is
    required of what they return. */
module WordPress {
  datatype Sanitizers = Sanitizers(
    text: string -> string,     // sanitize_text_field
    email: string -> string,    // sanitize_email
    unslash: string -> string)  // wp_unslash
  {
    /** `sanitize_text_field(wp_unslash($x))`, as form input is read. */
    function Clean(x: string): string
    {
      text(unslash(x))
    }
  }
}
