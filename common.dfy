/** Values shared by the result screen and the style-transfer client. */
module Common {

  /** A JavaScript value that may be `undefined`/`null`. */
  datatype Option<T> = None | Some(value: T)

  /**
   * A style as the static style configuration defines it. `model` is the
   * optional model key looked up in the model configuration; `prompt` is the
   * style's own prompt for the template-driven request.
   */
  datatype Style = Style(
    id: string,
    name: string,
    category: string,
    model: Option<string>,
    prompt: string)
}
