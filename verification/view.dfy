/** What a component shows, decided by its loading and error state. */
module View {

  datatype Screen = Spinner | ErrorMessage | Content

  /** Loading takes precedence over an error, and an error over the content. */
  function Render(loading: bool, error: bool): (s: Screen)
    ensures s == Spinner <==> loading
    ensures s == ErrorMessage <==> !loading && error
    ensures s == Content <==> !loading && !error
  {
    if loading then Spinner else if error then ErrorMessage else Content
  }
}
