/** The rendering rules shared by the four admin pages. */
module AdminView {
  import opened Js

  /** What the main panel of an admin page shows. */
  datatype Screen<T> = Spinner | ErrorText(message: string) | Content(data: T)

  /** The panel's fixed priority: a spinner while loading, whatever the error; otherwise the
      error text when the error string is non-empty; otherwise the page's content. */
  function SelectView<T>(loading: bool, error: string, content: T): (r: Screen<T>)
    ensures r.Spinner? <==> loading
    ensures r.ErrorText? <==> !loading && error != ""
    ensures r.Content? <==> !loading && error == ""
    ensures r.ErrorText? ==> r.message == error
    ensures r.Content? ==> r.data == content
  {
    if loading then Spinner else if error != "" then ErrorText(error) else Content(content)
  }

  /** The ID column: characters 20 to 24 of a record id, i.e. the last four characters of a
      24-character database id, and less (possibly nothing) for a shorter id. */
  function IdCell(id: string): (r: string)
    ensures |r| <= 4
    ensures 24 <= |id| ==> r == id[20..24]
    ensures 20 <= |id| <= 24 ==> r == id[20..]
    ensures |id| <= 20 ==> r == ""
  {
    Substring(id, 20, 24)
  }
}
