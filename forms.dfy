/** What the expense and income handlers send back to the browser. */
module Forms {
  import opened Store

  datatype Response =
    | Redirect(location: string)
    /** `res.send(text)`: a plain-text page with status 200. */
    | Send(text: string)
    /** The edit form for one row, with the category list. */
    | EditForm(row: Entry, categories: map<int, string>)
}
