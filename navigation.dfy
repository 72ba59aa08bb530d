/** Where a page sends the browser: `navigate(path, { state: { message } })`. */
module Navigation {
  import opened Wrappers

  datatype Navigation = Navigate(path: string, message: Option<string>)
}
