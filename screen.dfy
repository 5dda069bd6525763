/** What a screen's click handlers hand to the rest of the app: the body of
    a request built in a `mutableMapOf<String, Any>()`, the verdict of a
    save or submit click, and where the screen goes once an answer is in. */
module Screen {
  import opened Json
  import opened Http

  /** A value put into a request body: a text or a parsed price. */
  datatype Field = TextField(s: string) | PriceField(x: real)

  type Body = map<string, Field>

  /** A save or submit click: nothing happens (the guard returned early
      without a message), it is turned down with a toast or snackbar, or a
      request carrying `body` is sent. */
  datatype Submit<B> = Ignored | Rejected(message: string) | Send(body: B)

  /** After an answer: stay on the screen, pop back (setting `flag` to true
      on the previous back-stack entry when there is one), or navigate. */
  datatype Next = Stay | Pop(flag: Option<string>) | Navigate(route: string)

  /** The answer to an update or delete: a 2xx status pops back (marking
      `flag` on the previous entry); a failure status or an exception stays. */
  function PopOnSuccess<T>(call: Call<T>, flag: Option<string>): (r: Next)
    ensures r.Pop? <==> call.Answered? && IsSuccessful(call.code)
    ensures r.Pop? ==> r.flag == flag
    ensures !r.Pop? ==> r == Stay
  {
    if call.Answered? && IsSuccessful(call.code) then Pop(flag) else Stay
  }
}
