/** One request through the handler: the routing decision, the store update
    of a submission, and the response that is sent back. */
module Handler {
  import opened Routing
  import opened StaticFiles
  import opened Forms
  import opened Records

  /** What the response body is made of. */
  datatype Body =
    | PageFile(name: string)      // the bytes of a page file such as "index.html"
    | StaticFile(path: string)    // the bytes of a static file
    | Text(text: string)          // a fixed body

  datatype Response = Response(status: int, contentType: string, body: Body)

  /** A request either gets a response or ends with an exception raised out
      of the handler (a stored document that cannot be loaded). */
  datatype Outcome = Sent(response: Response) | Raised

  const ThankYou := "<h1>Thank you for your message!</h1>"

  /** The response for an action; for a submission, the one sent after the
      document was written. `suffix` gives a path's file suffix. */
  function Respond(a: Action, suffix: string -> string): (r: Response)
    ensures a.SendHtml? ==> r == Response(a.status, "text/html", PageFile(a.page))
    ensures a.SendStatic? ==> r.status == 200 && r.body == StaticFile(a.file)
    ensures a.SendStatic? ==> r.contentType == ContentType(suffix(a.file))
    ensures a.AcceptSubmission? ==> r == Response(200, "text/html", Text(ThankYou))
  {
    match a
    case SendHtml(page, status) => Response(status, "text/html", PageFile(page))
    case SendStatic(file) => Response(200, ContentType(suffix(file)), StaticFile(file))
    case AcceptSubmission => Response(200, "text/html", Text(ThankYou))
  }

  /** The submission `do_POST` builds from a form and the current time. */
  function SubmissionOf(form: Form, now: string): (s: Submission)
    requires WellFormed(form)
    ensures s.timestamp == now
    ensures s.entry.username == (if "name" in form then form["name"][0] else "")
    ensures s.entry.message == (if "message" in form then form["message"][0] else "")
  {
    Submission(now, Entry(FormField(form, "name"), FormField(form, "message")))
  }

  /** `do_GET` / `do_POST`. `isFile` and `suffix` stand for the file-system
      checks, `form` for the parsed request body and `now` for the clock. */
  method Handle(store: RecordStore, m: Method, raw: string, isFile: string -> bool,
                suffix: string -> string, form: Form, now: string) returns (out: Outcome)
    requires WellFormed(form)
    modifies store
    // requests other than a POST to exactly "/message" leave the store alone
    ensures Dispatch(m, raw, isFile) != AcceptSubmission ==>
      store.file == old(store.file) && out == Sent(Respond(Dispatch(m, raw, isFile), suffix))
    // an accepted submission is written into the loaded document, then thanked for
    ensures Dispatch(m, raw, isFile) == AcceptSubmission && !old(store.file).Unparsable? ==>
      var s := SubmissionOf(form, now);
      && store.file == Stored(Updated(old(store.Load()).doc, s.timestamp, s.entry))
      && out == Sent(Response(200, "text/html", Text(ThankYou)))
    // a document that cannot be loaded makes the handler raise before writing
    ensures Dispatch(m, raw, isFile) == AcceptSubmission && old(store.file).Unparsable? ==>
      store.file == old(store.file) && out == Raised
  {
    var action := Dispatch(m, raw, isFile);
    if action == AcceptSubmission {
      var s := SubmissionOf(form, now);
      var ok := store.Append(s.timestamp, s.entry.username, s.entry.message);
      out := if ok then Sent(Respond(action, suffix)) else Raised;
    } else {
      out := Sent(Respond(action, suffix));
    }
  }
}
