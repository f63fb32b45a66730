/**
 * What the request handler answers for one target, as a value: the
 * specification that `Harness.RunGeneratorTest.Handle` is proved against.
 * The generation folder is a map from a path relative to it to the text of
 * the file stored there.
 */
module Routing {
  import opened Wrappers
  import opened Http
  import opened Bootstrap

  /** Status, content type and the text printed to the writer. */
  datatype Reply = Reply(status: int, contentType: string, body: string)

  /**
   * `Served`: the handler returned normally with this reply. `IndexOutOfBounds`:
   * the target was empty, so dropping its first character threw an exception
   * that is not an I/O error and leaves the handler.
   */
  datatype Outcome = Served(reply: Reply) | IndexOutOfBounds

  /** The root target. */
  const Root: string := "/"

  /** The file a non-root target names: the target without its first character. */
  function FileKey(target: string): (key: string)
    requires target != ""
    ensures [target[0]] + key == target
  {
    target[1..]
  }

  function Respond(names: seq<string>, files: map<string, string>, target: string): (o: Outcome)
    ensures o.IndexOutOfBounds? <==> target == ""
    ensures o.Served? ==> o.reply.status == OK || o.reply.status == NOT_FOUND
  {
    if target == Root then Served(Reply(OK, TextHtml, Page(names)))
    else if target == "" then IndexOutOfBounds
    else if FileKey(target) in files then Served(Reply(OK, ApplicationJavascript, files[FileKey(target)]))
    else Served(Reply(NOT_FOUND, TextHtml, ""))
  }

  /**
   * The root target is answered with 200 and an HTML document that loads each
   * registered name once, in registry order (names without double quotes, so
   * that the document can be read back).
   */
  lemma RootLoadsRegistry(names: seq<string>, files: map<string, string>)
    requires QuoteFree(names)
    ensures Respond(names, files, Root).Served?
    ensures Respond(names, files, Root).reply.status == OK
    ensures Respond(names, files, Root).reply.contentType == TextHtml
    ensures ParsePage(Respond(names, files, Root).reply.body) == Some(names)
  {
    PageRoundTrip(names);
  }

  /** The root answer depends on the registry alone: not on the files, nor on anything served before. */
  lemma RootIgnoresFiles(names: seq<string>, files: map<string, string>, files': map<string, string>)
    ensures Respond(names, files, Root) == Respond(names, files', Root)
  {
  }

  /** Every stored file other than the folder itself is served under "/" + its path, unchanged, as JavaScript. */
  lemma ServesStoredFile(names: seq<string>, files: map<string, string>, path: string)
    requires path in files && path != ""
    ensures Respond(names, files, "/" + path) == Served(Reply(OK, ApplicationJavascript, files[path]))
  {
  }

  /** A path with no stored file is answered 404 with an empty HTML body, and the handler returns normally. */
  lemma MissingFileIsNotFound(names: seq<string>, files: map<string, string>, path: string)
    requires path !in files && path != ""
    ensures Respond(names, files, "/" + path) == Served(Reply(NOT_FOUND, TextHtml, ""))
  {
  }

  /** A 404 arises exactly for a non-root target that names no stored file. */
  lemma NotFoundExactlyWhenMissing(names: seq<string>, files: map<string, string>, target: string)
    requires target != ""
    ensures Respond(names, files, target).reply.status == NOT_FOUND
            <==> target != Root && FileKey(target) !in files
  {
  }
}
