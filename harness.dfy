/**
 * The test class itself: the artifact registry it fills before each run, the
 * request handler the embedded server calls for every request, and the run
 * that waits for the success signal.
 */
module Harness {
  import opened Text
  import opened Http
  import opened Bootstrap
  import opened Routing
  import opened Signal

  /** The registry after set-up: the support library first, the entry script last. */
  const Registry: seq<string> := ["stjs.js", "a/b/c/Global2.js", "a/b/c/DTO.js", "a/b/c/Main.js"]

  class RunGeneratorTest {
    /** The artifact names the root page loads, in this order. */
    var jsFileNames: seq<string>

    constructor ()
      ensures jsFileNames == []
    {
      jsFileNames := [];
    }

    /** Set-up before each run: the list is cleared, then refilled in a fixed order. */
    method Before()
      modifies this
      ensures jsFileNames == Registry
    {
      jsFileNames := [];
      jsFileNames := jsFileNames + ["stjs.js"];
      jsFileNames := jsFileNames + ["a/b/c/Global2.js"];
      jsFileNames := jsFileNames + ["a/b/c/DTO.js"];
      jsFileNames := jsFileNames + ["a/b/c/Main.js"];
    }

    /**
     * Answers one request for `target` against the generation folder `files`.
     * The response receives the status and content type of `Respond` and its
     * body is appended to the writer; the request is marked handled. For an
     * empty target the exception leaves both objects as they were.
     */
    method Handle(files: map<string, string>, target: string, baseRequest: Request, response: Response)
      returns (outcome: Outcome)
      modifies baseRequest, response
      ensures outcome == Respond(jsFileNames, files, target)
      ensures outcome.Served? ==> && response.status == outcome.reply.status
                                  && response.contentType == outcome.reply.contentType
                                  && response.body == old(response.body) + outcome.reply.body
                                  && baseRequest.handled
      ensures outcome.IndexOutOfBounds? ==> && response.status == old(response.status)
                                            && response.contentType == old(response.contentType)
                                            && response.body == old(response.body)
                                            && baseRequest.handled == old(baseRequest.handled)
    {
      if target == Root {
        response.SetStatus(OK);
        response.SetContentType(TextHtml);
        WritePage(response);
        outcome := Served(Reply(OK, TextHtml, Page(jsFileNames)));
      } else if target == "" {
        return IndexOutOfBounds;
      } else {
        var key := FileKey(target);
        if key in files {
          var js := files[key];
          response.SetStatus(OK);
          response.SetContentType(ApplicationJavascript);
          response.Print(js);
          outcome := Served(Reply(OK, ApplicationJavascript, js));
        } else {
          response.SetStatus(NOT_FOUND);
          response.SetContentType(TextHtml);
          outcome := Served(Reply(NOT_FOUND, TextHtml, ""));
        }
      }
      baseRequest.SetHandled(true);
    }

    /** Prints the root document for the current registry, one script element per loop turn. */
    method WritePage(response: Response)
      modifies response
      ensures response.body == old(response.body) + Page(jsFileNames)
      ensures response.status == old(response.status) && response.contentType == old(response.contentType)
    {
      ghost var before := response.body;
      ghost var status, contentType := response.status, response.contentType;
      response.Print(PageHead);
      ghost var headed := response.body;
      for i := 0 to |jsFileNames|
        invariant response.status == status && response.contentType == contentType
        invariant response.body == headed + ScriptTags(jsFileNames[..i])
      {
        ScriptTagsPrefix(jsFileNames, i);
        var tag := ScriptTag(jsFileNames[i]);
        AppendAssoc(headed, ScriptTags(jsFileNames[..i]), tag);
        response.Print(tag);
      }
      ghost var tags := ScriptTags(jsFileNames);
      assert jsFileNames[..|jsFileNames|] == jsFileNames;
      response.Print(PageTail);
      AppendAssoc(before, PageHead, tags);
      AppendAssoc(before, PageHead + tags, PageTail);
    }

    /**
     * The run after the scripts were generated and the page loaded: a fresh
     * latch, the browser's alert handler fed the alerts the page raised, in
     * order, and the final assertion on `await`. It passes exactly when one of
     * the alerts was the sentinel.
     */
    method Test(alerts: seq<string>) returns (passed: bool)
      ensures passed <==> Sentinel in alerts
    {
      var countDown := new CountDownLatch();
      var handler := new AlertHandler(countDown);
      for i := 0 to |alerts|
        invariant handler.latch == countDown
        invariant countDown.state == AfterAlerts(Pending, alerts[..i])
      {
        assert alerts[..i + 1][..i] == alerts[..i];
        handler.HandleAlert(alerts[i]);
      }
      assert alerts[..|alerts|] == alerts;
      FiresIffSentinelSeen(alerts);
      passed := countDown.Await();
    }
  }

  /** No registered name contains a double quote. */
  lemma RegistryQuoteFree()
    ensures QuoteFree(Registry)
  {
  }

  /** After set-up, the root page loads the four artifacts in registry order, whatever files exist. */
  lemma RootPageAfterSetUp(files: map<string, string>)
    ensures Respond(Registry, files, Root).reply.status == OK
    ensures ParsePage(Respond(Registry, files, Root).reply.body)
              == Wrappers.Some(["stjs.js", "a/b/c/Global2.js", "a/b/c/DTO.js", "a/b/c/Main.js"])
  {
    RegistryQuoteFree();
    RootLoadsRegistry(Registry, files);
  }
}
